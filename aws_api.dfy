/** The external AWS services as seen by the handler: the requests it issues and the
    outcomes each service may answer with. No service is implemented here; every answer
    is an input to the model. */
module AwsApi {
  import opened Wrappers
  import opened JsonValue

  /** One request sent to Systems Manager or Auto Scaling, with the arguments the
      handler passes. Serialised document content and free-text comments are omitted. */
  datatype ApiCall =
    | PutParameter(name: string, value: string, parameterType: string, overwrite: bool, description: string)
    | DescribeAutoScalingGroups
    | UpdateDocument(name: string, documentVersion: string)
    | CreateDocument(name: string, documentType: string, documentFormat: string)
    | SendCommand(instanceIds: seq<Json>, documentName: string, parameters: map<string, seq<string>>)

  /** A value together with the requests issued, in order, while computing it. */
  datatype Traced<T> = Traced(value: T, calls: seq<ApiCall>)

  /** Answer of `put_parameter`. */
  datatype PutOutcome = PutOk | PutFailed(message: string)

  /** One element of a group's `Instances` list; `healthStatus` is `None` when the
      record has no `HealthStatus` key. */
  datatype InstanceRecord = InstanceRecord(instanceId: string, healthStatus: Option<string>)

  /** One element of `AutoScalingGroups`; a `None` field is a key the record lacks. */
  datatype GroupRecord = GroupRecord(
    name: Option<string>,
    desiredCapacity: Option<int>,
    minSize: Option<int>,
    maxSize: Option<int>,
    instances: Option<seq<InstanceRecord>>)

  /** Answer of `describe_auto_scaling_groups`: a response (whose `AutoScalingGroups`
      key may be missing) or a raised error. */
  datatype DescribeOutcome = Described(groups: Option<seq<GroupRecord>>) | DescribeFailed(message: string)

  /** Answer of `update_document`. */
  datatype UpdateOutcome = UpdateOk | DocumentDoesNotExist | UpdateFailed(message: string)

  /** Answer of `create_document`. */
  datatype CreateOutcome = CreateOk | CreateFailed(message: string)

  /** Answer of `send_command`: the response object, or a raised error. */
  datatype SendOutcome = Sent(response: Json) | SendFailed(message: string)
}
