/** `lambda_handler` and its three event handlers: route on `detail-type`, run the
    handler against the services' answers, and wrap the result in a 200 response. */
module LambdaHandler {
  import opened Wrappers
  import opened JsonValue
  import opened AwsApi
  import opened FleetHealth
  import opened Ssm

  /** The services' answers for one invocation, and the two clock readings: the
      timestamp written to the parameter store and the one put in the response. */
  datatype Environment = Environment(
    parameterTime: string,
    replyTime: string,
    put: PutOutcome,
    describe: DescribeOutcome,
    update: UpdateOutcome,
    create: CreateOutcome,
    send: SendOutcome)

  datatype HandlerKind = Scheduled | StateChange | Default

  /** The result dictionary of each handler. */
  datatype HandlerResult =
    | ScheduledMaintenance(ssmParameterUpdated: bool, asgStatus: seq<GroupStatus>, documentResult: DocumentResult)
    | Ec2StateChange(instanceId: Json, state: Json)
    | DefaultProcessing(asgStatus: seq<GroupStatus>)

  /** The one structural error the handlers can raise: `event['detail']` is present but
      is not a dictionary, so `.get` does not exist on it. */
  datatype HandlerError = DetailNotAnObject(detail: Json)

  /** The successful response: status code and the decoded JSON body. */
  datatype Response = Response(statusCode: int, message: string, result: HandlerResult, timestamp: string)

  /** How an invocation ends: a response, or the error re-raised to the platform. */
  datatype Invocation = Returned(response: Response) | Raised(error: HandlerError)

  /** `event.get('detail-type', 'unknown')`. */
  function DetailType(event: map<string, Json>): Json
  {
    GetOr(event, "detail-type", JStr("unknown"))
  }

  /** The routing `if`/`elif`/`else`: total, and a missing `detail-type` goes to the default handler. */
  function Route(event: map<string, Json>): (k: HandlerKind)
    ensures k == Scheduled <==> DetailType(event) == JStr("Scheduled Event")
    ensures k == StateChange <==> DetailType(event) == JStr("EC2 State Change")
    ensures "detail-type" !in event ==> k == Default
  {
    var detailType := DetailType(event);
    if detailType == JStr("Scheduled Event") then Scheduled
    else if detailType == JStr("EC2 State Change") then StateChange
    else Default
  }

  /** `event.get('detail', {}).get(key)`: `None` for a missing detail or key; raises when
      the detail is not a dictionary. */
  function DetailField(event: map<string, Json>, key: string): Result<Json, HandlerError>
  {
    if "detail" !in event then Success(JNull)
    else
      match event["detail"]
      case JObj(fields) => Success(GetOr(fields, key, JNull))
      case other => Failure(DetailNotAnObject(other))
  }

  /** `handle_scheduled_event`: publish the timestamp, summarise the fleet, upsert the
      document; the put's own success flag is discarded. */
  function HandleScheduledEvent(env: Environment): (out: Traced<HandlerResult>)
    ensures out.value.ScheduledMaintenance?
    ensures out.value.ssmParameterUpdated
    ensures out.value.asgStatus == HealthSummary(env.describe)
    ensures out.value.documentResult == ManageSsmDocument(env.update, env.create).value
    ensures |out.calls| >= 3
    ensures out.calls[0] == PutParameter(ParameterName, env.parameterTime, "String", true, ParameterDescription)
    ensures out.calls[1] == DescribeAutoScalingGroups
    ensures out.calls[2..] == ManageSsmDocument(env.update, env.create).calls
  {
    var parameter := UpdateSsmParameter(env.parameterTime, env.put);
    var document := ManageSsmDocument(env.update, env.create);
    Traced(ScheduledMaintenance(true, HealthSummary(env.describe), document.value),
           parameter.calls + [DescribeAutoScalingGroups] + document.calls)
  }

  /** The guard of the dispatch: both fields truthy and the state exactly `'running'`. */
  predicate ShouldConfigure(instanceId: Json, state: Json)
  {
    Truthy(instanceId) && Truthy(state) && state == JStr("running")
  }

  /** `handle_ec2_state_change`: echo the observed instance id and state, and send the
      configuration command only for a running instance. The command id is discarded. */
  function HandleEc2StateChange(event: map<string, Json>, send: SendOutcome): (out: Traced<Result<HandlerResult, HandlerError>>)
    ensures out.value.Failure? <==> "detail" in event && !event["detail"].JObj?
    ensures out.value.Failure? ==> out.calls == []
    ensures out.value.Success? ==>
      var detail := if "detail" in event then event["detail"].fields else map[];
      && out.value.value.Ec2StateChange?
      && out.value.value.instanceId == (if "instance-id" in detail then detail["instance-id"] else JNull)
      && out.value.value.state == (if "state" in detail then detail["state"] else JNull)
      && (out.calls != [] <==> Truthy(out.value.value.instanceId) && out.value.value.state == JStr("running"))
      && out.calls in {[], [SendCommand([out.value.value.instanceId], DocumentName, ProductionParameters)]}
  {
    match (DetailField(event, "instance-id"), DetailField(event, "state"))
    case (Success(instanceId), Success(state)) =>
      var calls := if ShouldConfigure(instanceId, state) then ConfigureInstanceViaSsm(instanceId, send).calls else [];
      Traced(Success(Ec2StateChange(instanceId, state)), calls)
    case (Failure(e), _) => Traced(Failure(e), [])
    case (_, Failure(e)) => Traced(Failure(e), [])
  }

  /** `handle_default_event`: only the fleet health summary. */
  function HandleDefaultEvent(env: Environment): (out: Traced<HandlerResult>)
    ensures out.value == DefaultProcessing(HealthSummary(env.describe))
    ensures out.calls == [DescribeAutoScalingGroups]
  {
    Traced(DefaultProcessing(HealthSummary(env.describe)), [DescribeAutoScalingGroups])
  }

  /** `lambda_handler`: route, run the handler, answer 200 with the result; a raised
      structural error is propagated. */
  function Handle(event: map<string, Json>, env: Environment): (out: Traced<Invocation>)
    ensures out.value.Raised? <==>
      Route(event) == StateChange && "detail" in event && !event["detail"].JObj?
    ensures out.value.Returned? ==>
      && out.value.response.statusCode == 200
      && out.value.response.message == "Event processed successfully"
      && out.value.response.timestamp == env.replyTime
      && (out.value.response.result.ScheduledMaintenance? <==> Route(event) == Scheduled)
      && (out.value.response.result.Ec2StateChange? <==> Route(event) == StateChange)
      && (out.value.response.result.DefaultProcessing? <==> Route(event) == Default)
    ensures Route(event) == Scheduled ==>
      var handled := HandleScheduledEvent(env);
      out == Traced(Returned(Response(200, "Event processed successfully", handled.value, env.replyTime)), handled.calls)
    ensures Route(event) == Default ==>
      var handled := HandleDefaultEvent(env);
      out == Traced(Returned(Response(200, "Event processed successfully", handled.value, env.replyTime)), handled.calls)
    ensures Route(event) == StateChange ==>
      var handled := HandleEc2StateChange(event, env.send);
      && out.calls == handled.calls
      && (handled.value.Success? ==>
            out.value == Returned(Response(200, "Event processed successfully", handled.value.value, env.replyTime)))
      && (handled.value.Failure? ==> out.value == Raised(handled.value.error))
  {
    var handled :=
      match Route(event)
      case Scheduled => var r := HandleScheduledEvent(env); Traced(Success(r.value), r.calls)
      case StateChange => HandleEc2StateChange(event, env.send)
      case Default => var r := HandleDefaultEvent(env); Traced(Success(r.value), r.calls);
    match handled.value
    case Success(result) =>
      Traced(Returned(Response(200, "Event processed successfully", result, env.replyTime)), handled.calls)
    case Failure(e) => Traced(Raised(e), handled.calls)
  }

  /** The scheduled result reports the parameter as updated whatever the put answered:
      two runs that differ only in that answer return the same result. */
  lemma ScheduledIgnoresParameterPut(env: Environment, put': PutOutcome)
    ensures HandleScheduledEvent(env).value == HandleScheduledEvent(env.(put := put')).value
    ensures HandleScheduledEvent(env).value.ssmParameterUpdated
  {
  }

  /** The state-change result never depends on what `send_command` answered. */
  lemma StateChangeIgnoresCommandId(event: map<string, Json>, send: SendOutcome, send': SendOutcome)
    ensures HandleEc2StateChange(event, send) == HandleEc2StateChange(event, send')
  {
  }

  /** A terminated instance, like every state other than `'running'`, sends nothing. */
  lemma NoDispatchUnlessRunning(event: map<string, Json>, send: SendOutcome)
    requires "detail" in event && event["detail"].JObj?
    requires GetOr(event["detail"].fields, "state", JNull) != JStr("running")
    ensures HandleEc2StateChange(event, send).calls == []
  {
  }

  /** An empty instance id counts as absent: nothing is sent even for a running instance. */
  lemma EmptyInstanceIdNoDispatch(event: map<string, Json>, send: SendOutcome)
    requires "detail" in event && event["detail"].JObj?
    requires GetOr(event["detail"].fields, "instance-id", JNull) in {JNull, JStr("")}
    ensures HandleEc2StateChange(event, send).calls == []
  {
  }

  /** Graceful degradation: when the inventory call fails, scheduled and default events
      still answer 200, with an empty fleet summary. */
  lemma InventoryFailureDegrades(event: map<string, Json>, env: Environment)
    requires env.describe.DescribeFailed?
    requires Route(event) != StateChange
    ensures Handle(event, env).value.Returned?
    ensures Handle(event, env).value.response.result.asgStatus == []
  {
  }

  /** A stopped instance is echoed and nothing is sent. */
  lemma StoppedInstanceEchoed(send: SendOutcome)
    ensures var event := map["detail-type" := JStr("EC2 State Change"),
                             "detail" := JObj(map["instance-id" := JStr("i-123"), "state" := JStr("stopped")])];
      var env := Environment("t0", "t1", PutOk, DescribeFailed("x"), UpdateOk, CreateOk, send);
      Handle(event, env) ==
        Traced(Returned(Response(200, "Event processed successfully",
                                 Ec2StateChange(JStr("i-123"), JStr("stopped")), "t1")), [])
  {
  }

  /** A running instance gets exactly one command, to `["i-123"]` with the production
      environment, whatever `send_command` answers. */
  lemma RunningInstanceConfigured(send: SendOutcome)
    ensures var event := map["detail-type" := JStr("EC2 State Change"),
                             "detail" := JObj(map["instance-id" := JStr("i-123"), "state" := JStr("running")])];
      var env := Environment("t0", "t1", PutOk, DescribeFailed("x"), UpdateOk, CreateOk, send);
      Handle(event, env).calls == [SendCommand([JStr("i-123")], DocumentName, map["environment" := ["production"]])]
  {
  }

  /** An empty detail is echoed as two `None`s and sends nothing. */
  lemma EmptyDetailTolerated(send: SendOutcome)
    ensures var event := map["detail-type" := JStr("EC2 State Change"), "detail" := JObj(map[])];
      var env := Environment("t0", "t1", PutOk, DescribeFailed("x"), UpdateOk, CreateOk, send);
      Handle(event, env).value.response.result == Ec2StateChange(JNull, JNull)
      && Handle(event, env).calls == []
  {
  }
}
