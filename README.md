# AWS automation Lambda handler — a Dafny model

This project models the event handler of the automation Lambda
(`modules/lambda/lambda_function.py`). The handler receives an EventBridge event,
routes it on its `detail-type`, and runs one of three handlers:

- the scheduled-maintenance handler writes the last-run timestamp to Parameter Store, summarises
  the health of every Auto Scaling group, and upserts the SSM command document;
- the EC2 state-change handler echoes the instance id and state, and sends the configuration
  command to an instance that is `running`;
- the default handler only summarises the groups.

It then wraps the handler's result in a `statusCode` 200 response.

The AWS services are not modelled. Each of their answers is an input: `put_parameter`
succeeds or fails, `describe_auto_scaling_groups` returns group records or fails,
`update_document` succeeds, reports that the document does not exist, or fails, and so on.
The Systems Manager primitives and the handlers return the value they compute together
with the requests they send, in order (`AwsApi.Traced`). The health summary
(`FleetHealth.HealthSummary` and the method `FleetHealth.CheckAutoscalingGroup`) returns a
bare list of statuses; the handlers that use it add its single `DescribeAutoScalingGroups`
request to their own trace. So "create is never called" and "the command is sent exactly
once, to `[instance_id]`" are statements about that request trace.

Files and modules:

- `json.dfy`: `Wrappers` (Option, Result) and `JsonValue`. The decoded event is a `Json` value.
  Python truthiness, `dict.get` and `v[key]` are defined on it.
- `aws_api.dfy`: `AwsApi`. It holds the requests the handler sends and the answers each service may give.
- `fleet_health.dfy`: `FleetHealth`. This is `check_autoscaling_group`: the loop as an imperative method,
  proved equal to the function `HealthSummary` that the handlers use.
- `ssm.dfy`: `Ssm`. It holds the parameter put, the update-then-create document upsert, and the command dispatch.
- `handler.dfy`: `LambdaHandler`. It holds routing, the three handlers and the top-level response.

Three behaviours of the code are worth noting:

- The scheduled result always reports `ssm_parameter_updated: True`. The success flag of the
  put is discarded.
- The state-change result never carries the dispatched command id.
- The upsert's error result holds only the message, not the document name.

## Model

| member | source | states |
|---|---|---|
| `LambdaHandler.Route` | modules/lambda/lambda_function.py:26-36 | Routing is total. `"Scheduled Event"` goes to the scheduled handler and `"EC2 State Change"` to the state-change handler, each exactly then. Everything else goes to the default handler, including a missing `detail-type`. |
| `LambdaHandler.Handle` | modules/lambda/lambda_function.py:10-49 | An invocation raises exactly when a state-change event's `detail` is present but is not a dictionary, and then raises that handler's error. Otherwise it answers 200 with the fixed message and the reply timestamp. The result kind matches the route, in both directions. For each route, the response carries exactly the routed handler's result, and the invocation sends exactly that handler's requests. |
| `LambdaHandler.HandleScheduledEvent` | modules/lambda/lambda_function.py:51-69 | Reports `ssm_parameter_updated` as true. Carries the fleet summary and the upsert result. Sends the put of the timestamp first, then the inventory read, then the upsert's requests. |
| `LambdaHandler.ScheduledIgnoresParameterPut` | modules/lambda/lambda_function.py:55-69 | The scheduled result does not depend on what the parameter put answered. Its `ssm_parameter_updated` is always true. |
| `LambdaHandler.HandleEc2StateChange` | modules/lambda/lambda_function.py:71-92 | Raises exactly when `detail` is not a dictionary, and then sends nothing. Otherwise it echoes `instance-id` and `state` unchanged, `None` when absent. It sends a request exactly when the id is truthy and the state is `'running'`. That request is the single `SendCommand` to `[instance_id]` with the production parameters. |
| `LambdaHandler.StateChangeIgnoresCommandId` | modules/lambda/lambda_function.py:81-92 | The state-change outcome is the same whatever `send_command` answered, so the command id never reaches the result. |
| `LambdaHandler.NoDispatchUnlessRunning` | modules/lambda/lambda_function.py:78-86 | A state other than `'running'` sends nothing. This includes `'terminated'`. |
| `LambdaHandler.EmptyInstanceIdNoDispatch` | modules/lambda/lambda_function.py:78-83 | A missing or empty instance id counts as absent, so nothing is sent. |
| `LambdaHandler.HandleDefaultEvent` | modules/lambda/lambda_function.py:94-104 | The default result is the fleet summary, read with a single inventory request. |
| `LambdaHandler.InventoryFailureDegrades` | modules/lambda/lambda_function.py:148-150 | When the inventory call fails, scheduled and default events still return a response, and their fleet summary is empty. |
| `LambdaHandler.StoppedInstanceEchoed` | modules/lambda/lambda_function.py:75-92 | `{"instance-id": "i-123", "state": "stopped"}` is echoed back and nothing is sent. |
| `LambdaHandler.RunningInstanceConfigured` | modules/lambda/lambda_function.py:210-222 | `{"instance-id": "i-123", "state": "running"}` sends exactly one command, to `["i-123"]` with `environment = ["production"]`. |
| `LambdaHandler.EmptyDetailTolerated` | modules/lambda/lambda_function.py:75-76 | An empty `detail` is echoed as two `None`s and sends nothing. |
| `Ssm.UpdateSsmParameter` | modules/lambda/lambda_function.py:106-125 | Sends one overwriting put of the timestamp to `/aws-automation/last-execution`. Returns true exactly when the put did not fail. |
| `Ssm.ManageSsmDocument` | modules/lambda/lambda_function.py:185-208 | The requests are exactly one update, followed by one create only when the document did not exist. The result is `updated` exactly when the update succeeds. It is `created` exactly when the document did not exist and create succeeded. It is `error` exactly in the other cases, with the message of the failing call. |
| `Ssm.UpsertConverges` | modules/lambda/lambda_function.py:185-204 | Against a registry that answers consistently, the first upsert succeeds. The next upsert chooses update and sends no create. |
| `Ssm.ConfigureInstanceViaSsm` | modules/lambda/lambda_function.py:210-231 | Sends exactly one command, to `[instance_id]` with `{'environment': ['production']}`. It yields `Command.CommandId` exactly when the send succeeded and the response has that path, and `None` otherwise. |
| `FleetHealth.HealthyInstances` | modules/lambda/lambda_function.py:141 | The healthy-instance filter is no longer than its input and keeps only instances whose `HealthStatus` is `'Healthy'`. |
| `FleetHealth.HealthyInstancesExact` | modules/lambda/lambda_function.py:141 | The filter keeps every healthy instance exactly as often as it occurs and drops every other one. |
| `FleetHealth.HealthyInstancesAppend` | modules/lambda/lambda_function.py:141 | Filtering the concatenation of two instance lists gives the concatenation of their filtered lists. |
| `FleetHealth.HealthyCountIsIndexCount` | modules/lambda/lambda_function.py:141 | The length of the filtered list equals the number of positions holding a healthy instance. |
| `FleetHealth.GroupStatusOf` | modules/lambda/lambda_function.py:135-142 | A group record yields a status exactly when every key it reads is present. The status copies the name and sizes, and `instances` is the length of `Instances`. `healthy_instances` is the number of positions in `Instances` holding an instance whose `HealthStatus` is `'Healthy'`, so it is at most `instances`. |
| `FleetHealth.SummariseGroupsSpec` | modules/lambda/lambda_function.py:133-143 | The loop succeeds exactly when every record is readable. It then yields one status per group, in input order. |
| `FleetHealth.HealthSummaryShape` | modules/lambda/lambda_function.py:131-150 | The summary has one status per group, in order, with `healthy_instances <= instances`. It is the empty list when the call fails, the key is missing or any record is unreadable. |
| `FleetHealth.CheckAutoscalingGroup` | modules/lambda/lambda_function.py:127-150 | The append loop, which drops the partial list on the first failure, returns exactly the health summary. |

## Left out

- Client construction (`boto3.client`) and the requests themselves. Each service's answer is an input to the model, and a failure to construct a client is not modelled.
- Logging. It has no effect on any result.
- The event `source`. It is read only to be logged.
- `json.dumps` of the event, the document content and the response body. The response is kept as the decoded body.
- The document content. It is a constant payload, so the `UpdateDocument` and `CreateDocument` requests omit it.
- The `Comment` text of `send_command`. It is a `str()` rendering of the instance id, and no result depends on it.
- `datetime.utcnow().isoformat()`. The two clock readings are opaque input strings, so their ISO-8601 format is not checked.
- Fractional JSON numbers. Event values are integers, strings, booleans, null, arrays and objects.
- Runtime errors other than a non-dictionary `detail`, such as an unserialisable event or the runtime aborting. The top-level re-raise is modelled only for that error.
- Concurrent invocations racing update against create. The code does no coordination between invocations.
- `Ssm.ConfigureInstanceViaSsm`: returns `Some(null)` for a JSON `null` command id, where Python returns `None`. The value is discarded by its only caller.
- `Ssm.UpsertConverges`: states convergence only for a registry that answers update and create consistently. It takes the handler's `DocumentDoesNotExistException` clause as the service's not-found answer. It also treats a repeated update with unchanged content as a success. The real service's behaviour in these respects is not modelled.
- The Terratest integration tests in `tests/terraform_test.go`. They apply real infrastructure and check output strings.
