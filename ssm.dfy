/** The three Systems Manager primitives of the handler: publishing the last-run
    timestamp, the update-then-create upsert of the command document, and sending
    that document to one instance. Each catches its own errors. */
module Ssm {
  import opened Wrappers
  import opened JsonValue
  import opened AwsApi

  const ParameterName := "/aws-automation/last-execution"
  const ParameterDescription := "Last execution timestamp of automation lambda"
  const DocumentName := "AWS-Automation-ConfigureInstance"
  const LatestVersion := "$LATEST"

  /** `update_ssm_parameter`: one overwriting put of the timestamp `now`; `True` exactly
      when the put did not raise. */
  function UpdateSsmParameter(now: string, put: PutOutcome): (out: Traced<bool>)
    ensures out.calls == [PutParameter(ParameterName, now, "String", true, ParameterDescription)]
    ensures out.value <==> put.PutOk?
  {
    Traced(put.PutOk?, [PutParameter(ParameterName, now, "String", true, ParameterDescription)])
  }

  /** The dictionary `manage_ssm_document` returns. */
  datatype DocumentResult = Updated(document: string) | Created(document: string) | Failed(message: string)

  /** `manage_ssm_document`: try `update_document`; on DocumentDoesNotExistException call
      `create_document`; fold every other error, including a failing create, into an
      error result. `create` is the answer create would give if it were called. */
  function ManageSsmDocument(update: UpdateOutcome, create: CreateOutcome): (out: Traced<DocumentResult>)
    ensures out.calls == [UpdateDocument(DocumentName, LatestVersion)] +
      (if update.DocumentDoesNotExist? then [CreateDocument(DocumentName, "Command", "JSON")] else [])
    ensures out.value == Updated(DocumentName) <==> update.UpdateOk?
    ensures out.value == Created(DocumentName) <==> update.DocumentDoesNotExist? && create.CreateOk?
    ensures out.value.Failed? <==> update.UpdateFailed? || (update.DocumentDoesNotExist? && create.CreateFailed?)
    ensures out.value.Failed? ==>
      out.value.message == if update.UpdateFailed? then update.message else create.message
  {
    var tried := [UpdateDocument(DocumentName, LatestVersion)];
    match update
    case UpdateOk => Traced(Updated(DocumentName), tried)
    case UpdateFailed(message) => Traced(Failed(message), tried)
    case DocumentDoesNotExist =>
      var calls := tried + [CreateDocument(DocumentName, "Command", "JSON")];
      match create
      case CreateOk => Traced(Created(DocumentName), calls)
      case CreateFailed(message) => Traced(Failed(message), calls)
  }

  /** A document registry holding the names of the documents that exist; it answers
      update with DocumentDoesNotExist for an absent name and accepts create of it. */
  datatype Registry = Registry(documents: set<string>)

  function UpdateAnswer(reg: Registry): UpdateOutcome
  {
    if DocumentName in reg.documents then UpdateOk else DocumentDoesNotExist
  }

  function CreateAnswer(reg: Registry): CreateOutcome
  {
    if DocumentName in reg.documents then CreateFailed("DocumentAlreadyExists") else CreateOk
  }

  /** The registry after the requests of one upsert that succeeded. */
  function RegistryAfter(reg: Registry, result: DocumentResult): Registry
  {
    if result.Failed? then reg else Registry(reg.documents + {DocumentName})
  }

  /** Update-then-create converges: against a registry that answers consistently, the
      first upsert succeeds, and the next one updates and never tries to create again. */
  lemma UpsertConverges(reg: Registry)
    ensures ManageSsmDocument(UpdateAnswer(reg), CreateAnswer(reg)).value.document == DocumentName
    ensures var reg' := RegistryAfter(reg, ManageSsmDocument(UpdateAnswer(reg), CreateAnswer(reg)).value);
      var second := ManageSsmDocument(UpdateAnswer(reg'), CreateAnswer(reg'));
      && second.value == Updated(DocumentName)
      && second.calls == [UpdateDocument(DocumentName, LatestVersion)]
  {
  }

  /** The parameters every dispatched command carries. */
  const ProductionParameters: map<string, seq<string>> := map["environment" := ["production"]]

  /** `response['Command']['CommandId']`, or `None` when either subscript raises. */
  function CommandIdOf(response: Json): Option<Json>
  {
    match Subscript(response, "Command")
    case None => None
    case Some(command) => Subscript(command, "CommandId")
  }

  /** `configure_instance_via_ssm`: one `send_command` of the document to exactly
      `[instance_id]` with the production environment; the command id on success,
      `None` on any failure. */
  function ConfigureInstanceViaSsm(instanceId: Json, send: SendOutcome): (out: Traced<Option<Json>>)
    ensures out.calls == [SendCommand([instanceId], DocumentName, ProductionParameters)]
    ensures out.value.Some? <==>
      && send.Sent?
      && send.response.JObj? && "Command" in send.response.fields
      && send.response.fields["Command"].JObj? && "CommandId" in send.response.fields["Command"].fields
    ensures out.value.Some? ==> out.value.value == send.response.fields["Command"].fields["CommandId"]
  {
    var calls := [SendCommand([instanceId], DocumentName, ProductionParameters)];
    match send
    case SendFailed(_) => Traced(None, calls)
    case Sent(response) => Traced(CommandIdOf(response), calls)
  }
}
