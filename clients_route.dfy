/** `POST /api/clients`: validate the client name, create the client with
    the trimmed name, record an audit CREATE, answer 201; a missing or blank
    name is a 400 and any thrown error a 500. */
module ClientsRoute {
  import opened JsValue
  import Audit
  import opened Store
  import opened Http

  const NameRequired := "Client name is required"
  const CreateFailed := "Failed to create client"

  /** The request body: only its `name` property is read. */
  datatype ClientRequest = ClientRequest(name: Value)

  /** The guard `!name || typeof name !== "string" || name.trim() === ""`,
      negated: a name is accepted exactly when it is a string holding a
      character that is not white space. */
  predicate ValidName(name: Value)
    ensures ValidName(name) <==> name.Str? && exists k :: 0 <= k < |name.s| && !IsWhiteSpace(name.s[k])
  {
    Truthy(name) && name.Str? && Trim(name.s) != ""
  }

  method Post(db: Database, request: RequestBody<ClientRequest>) returns (resp: Response)
    requires db.Valid()
    modifies db, db.auditLog
    ensures db.Valid()
    ensures db.invoices == old(db.invoices) && db.allocations == old(db.allocations)
    ensures resp.status in {201, 400, 500}
    ensures request.Unparsable? ==> resp == Response(500, Message(CreateFailed))
    ensures resp.status == 400 <==> request.Json? && !ValidName(request.value.name)
    ensures resp.status == 400 ==> resp.body == Message(NameRequired)
    ensures resp.status == 500 ==> resp.body == Message(CreateFailed)
    ensures resp.status != 201 ==>
      db.clients == old(db.clients) && db.auditLog.records == old(db.auditLog.records)
    ensures resp.status == 201 ==>
      && request.Json? && ValidName(request.value.name)
      && resp.body.ClientJson?
      && var client := resp.body.client;
      && client.name == Trim(request.value.name.s)
      && db.clients == old(db.clients) + [client]
      && (forall c :: c in old(db.clients) ==> c.id != client.id)
      && (|| db.auditLog.records == old(db.auditLog.records) + [Audit.AuditRecord(Audit.Client, client.id, Audit.CREATE, None, None, None)]
          || db.auditLog.records == old(db.auditLog.records))
  {
    if request.Unparsable? {
      return Response(500, Message(CreateFailed));
    }
    var name := request.value.name;
    if !Truthy(name) || !name.Str? || Trim(name.s) == "" {
      return Response(400, Message(NameRequired));
    }
    var created := db.CreateClient(Trim(name.s));
    if created.Err? {
      return Response(500, Message(CreateFailed));
    }
    var client := created.value;
    Audit.LogAudit(db.auditLog, Audit.Client, client.id, Audit.CREATE, None, None, None);
    resp := Response(201, ClientJson(client));
  }
}
