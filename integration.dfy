/** Stateless integration endpoints: GBFS ingestion and CRM repair-ticket
    linking. Both only check the request body and answer; nothing is
    stored and no outside system is called. */
module Integration {
  import opened Json
  import opened Http

  const TicketFields: seq<string> := ["ticket_id", "customer_id", "issue_description"]

  /** The body is accepted when it is a non-empty object with a `gbfs_data`
      key; the value under that key is never looked at. */
  function IngestGbfsData(data: Value): (r: Response)
    ensures r.status == 200 <==> IsNonEmptyObject(data) && "gbfs_data" in data.fields
    ensures r.status != 200 ==> r == Fail(400, "Invalid or missing GBFS data")
    ensures r.status == 200 ==> r == Done(200, "GBFS data received and processed")
  {
    TruthyObject(data);
    if !Truthy(data) || !data.Obj? || "gbfs_data" !in data.fields then Fail(400, "Invalid or missing GBFS data")
    else Done(200, "GBFS data received and processed")
  }

  /** Whatever is stored under `gbfs_data`, the answer is the same. */
  lemma GbfsPayloadIgnored(data: map<string, Value>, a: Value, b: Value)
    ensures IngestGbfsData(Obj(data["gbfs_data" := a])) == IngestGbfsData(Obj(data["gbfs_data" := b]))
  {
  }

  /** `f"CRM-{data['ticket_id']}"` */
  function CrmReference(ticketId: Value): (s: string)
    ensures |s| >= 4 && s[..4] == "CRM-"
    ensures ticketId.Str? ==> s == "CRM-" + ticketId.s
  {
    "CRM-" + PyStr(ticketId)
  }

  function ConnectRepairTicket(data: Value): (r: Response)
    ensures !IsNonEmptyObject(data) ==> r == Fail(400, "Invalid request data")
    ensures IsNonEmptyObject(data) && !HasAll(data.fields, TicketFields) ==> r == Fail(400, "Missing required fields")
    ensures r.status == 200 <==> IsNonEmptyObject(data) && HasAll(data.fields, TicketFields)
    ensures r.status != 200 ==> r.status == 400
    ensures r.status == 200 ==>
      && r.body.Obj?
      && r.body.fields.Keys == {"ticket_id", "customer_id", "issue_description", "status", "crm_reference"}
      && (forall k :: k in TicketFields ==> r.body.fields[k] == data.fields[k])
      && r.body.fields["status"] == Str("Connected to CRM")
      && r.body.fields["crm_reference"] == Str(CrmReference(data.fields["ticket_id"]))
  {
    TruthyObject(data);
    if !Truthy(data) || !data.Obj? then Fail(400, "Invalid request data")
    else
      var m := data.fields;
      if !HasAll(m, TicketFields) then Fail(400, "Missing required fields")
      else
        Response(200, Obj(map[
          "ticket_id" := m["ticket_id"],
          "customer_id" := m["customer_id"],
          "issue_description" := m["issue_description"],
          "status" := Str("Connected to CRM"),
          "crm_reference" := Str(CrmReference(m["ticket_id"]))]))
  }

  /** Sending the CRM answer back as a request is accepted and yields the
      same answer: the extra keys are ignored and the reference is rebuilt
      from the same ticket id. */
  lemma CrmEchoStable(data: Value)
    requires ConnectRepairTicket(data).status == 200
    ensures ConnectRepairTicket(ConnectRepairTicket(data).body) == ConnectRepairTicket(data)
  {
    var echoed := ConnectRepairTicket(data).body;
    assert "ticket_id" in echoed.fields;
    assert HasAll(echoed.fields, TicketFields);
  }
}
