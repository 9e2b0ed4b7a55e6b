/** What the sync client talks to: the remote Odoo endpoint (behind the HTTP
    session) and the local database. Both are abstract. Every request sent
    and every local write attempted is appended to one event log, so the
    order of side effects is observable; what the endpoint answers and
    whether the database refuses a write are fixed functions of the log so
    far. */
module Environment {

  import opened Values

  /** An HTTP request: verb as passed to `requests`, URL, and JSON body. */
  datatype Request = Request(verb: string, url: string, body: Json)

  /** What `response.raise_for_status(); response.json()` yields: a failure
      (no connection, non-2xx status, undecodable body) or a decoded body. */
  datatype Reply = Failed(reason: string) | Decoded(body: Json)

  /** The persisted fields of a StapModel row. */
  datatype Row = Row(name: string, odooId: Option<int>)

  /** A local persistence operation: `obj.save()`, `obj.save(update_fields=...)`, `obj.delete()`. */
  datatype StoreOp = Save(row: Row) | SaveFields(fields: seq<string>, row: Row) | Delete(row: Row)

  datatype Event = Sent(request: Request) | Stored(op: StoreOp)

  class World {
    var events: seq<Event>
    const answer: (seq<Event>, Request) -> Reply
    const rejects: (seq<Event>, StoreOp) -> bool

    constructor (answer: (seq<Event>, Request) -> Reply, rejects: (seq<Event>, StoreOp) -> bool)
      ensures events == [] && this.answer == answer && this.rejects == rejects
    {
      events := [];
      this.answer := answer;
      this.rejects := rejects;
    }

    /** Send one request over the session and wait for its reply. */
    method Send(request: Request) returns (reply: Reply)
      modifies this`events
      ensures events == old(events) + [Sent(request)]
      ensures reply == answer(old(events), request)
    {
      reply := answer(events, request);
      events := events + [Sent(request)];
    }

    /** Attempt one local write; `ok` is false when the database refuses it. */
    method Store(op: StoreOp) returns (ok: bool)
      modifies this`events
      ensures events == old(events) + [Stored(op)]
      ensures ok == !rejects(old(events), op)
    {
      ok := !rejects(events, op);
      events := events + [Stored(op)];
    }
  }
}
