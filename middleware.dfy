/** `SyncContextMiddleware`: marks every request as coming from Odoo while
    the rest of the stack handles it. */
module Middleware {

  import opened Values
  import opened Context

  /** What code running inside the handler can observe of the two markers:
      the middleware's own class-level slot and the one
      `get_current_sync_source()` reads. */
  datatype Markers = Markers(middleware: Option<string>, current: Option<string>)

  const OdooSource := "odoo"

  class SyncContextMiddleware<Req, Resp> {
    /** The next handler; its outcome may depend on the markers it sees. */
    const getResponse: (Req, Markers) -> Outcome<Resp>
    /** The class attribute `_thread_locals`, a `threading.local()` of its own,
        distinct from the context module's. */
    const locals: ThreadLocal

    constructor (getResponse: (Req, Markers) -> Outcome<Resp>, classLocals: ThreadLocal)
      ensures this.getResponse == getResponse && locals == classLocals
    {
      this.getResponse := getResponse;
      locals := classLocals;
    }

    /** `__call__`: set "odoo" whatever the request, run the handler, then
        clear; the clearing is not in a `finally`, so a raising handler
        leaves "odoo" behind. `contextLocals` is the context module's slot. */
    method Call(request: Req, contextLocals: ThreadLocal) returns (r: Outcome<Resp>)
      requires contextLocals != locals
      modifies locals
      ensures r == getResponse(request, Markers(Some(OdooSource), CurrentSyncSource(contextLocals)))
      ensures locals.syncSource == if r.Ok? then None else Some(OdooSource)
    {
      locals.syncSource := Some(OdooSource);
      r := getResponse(request, Markers(locals.syncSource, CurrentSyncSource(contextLocals)));
      if r.Raised? {
        return;  // the exception propagates past the reset
      }
      locals.syncSource := None;
    }
  }
}
