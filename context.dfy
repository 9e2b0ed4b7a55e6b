/** The sync-origin marker: a `threading.local()` slot named `sync_source`,
    set and cleared by the `SyncSourceContext` context manager. */
module Context {

  import opened Values

  /** One thread's view of a `threading.local()` holding `sync_source`.
      An attribute never set reads as None, like one set to None. */
  class ThreadLocal {
    var syncSource: Option<string>

    constructor ()
      ensures syncSource == None
    {
      syncSource := None;
    }
  }

  /** `get_current_sync_source()` on the module's `_thread_locals`. */
  function CurrentSyncSource(locals: ThreadLocal): (source: Option<string>)
    reads locals
    ensures source == locals.syncSource
  {
    locals.syncSource
  }

  class SyncSourceContext {
    var source: Option<string>

    /** Only remembers the source: the marker is not touched. */
    constructor (source: Option<string>)
      ensures this.source == source
    {
      this.source := source;
    }

    /** `__enter__`: the marker becomes this context's source. */
    method Enter(locals: ThreadLocal)
      modifies locals
      ensures CurrentSyncSource(locals) == source
    {
      locals.syncSource := source;
    }

    /** `__exit__`: the marker becomes None, not the value it had before
        `__enter__`; the pending exception, if any, is ignored and the
        falsy return value lets it propagate. */
    method Exit(locals: ThreadLocal, pending: Option<Error>) returns (suppress: bool)
      modifies locals
      ensures CurrentSyncSource(locals) == None && !suppress
    {
      locals.syncSource := None;
      suppress := false;
    }
  }

  /** `with SyncSourceContext(source): body`, for a body whose outcome may
      depend on the marker it reads. The body sees `source`, its exception
      is not suppressed, and afterwards the marker is None either way. */
  method WithSyncSource(locals: ThreadLocal, source: Option<string>, body: Option<string> -> Outcome<()>)
    returns (r: Outcome<()>)
    modifies locals
    ensures r == body(source)
    ensures CurrentSyncSource(locals) == None
  {
    var context := new SyncSourceContext(source);
    context.Enter(locals);
    var result := body(CurrentSyncSource(locals));
    var suppress := context.Exit(locals, if result.Raised? then Some(result.error) else None);
    r := if result.Raised? && suppress then Ok(()) else result;
  }

  /** Two nested contexts: leaving the inner one clears the marker instead of
      restoring the outer source. */
  method NestedSyncSources(locals: ThreadLocal, outer: Option<string>, inner: Option<string>)
    returns (duringInner: Option<string>, afterInner: Option<string>)
    modifies locals
    ensures duringInner == inner && afterInner == None
    ensures CurrentSyncSource(locals) == None
  {
    var outerContext := new SyncSourceContext(outer);
    outerContext.Enter(locals);
    var innerContext := new SyncSourceContext(inner);
    innerContext.Enter(locals);
    duringInner := CurrentSyncSource(locals);
    var suppressInner := innerContext.Exit(locals, None);
    afterInner := CurrentSyncSource(locals);
    var suppressOuter := outerContext.Exit(locals, None);
  }
}
