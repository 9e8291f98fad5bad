/**
 * `handle.rs`: the thread-transferable handle that schedules closures onto the
 * window thread, gated by the container's liveness token.  Threads and the
 * token's read guard are sequentialised: a dispatch is one atomic step.
 */
module Handles {
  import opened Errors
  import opened Closures
  import opened Ffi
  import opened Container

  /** What `dispatch` returns: it depends only on whether the token could be upgraded. */
  function DispatchOutcome(alive: bool): (r: WVResult)
    ensures r.Ok? <==> alive
    ensures r.Err? ==> r.error == Dispatch
  {
    if alive then Ok(()) else Err(Dispatch)
  }

  class Handle<T> {
    /** The raw, non-owning pointer to the native window. */
    const internal: Engine
    /** The weak reference: reading it never keeps the token alive. */
    const live: Token

    /** `new`: downgrades the token it is given; neither the token nor the engine changes. */
    constructor (internal: Engine, live: Token)
      ensures this.internal == internal && this.live == live
    {
      this.internal := internal;
      this.live := live;
    }

    /**
     * The handle may be used: while its token is alive, the native window
     * has not been exited.  The window establishes this for every handle it
     * gives out and keeps it until its token dies.
     */
    predicate Linked()
      reads live, internal
    {
      live.alive ==> !internal.exited
    }

    /**
     * `dispatch`: fails with `Dispatch` and schedules nothing once the
     * container is gone; otherwise schedules exactly this one closure and
     * returns `Ok`, whatever the closure's own result will be.  The token
     * is only read.
     */
    method Dispatch(task: Task) returns (r: WVResult)
      requires Linked()
      modifies internal`pending, internal`history
      ensures r == DispatchOutcome(live.alive)
      ensures r.Ok? ==> internal.pending == old(internal.pending) + [[Dispatched(task)]]
      ensures r.Ok? ==> internal.history == old(internal.history) + [CallDispatch]
      ensures r.Err? ==> internal.pending == old(internal.pending) && internal.history == old(internal.history)
    {
      if !live.alive {
        return Err(Error.Dispatch);
      }
      internal.Schedule(task);
      r := Ok(());
    }
  }
}
