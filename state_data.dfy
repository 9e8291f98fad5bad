/**
 * `state_data.rs` (`WebViewStateData`; `UserData` in the older copy): the
 * container whose address the engine carries in `WebViewFFI::userdata`.  It
 * owns the liveness token, the shared payload cell, the invoke handler and the
 * single-slot result mailbox the callbacks write and `step` drains.
 */
module Container {
  import opened Errors
  import opened Closures

  /**
   * The liveness token `Arc<RwLock<()>>`.  The container holds the only
   * lasting strong reference, and handles only weak ones, so the token is
   * alive exactly as long as the container.
   */
  class Token {
    var alive: bool

    constructor ()
      ensures alive
    {
      alive := true;
    }
  }

  /** The shared payload `Arc<RwLock<T>>`; every clone designates this one cell. */
  class Cell<T> {
    var value: T

    constructor (value: T)
      ensures this.value == value
    {
      this.value := value;
    }

    /** A read guard's view of the payload. */
    method Read() returns (v: T)
      ensures v == value
    {
      v := value;
    }

    /** A write through a write guard. */
    method Write(v: T)
      modifies this
      ensures value == v
    {
      value := v;
    }
  }

  class StateData<T> {
    const live: Token
    const internal: Cell<T>
    const invokeHandler: Handler
    /** The mailbox: the outcome of the last callback that `step` has not drained yet. */
    var result: Option<WVResult>

    /** `new`: a fresh token and a fresh payload cell, and an empty mailbox. */
    constructor (data: T, invokeHandler: Handler)
      ensures fresh(live) && live.alive
      ensures fresh(internal) && internal.value == data
      ensures this.invokeHandler == invokeHandler && result == None
    {
      live := new Token();
      internal := new Cell(data);
      this.invokeHandler := invokeHandler;
      result := None;
    }

    /** `user_data`: a clone of the `Arc`, that is, the same shared cell every time. */
    method UserData() returns (c: Cell<T>)
      ensures c == internal
    {
      c := internal;
    }

    /** `live_lock`: a clone of the container's own token. */
    method LiveLock() returns (t: Token)
      ensures t == live
    {
      t := live;
    }

    /** `result.take()`. */
    method Take() returns (r: Option<WVResult>)
      modifies this`result
      ensures r == old(result) && result == None
    {
      r := result;
      result := None;
    }

    /** Dropping the container releases its strong reference, and with it the token. */
    method Release()
      modifies live`alive
      ensures !live.alive
    {
      live.alive := false;
    }
  }
}
