/**
 * `webview_ffi.rs` of the `webview-sys` crate: the `WebViewFFI` record the
 * crate hands to the native engine, and the engine itself as an abstract
 * object.
 *
 * The engine's extern functions are not part of this model; `Engine` stands
 * for them.  It keeps a flag for "terminated or closed", the queue of events
 * its future loop iterations will deliver, a log of what crossed the native
 * boundary, and the status codes it answers with, which the model leaves
 * uninterpreted.
 */
module Ffi {
  import opened Errors
  import opened Closures
  import opened Sys

  /** `c_int` / `i32`. */
  newtype i32 = x: int | -0x8000_0000 <= x < 0x8000_0000

  /** `bool as i32`. */
  function BoolAsInt(b: bool): (n: i32)
    ensures n == 0 || n == 1
    ensures n == 1 <==> b
  {
    if b then 1 else 0
  }

  /** The only invoke callback the crate ever installs: `ffi_invoke_handler::<T>`. */
  datatype InvokeFn = FfiInvokeHandler

  /**
   * `WebViewFFI`.  `url` and `title` stand for the NUL-terminated strings the
   * pointers designate; `userdata` is the state container the engine passes
   * back to the callbacks.
   */
  datatype Record<U> = Record(
    url: Text,
    title: Text,
    width: i32,
    height: i32,
    resizable: i32,
    debug: i32,
    externalInvokeCb: Option<InvokeFn>,
    private: seq<byte>,
    userdata: U)

  /**
   * `WebViewFFI::new`.  `privateSize` is `size_of::<webview_priv>()`, which
   * depends on the platform.
   */
  function New<U>(url: Text, title: Text, width: i32, height: i32, resizable: bool, debug: bool,
                  invokeFn: InvokeFn, userdata: U, privateSize: nat): (r: Record<U>)
    ensures r.url == url && r.title == title && r.userdata == userdata
    ensures r.width == width && r.height == height
    ensures (r.resizable != 0) == resizable && (r.debug != 0) == debug
    ensures r.resizable in {0, 1} && r.debug in {0, 1}
    ensures r.externalInvokeCb.Some?
    ensures |r.private| == privateSize && forall i :: 0 <= i < |r.private| ==> r.private[i] == 0
  {
    Record(url, title, width, height, BoolAsInt(resizable), BoolAsInt(debug),
           Some(invokeFn), seq(privateSize, _ => 0), userdata)
  }

  /** What a native loop iteration hands to the crate's two callback entry points. */
  datatype Event =
    | Dispatched(task: Task)   // a closure scheduled by `webview_dispatch`, run by `ffi_dispatch_handler`
    | Invoke(arg: Text)        // a message from the page, passed to `ffi_invoke_handler`

  /** The callbacks one native loop iteration delivers, in order. */
  type Iteration = seq<Event>

  /**
   * What the log records: the extern calls that take a string, report a
   * status or end the window (`webview_loop` and `webview_terminate` leave no
   * entry), and the allocation, destruction and deallocation of the two boxed
   * records whose addresses the engine holds.
   */
  datatype Action =
    | CallInit(status: int)
    | CallExit
    | CallDispatch
    | CallEval(js: Text)
    | CallInjectCss(css: Text)
    | CallSetTitle(title: Text)
    | CallSetFullscreen(fullscreen: i32)
    | CallDialog(kind: DialogType, flags: DialogFlags, title: Text, arg: Text)
    | AllocState    // `Box::new` of the state container
    | AllocRecord   // `Box::new` of the `WebViewFFI` record
    | DropState     // the container's destructor runs
    | DropRecord    // the record's destructor runs
    | FreeState     // the container's heap block is returned
    | FreeRecord    // the record's heap block is returned

  /** The buffer after the engine copied its reply into the front of it, as far as it fits. */
  function Filled(buf: seq<byte>, reply: Text): (r: seq<byte>)
    ensures |r| == |buf|
    ensures forall i :: 0 <= i < |buf| && i < |reply| ==> r[i] == reply[i]
    ensures forall i :: |reply| <= i < |buf| ==> r[i] == buf[i]
  {
    seq(|buf|, i requires 0 <= i < |buf| => if i < |reply| then reply[i] else buf[i])
  }

  /**
   * The native engine.  Every extern function requires that `webview_exit`
   * has not run yet, and those that take a C string require it to be free of
   * NUL bytes: the crate must establish both before it calls.
   */
  class Engine {
    /** `webview_terminate` was called, or the window was closed. */
    var closed: bool
    /** `webview_exit` has run: the native window is gone. */
    var exited: bool
    /** The iterations the native loop will run next, each with the callbacks it delivers. */
    var pending: seq<Iteration>
    /** The log of `Action`s, oldest first. */
    var history: seq<Action>
    const initStatus: int
    const evalStatus: int
    const cssStatus: int
    /** What a dialog writes into the result buffer. */
    const dialogReply: Text

    constructor (pending: seq<Iteration>, initStatus: int, evalStatus: int, cssStatus: int, dialogReply: Text)
      ensures this.pending == pending && !closed && !exited && history == []
      ensures this.initStatus == initStatus && this.evalStatus == evalStatus
      ensures this.cssStatus == cssStatus && this.dialogReply == dialogReply
    {
      this.pending := pending;
      this.initStatus := initStatus;
      this.evalStatus := evalStatus;
      this.cssStatus := cssStatus;
      this.dialogReply := dialogReply;
      closed, exited, history := false, false, [];
    }

    /** Records an action of the crate's own that the engine can observe. */
    method Log(a: Action)
      modifies this`history
      ensures history == old(history) + [a]
    {
      history := history + [a];
    }

    /** `webview_init`. */
    method Init() returns (status: int)
      requires !exited
      modifies this`history
      ensures status == initStatus && history == old(history) + [CallInit(status)]
    {
      status := initStatus;
      history := history + [CallInit(status)];
    }

    /**
     * The engine's side of `webview_loop`: the callbacks of the next
     * iteration, or `open == false` once the window is terminated.  When
     * nothing is left to deliver the user is taken to close the window (a
     * real engine would block until something happens).
     */
    method NextIteration() returns (events: Iteration, open: bool)
      requires !exited
      modifies this`closed, this`pending
      ensures open <==> !old(closed) && old(pending) != []
      ensures open ==> events == old(pending)[0] && pending == old(pending)[1..] && !closed
      ensures !open ==> events == [] && pending == old(pending) && closed
    {
      if closed || pending == [] {
        events, open := [], false;
        closed := true;
      } else {
        events, open := pending[0], true;
        pending := pending[1..];
      }
    }

    /** `webview_terminate`: only raises the flag the loop reports. */
    method Terminate()
      requires !exited
      modifies this`closed
      ensures closed
    {
      closed := true;
    }

    /** `webview_exit`. */
    method Exit()
      requires !exited
      modifies this`exited, this`history
      ensures exited && history == old(history) + [CallExit]
    {
      exited := true;
      history := history + [CallExit];
    }

    /** `webview_dispatch`: the closure is delivered by an iteration of its own, after everything already queued. */
    method Schedule(task: Task)
      requires !exited
      modifies this`pending, this`history
      ensures pending == old(pending) + [[Dispatched(task)]]
      ensures history == old(history) + [CallDispatch]
    {
      pending := pending + [[Dispatched(task)]];
      history := history + [CallDispatch];
    }

    /** `webview_eval`. */
    method Eval(js: Text) returns (status: int)
      requires !exited && !HasNul(js)
      modifies this`history
      ensures status == evalStatus && history == old(history) + [CallEval(js)]
    {
      status := evalStatus;
      history := history + [CallEval(js)];
    }

    /** `webview_inject_css`. */
    method InjectCss(css: Text) returns (status: int)
      requires !exited && !HasNul(css)
      modifies this`history
      ensures status == cssStatus && history == old(history) + [CallInjectCss(css)]
    {
      status := cssStatus;
      history := history + [CallInjectCss(css)];
    }

    /** `webview_set_title`. */
    method SetTitle(title: Text)
      requires !exited && !HasNul(title)
      modifies this`history
      ensures history == old(history) + [CallSetTitle(title)]
    {
      history := history + [CallSetTitle(title)];
    }

    /** `webview_set_fullscreen`. */
    method SetFullscreen(fullscreen: i32)
      requires !exited
      modifies this`history
      ensures history == old(history) + [CallSetFullscreen(fullscreen)]
    {
      history := history + [CallSetFullscreen(fullscreen)];
    }

    /** `webview_dialog`: writes the reply into `result`, never past its end. */
    method Dialog(kind: DialogType, flags: DialogFlags, title: Text, arg: Text, result: array<byte>)
      requires !exited && !HasNul(title) && !HasNul(arg)
      modifies this`history, result
      ensures result[..] == Filled(old(result[..]), dialogReply)
      ensures history == old(history) + [CallDialog(kind, flags, title, arg)]
    {
      var i := 0;
      while i < result.Length && i < |dialogReply|
        invariant 0 <= i <= result.Length && i <= |dialogReply|
        invariant history == old(history)
        invariant forall k :: 0 <= k < i ==> result[k] == dialogReply[k]
        invariant forall k :: i <= k < result.Length ==> result[k] == old(result[k])
      {
        result[i] := dialogReply[i];
        i := i + 1;
      }
      assert result[..] == Filled(old(result[..]), dialogReply);
      history := history + [CallDialog(kind, flags, title, arg)];
    }
  }
}
