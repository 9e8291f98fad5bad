/**
 * The controller half of `lib.rs`: `WebView`, which owns the `WebViewFFI`
 * record handed to the engine and, through its `userdata`, the state
 * container; `build`, which allocates both; the step and run loop; the two
 * callbacks the engine calls; the forwarding operations; and `Drop`.
 *
 * The loop is proved against `EventLoop`, teardown against `Lifetime`.
 */
module Controller {
  import opened Errors
  import opened Closures
  import opened Ffi
  import opened Container
  import Handles
  import opened Builder
  import opened EventLoop
  import opened Lifetime
  import Dialogs

  /** `eval`: a NUL fails before the engine is called; then status 0 is success and anything else `JsEvaluation`. */
  function EvalOutcome(js: Text, status: int): (r: WVResult)
    ensures r == Ok(()) <==> !HasNul(js) && status == 0
    ensures r == Err(NulByte) <==> HasNul(js)
    ensures r == Err(JsEvaluation) <==> !HasNul(js) && status != 0
  {
    match CStringNew(js)
    case Err(e) => Err(e)
    case Ok(_) => if status == 0 then Ok(()) else Err(JsEvaluation)
  }

  /** `inject_css`: as `eval`, with `CssInjection`. */
  function CssOutcome(css: Text, status: int): (r: WVResult)
    ensures r == Ok(()) <==> !HasNul(css) && status == 0
    ensures r == Err(NulByte) <==> HasNul(css)
    ensures r == Err(CssInjection) <==> !HasNul(css) && status != 0
  {
    match CStringNew(css)
    case Err(e) => Err(e)
    case Ok(_) => if status == 0 then Ok(()) else Err(CssInjection)
  }

  /** `set_title`: fails only on a NUL; the engine reports nothing. */
  function SetTitleOutcome(title: Text): (r: WVResult)
    ensures r.Ok? <==> !HasNul(title)
    ensures r.Err? ==> r.error == NulByte
  {
    match CStringNew(title)
    case Err(e) => Err(e)
    case Ok(_) => Ok(())
  }

  class WebView<T> {
    /** The native window behind `internal`. */
    const engine: Engine
    /** The boxed `WebViewFFI`; its `userdata` is the boxed state container. */
    const internal: Record<StateData<T>>
    /** `Drop` has run. */
    var dropped: bool

    function Data(): StateData<T> {
      internal.userdata
    }

    /** A live window: not dropped, its container's token alive, the native window not exited. */
    ghost predicate Valid()
      reads this`dropped, engine`exited, Data().live`alive
    {
      !dropped && Data().live.alive && !engine.exited
    }

    /** The part of the state the loop's specification speaks about. */
    function LoopState(): Machine
      reads engine`closed, engine`pending, Data()`result
    {
      Machine(engine.closed, engine.pending, Data().result)
    }

    /** `from_ptr` on a fresh `Box::into_raw`: the one owner of the records. */
    constructor (engine: Engine, internal: Record<StateData<T>>)
      ensures this.engine == engine && this.internal == internal && !dropped
    {
      this.engine := engine;
      this.internal := internal;
      dropped := false;
    }

    /** `ffi_dispatch_handler`: runs the closure and overwrites the slot with its result. */
    method DispatchHandler(task: Task)
      requires Valid()
      modifies engine`closed, Data()`result
      ensures Data().result == Some(task.result)
      ensures engine.closed == (old(engine.closed) || task.terminates)
    {
      if task.terminates {
        Terminate();
      }
      Data().result := Some(task.result);
    }

    /** `ffi_invoke_handler`: runs the invoke handler on the message and overwrites the slot with its result. */
    method InvokeHandler(arg: Text)
      requires Valid()
      modifies engine`closed, Data()`result
      ensures Data().result == Some(Data().invokeHandler(arg).result)
      ensures engine.closed == (old(engine.closed) || Data().invokeHandler(arg).terminates)
    {
      var task := Data().invokeHandler(arg);
      if task.terminates {
        Terminate();
      }
      Data().result := Some(task.result);
    }

    /** `webview_loop(self.internal, 1)`, with the engine handing each callback of the iteration to its entry point. */
    method Loop() returns (code: int)
      requires Valid()
      modifies engine`closed, engine`pending, Data()`result
      ensures (code, LoopState()) == LoopSpec(old(LoopState()), Data().invokeHandler)
    {
      ghost var slot := Data().result;
      var events, open := engine.NextIteration();
      if !open {
        return 1;
      }
      var i := 0;
      while i < |events|
        invariant 0 <= i <= |events|
        invariant engine.pending == old(engine.pending)[1..]
        invariant (Data().result, engine.closed) == Deliver(events[..i], slot, false, Data().invokeHandler)
      {
        assert events[..i + 1][..i] == events[..i];
        match events[i] {
          case Dispatched(task) => DispatchHandler(task);
          case Invoke(arg) => InvokeHandler(arg);
        }
        i := i + 1;
      }
      assert events[..i] == events;
      code := if engine.closed then 1 else 0;
    }

    /** `step`. */
    method Step() returns (o: Option<WVResult>)
      requires Valid()
      modifies engine`closed, engine`pending, Data()`result
      ensures (o, LoopState()) == StepSpec(old(LoopState()), Data().invokeHandler)
    {
      var code := Loop();
      if code == 0 {
        var r := Data().Take();
        o := Some(match r case Some(v) => v case None => Ok(()));
      } else {
        o := None;
      }
    }

    /** `run`, which consumes the window and so ends by dropping it. */
    method Run() returns (r: WVResult)
      requires Valid()
      modifies this`dropped, engine, Data()`result, Data().live`alive
      ensures r == RunSpec(old(LoopState()), Data().invokeHandler)
      ensures dropped && engine.exited && !Data().live.alive
      ensures engine.history == old(engine.history) + Teardown()
    {
      ghost var h := Data().invokeHandler;
      ghost var start := LoopState();
      r := Ok(());
      while true
        invariant Valid()
        invariant RunSpec(LoopState(), h) == RunSpec(start, h)
        invariant engine.history == old(engine.history)
        decreases Measure(LoopState())
      {
        var o := Step();
        if o.None? {
          break;
        }
        if o.value.Err? {
          r := o.value;
          break;
        }
      }
      Drop();
    }

    /** `terminate`: raises the flag; calling it again changes nothing more. */
    method Terminate()
      requires Valid()
      modifies engine`closed
      ensures engine.closed
    {
      engine.Terminate();
    }

    method Eval(js: Text) returns (r: WVResult)
      requires Valid()
      modifies engine`history
      ensures r == EvalOutcome(js, engine.evalStatus)
      ensures engine.history == if HasNul(js) then old(engine.history) else old(engine.history) + [CallEval(js)]
    {
      var c := CStringNew(js);
      if c.Err? {
        return Err(c.error);
      }
      var status := engine.Eval(c.value);
      r := if status == 0 then Ok(()) else Err(JsEvaluation);
    }

    method InjectCss(css: Text) returns (r: WVResult)
      requires Valid()
      modifies engine`history
      ensures r == CssOutcome(css, engine.cssStatus)
      ensures engine.history == if HasNul(css) then old(engine.history) else old(engine.history) + [CallInjectCss(css)]
    {
      var c := CStringNew(css);
      if c.Err? {
        return Err(c.error);
      }
      var status := engine.InjectCss(c.value);
      r := if status == 0 then Ok(()) else Err(CssInjection);
    }

    method SetTitle(title: Text) returns (r: WVResult)
      requires Valid()
      modifies engine`history
      ensures r == SetTitleOutcome(title)
      ensures engine.history == if HasNul(title) then old(engine.history) else old(engine.history) + [CallSetTitle(title)]
    {
      var c := CStringNew(title);
      if c.Err? {
        return Err(c.error);
      }
      engine.SetTitle(c.value);
      r := Ok(());
    }

    method SetFullscreen(fullscreen: bool)
      requires Valid()
      modifies engine`history
      ensures engine.history == old(engine.history) + [CallSetFullscreen(BoolAsInt(fullscreen))]
    {
      engine.SetFullscreen(BoolAsInt(fullscreen));
    }

    /**
     * `dialog`: a dialog builder bound to this window's native handle and,
     * in the corrected builder, to its liveness token.
     */
    method Dialog() returns (d: Dialogs.DialogBuilder)
      requires Valid()
      ensures fresh(d) && d.ffi == engine && d.live == Data().live && d.Linked()
    {
      var live := Data().LiveLock();
      d := new Dialogs.DialogBuilder(engine, live);
    }

    /** `user_data`: the shared payload cell, the same one on every call. */
    method UserData() returns (c: Cell<T>)
      requires Valid()
      ensures c == Data().internal
    {
      c := Data().UserData();
    }

    /**
     * `handle`: a new handle on this window's engine and token.  Creating it
     * changes neither, so it does not extend the token's life.
     */
    method Handle() returns (h: Handles.Handle<T>)
      requires Valid()
      ensures fresh(h) && h.internal == engine && h.live == Data().live && h.Linked()
    {
      var live := Data().LiveLock();
      h := new Handles.Handle(engine, live);
    }

    /**
     * `Drop`, corrected: exit the native window, then give back the state
     * container, which kills the token, then the record, each destroyed and
     * deallocated.  Every handle and dialog builder is left unable to reach
     * the exited window.
     */
    method Drop()
      requires Valid()
      modifies this`dropped, engine`exited, engine`history, Data().live`alive
      ensures dropped && engine.exited && !Data().live.alive
      ensures engine.history == old(engine.history) + Teardown()
    {
      engine.Exit();
      Data().Release();
      LogRelease(engine);
      dropped := true;
    }

    /**
     * `Drop` as written: `drop_in_place` runs the container's destructor,
     * which kills the token, and the record's, but frees neither block.
     */
    method DropAsWritten()
      requires Valid()
      modifies this`dropped, engine`exited, engine`history, Data().live`alive
      ensures dropped && engine.exited && !Data().live.alive
      ensures engine.history == old(engine.history) + TeardownAsWritten()
    {
      engine.Exit();
      Data().Release();
      engine.Log(DropState);
      engine.Log(DropRecord);
      dropped := true;
    }
  }

  /** Logs the release of both records through `Box::from_raw`, as `Lifetime.Release` lists it. */
  method LogRelease(engine: Engine)
    modifies engine`history
    ensures engine.history == old(engine.history) + Release()
  {
    engine.Log(DropState);
    engine.Log(FreeState);
    engine.Log(DropRecord);
    engine.Log(FreeRecord);
  }

  /**
   * `WebView::new`, corrected: native initialisation decides, and on failure
   * both records are released again before the error is returned.
   */
  method New<T>(internal: Record<StateData<T>>, engine: Engine) returns (r: Result<WebView<T>>)
    requires !engine.exited && internal.userdata.live.alive
    modifies engine`history, internal.userdata.live`alive
    ensures r.Ok? <==> engine.initStatus == 0
    ensures r.Err? ==> r.error == Initialization && !internal.userdata.live.alive
    ensures engine.history == old(engine.history) + [AllocRecord, CallInit(engine.initStatus)]
                              + if engine.initStatus == 0 then [] else Release()
    ensures r.Ok? ==> fresh(r.value) && r.value.engine == engine && r.value.internal == internal && r.value.Valid()
  {
    engine.Log(AllocRecord);
    var status := engine.Init();
    if status == 0 {
      var w := new WebView(engine, internal);
      r := Ok(w);
    } else {
      internal.userdata.Release();
      LogRelease(engine);
      r := Err(Initialization);
    }
  }

  /**
   * `WebView::new` as written: on failure the error is returned and the two
   * records are abandoned, so the container's token stays alive.
   */
  method NewAsWritten<T>(internal: Record<StateData<T>>, engine: Engine) returns (r: Result<WebView<T>>)
    requires !engine.exited && internal.userdata.live.alive
    modifies engine`history
    ensures r.Ok? <==> engine.initStatus == 0
    ensures r.Err? ==> r.error == Initialization && internal.userdata.live.alive
    ensures engine.history == old(engine.history) + [AllocRecord, CallInit(engine.initStatus)]
    ensures r.Ok? ==> fresh(r.value) && r.value.engine == engine && r.value.internal == internal && r.value.Valid()
  {
    engine.Log(AllocRecord);
    var status := engine.Init();
    if status == 0 {
      var w := new WebView(engine, internal);
      r := Ok(w);
    } else {
      r := Err(Initialization);
    }
  }

  /**
   * `build`: the checks of `Builder.Validate`, then the boxed state container,
   * the `WebViewFFI` record and native initialisation.  `encode` stands for
   * `urlencoding::encode`; `privateSize` for `size_of::<webview_priv>()`.
   */
  method Build<T>(b: WebViewBuilder<T>, encode: Text -> Text, engine: Engine, privateSize: nat)
      returns (r: Result<WebView<T>>)
    requires !engine.exited
    modifies engine`history
    ensures Validate(b, encode).Err? ==> r == Err(Validate(b, encode).error) && engine.history == old(engine.history)
    ensures Validate(b, encode).Ok? ==> engine.history == old(engine.history) + BuildLog(engine.initStatus)
    ensures Validate(b, encode).Ok? ==> (r.Ok? <==> engine.initStatus == 0)
    ensures Validate(b, encode).Ok? && r.Err? ==> r.error == Initialization
    ensures r.Ok? ==>
              var w, c := r.value, Validate(b, encode).value;
              && fresh(w) && fresh(w.Data()) && fresh(w.Data().live) && fresh(w.Data().internal)
              && w.Valid() && w.engine == engine
              && w.internal == Ffi.New(c.url, c.title, c.width, c.height, c.resizable, c.debug,
                                       FfiInvokeHandler, w.Data(), privateSize)
              && w.Data().result == None && w.Data().internal.value == c.userData
              && w.Data().invokeHandler == c.invokeHandler
  {
    var v := Validate(b, encode);
    if v.Err? {
      return Err(v.error);
    }
    var c := v.value;
    var data := new StateData(c.userData, c.invokeHandler);
    engine.Log(AllocState);
    var record := Ffi.New(c.url, c.title, c.width, c.height, c.resizable, c.debug,
                          FfiInvokeHandler, data, privateSize);
    r := New(record, engine);
  }
}
