/**
 * Whole-program scenarios stated against the model: two of the crate's own
 * tests (a terminating dispatch from a handle, the shared user data), a
 * window's complete lifetime as the engine's log records it, and a dialog
 * builder kept past its window.
 */
module Scenarios {
  import opened Errors
  import opened Closures
  import opened Ffi
  import opened Contents
  import opened Builder
  import opened EventLoop
  import UrlEncoding
  import Controller
  import Container
  import Lifetime

  /** The builder every scenario starts from: one pixel, a URL, unit data, an invoke handler that does nothing. */
  function DummyBuilder<T>(data: T): (b: WebViewBuilder<T>)
    ensures !HasNul(b.title) && b.content.Some? && b.userData == Some(data) && b.invokeHandler.Some?
    ensures b.content.value.Url? && !HasNul(b.content.value.url)
  {
    LiteralsHaveNoNul();
    AsciiHasNoNul("http://dummy.url");
    Default<T>(false).WithSize(1, 1).WithContent(Url(Ascii("http://dummy.url")))
      .WithUserData(data).WithInvokeHandler(_ => Task(false, Ok(())))
  }

  /**
   * `test_dispatch_terminate`: a dispatched closure that terminates the
   * window ends `run` with `Ok`; once the window is gone, the same handle's
   * dispatch fails with `Error::Dispatch`.
   */
  method DispatchTerminate() returns (built: bool, dispatched: WVResult, run: WVResult, late: WVResult)
    ensures built && dispatched == Ok(()) && run == Ok(()) && late == Err(Error.Dispatch)
  {
    var engine := new Engine([], 0, 0, 0, []);
    var r := Controller.Build(DummyBuilder(()), UrlEncoding.Encode, engine, 0);
    built := r.Ok?;
    if !built {
      return;
    }
    var view := r.value;
    var handle := view.Handle();
    dispatched := handle.Dispatch(Task(true, Ok(())));
    assert view.LoopState().pending[0][0] == Dispatched(Task(true, Ok(())));
    TerminatingIterationEndsRun(view.LoopState(), view.Data().invokeHandler);
    run := view.Run();
    late := handle.Dispatch(Task(false, Ok(())));
  }

  /** `test_user_data`: a value read through `user_data`, then a write, seen by the next read. */
  method UserData() returns (built: bool, first: int, last: int)
    ensures built && first == 15 && last == 17
  {
    var engine := new Engine([], 0, 0, 0, []);
    var r := Controller.Build(DummyBuilder(15), UrlEncoding.Encode, engine, 0);
    built := r.Ok?;
    if !built {
      return;
    }
    var view := r.value;
    var cell := view.UserData();
    first := cell.Read();
    cell := view.UserData();
    cell.Write(17);
    cell := view.UserData();
    last := cell.Read();
  }

  /**
   * A window built on a fresh engine whose `webview_init` reports `status`,
   * then dropped when the build succeeded: the log is exactly
   * `Lifetime.WindowLifetime`, so each record is destroyed and freed once.
   */
  method WindowLife(status: int) returns (built: bool, log: seq<Action>)
    ensures built <==> status == 0
    ensures log == Lifetime.WindowLifetime(status) && Lifetime.Reclaimed(log)
  {
    var engine := new Engine([], status, 0, 0, []);
    var r := Controller.Build(DummyBuilder(()), UrlEncoding.Encode, engine, 0);
    built := r.Ok?;
    if built {
      r.value.Drop();
    }
    log := engine.history;
    Lifetime.WindowLifetimeReclaims(status);
  }

  /**
   * The same lifetime through the code as written: `build`'s allocations,
   * `WebView::new` as written and the `drop_in_place` teardown.  The log is
   * `Lifetime.WindowLifetimeAsWritten`, which never frees a record.
   */
  method WindowLifeAsWritten(status: int) returns (built: bool, log: seq<Action>)
    ensures built <==> status == 0
    ensures log == Lifetime.WindowLifetimeAsWritten(status) && !Lifetime.Reclaimed(log)
  {
    var engine := new Engine([], status, 0, 0, []);
    var v := Validate(DummyBuilder(()), UrlEncoding.Encode);
    var c := v.value;
    var data := new Container.StateData(c.userData, c.invokeHandler);
    engine.Log(AllocState);
    var record := Ffi.New(c.url, c.title, c.width, c.height, c.resizable, c.debug,
                          FfiInvokeHandler, data, 0);
    var r := Controller.NewAsWritten(record, engine);
    assert engine.history == Lifetime.BuildLogAsWritten(status);
    built := r.Ok?;
    if built {
      r.value.DropAsWritten();
      Lifetime.DropInPlaceLeaksAsWritten();
    } else {
      Lifetime.InitFailureLeaksAsWritten(status);
    }
    log := engine.history;
  }

  /**
   * A dialog builder taken from a window and kept after the window is
   * dropped: it still points at the engine, which has exited.  Nothing in
   * the builder as written stops a call from reaching that engine.
   */
  method DialogOutlivesWindowAsWritten() returns (built: bool, sameEngine: bool, exited: bool)
    ensures built && sameEngine && exited
  {
    var engine := new Engine([], 0, 0, 0, []);
    var r := Controller.Build(DummyBuilder(()), UrlEncoding.Encode, engine, 0);
    built := r.Ok?;
    if !built {
      return;
    }
    var view := r.value;
    var d := view.Dialog();
    view.Drop();
    sameEngine := d.ffi == engine;
    exited := d.ffi.exited;
  }

  /**
   * The corrected builder kept past its window: an alert is refused with
   * `Dispatch` and the engine is not called.
   */
  method DialogAfterDropIsRefused() returns (built: bool, r: WVResult, called: bool)
    ensures built && r == Err(Error.Dispatch) && !called
  {
    var engine := new Engine([], 0, 0, 0, []);
    var b := Controller.Build(DummyBuilder(()), UrlEncoding.Encode, engine, 0);
    built := b.Ok?;
    if !built {
      return;
    }
    var view := b.value;
    var d := view.Dialog();
    view.Drop();
    var before := engine.history;
    r := d.Info(Ascii("t"), Ascii("m"));
    called := engine.history != before;
  }
}
