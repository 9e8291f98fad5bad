/**
 * The specification of the controller loop of `lib.rs`: one native loop
 * iteration with its callbacks, `step`, and `run`, as functions of the
 * engine's flag and queue and of the container's result slot.
 * `Controller.WebView` implements them and is proved against them.
 */
module EventLoop {
  import opened Errors
  import opened Closures
  import opened Ffi

  /** What the loop's behaviour depends on: the engine's flag and queue, and the mailbox. */
  datatype Machine = Machine(closed: bool, pending: seq<Iteration>, slot: Option<WVResult>)

  /** What running one callback does: the dispatched closure, or the invoke handler on the message. */
  function Effect(e: Event, h: Handler): Task {
    match e
    case Dispatched(task) => task
    case Invoke(arg) => h(arg)
  }

  predicate SomeTerminates(events: Iteration, h: Handler) {
    exists i :: 0 <= i < |events| && Effect(events[i], h).terminates
  }

  /**
   * The callbacks of one iteration, in order (`ffi_dispatch_handler`,
   * `ffi_invoke_handler`): each overwrites the slot, so the last one wins,
   * and the window is closed afterwards when any of them terminated it.
   */
  function Deliver(events: Iteration, slot: Option<WVResult>, closed: bool, h: Handler): (r: (Option<WVResult>, bool))
    ensures events == [] ==> r == (slot, closed)
    ensures events != [] ==> r.0 == Some(Effect(events[|events| - 1], h).result)
    ensures r.1 <==> closed || SomeTerminates(events, h)
    decreases |events|
  {
    if events == [] then (slot, closed)
    else
      var before := Deliver(events[..|events| - 1], slot, closed, h);
      var t := Effect(events[|events| - 1], h);
      (Some(t.result), before.1 || t.terminates)
  }

  /**
   * `webview_loop(w, 1)`: runs the next iteration and then reports 0 while the
   * window is open and 1 once it is terminated; with nothing left to deliver
   * the window is taken to be closed by the user.
   */
  function LoopSpec(m: Machine, h: Handler): (r: (int, Machine))
    ensures r.0 == 0 <==> !m.closed && m.pending != [] && !SomeTerminates(m.pending[0], h)
    ensures r.1.closed <==> r.0 != 0
    ensures !m.closed && m.pending != [] ==> r.1.pending == m.pending[1..]
    ensures m.closed || m.pending == [] ==> r.1 == m.(closed := true)
  {
    if m.closed || m.pending == [] then (1, m.(closed := true))
    else
      var after := Deliver(m.pending[0], m.slot, false, h);
      (if after.1 then 1 else 0, Machine(after.1, m.pending[1..], after.0))
  }

  /** How much the loop can still run: one step per queued iteration, plus the one that sees the window closed. */
  function Measure(m: Machine): nat {
    |m.pending| + if m.closed then 0 else 1
  }

  /**
   * `step`: `None` once the loop reports the window closed; otherwise the
   * drained slot's result, `Ok` when no callback wrote one, and an empty slot.
   */
  function StepSpec(m: Machine, h: Handler): (r: (Option<WVResult>, Machine))
    ensures r.0.None? <==> LoopSpec(m, h).0 != 0
    ensures r.0.None? ==> r.1 == LoopSpec(m, h).1
    ensures r.0.Some? ==> r.1 == LoopSpec(m, h).1.(slot := None)
    ensures r.0.Some? ==> r.0.value == match LoopSpec(m, h).1.slot case Some(v) => v case None => Ok(())
    ensures r.0.Some? ==> Measure(r.1) < Measure(m)
  {
    var loop := LoopSpec(m, h);
    if loop.0 == 0 then
      (Some(match loop.1.slot case Some(v) => v case None => Ok(())), loop.1.(slot := None))
    else (None, loop.1)
  }

  /** `run`: steps until the window closes, stopping early at the first `Err`. */
  function RunSpec(m: Machine, h: Handler): (r: WVResult)
    ensures r.Err? ==> !m.closed && m.pending != []
    decreases Measure(m)
  {
    var s := StepSpec(m, h);
    if s.0.None? then Ok(())
    else if s.0.value.Err? then s.0.value
    else RunSpec(s.1, h)
  }

  /** The results every step would return, one per step, until the window is closed; independent of `run`. */
  function Trace(m: Machine, h: Handler): seq<WVResult>
    decreases Measure(m)
  {
    var s := StepSpec(m, h);
    if s.0.None? then [] else [s.0.value] + Trace(s.1, h)
  }

  /** `run` is `Ok` exactly when no step fails, and otherwise returns the first failure. */
  lemma {:induction false} RunIsFirstError(m: Machine, h: Handler)
    ensures RunSpec(m, h).Ok? <==> forall i :: 0 <= i < |Trace(m, h)| ==> Trace(m, h)[i].Ok?
    ensures RunSpec(m, h).Err? ==>
              exists i :: 0 <= i < |Trace(m, h)| && Trace(m, h)[i] == RunSpec(m, h)
                          && forall j :: 0 <= j < i ==> Trace(m, h)[j].Ok?
    decreases Measure(m)
  {
    var s := StepSpec(m, h);
    if s.0.Some? {
      var t := Trace(m, h);
      assert t == [s.0.value] + Trace(s.1, h);
      if s.0.value.Err? {
        assert t[0] == RunSpec(m, h);
      } else {
        RunIsFirstError(s.1, h);
        var rest := Trace(s.1, h);
        assert forall i :: 1 <= i < |t| ==> t[i] == rest[i - 1];
        if RunSpec(m, h).Err? {
          var k :| 0 <= k < |rest| && rest[k] == RunSpec(s.1, h) && forall j :: 0 <= j < k ==> rest[j].Ok?;
          assert t[k + 1] == RunSpec(m, h);
          assert forall j :: 0 <= j < k + 1 ==> t[j].Ok?;
        } else {
          assert forall i :: 0 <= i < |t| ==> t[i].Ok?;
        }
      }
    }
  }

  /** A step drains the slot: after a step that reports, no unread result is left. */
  lemma StepDrainsSlot(m: Machine, h: Handler)
    ensures StepSpec(m, h).0.Some? ==> StepSpec(m, h).1.slot == None && !StepSpec(m, h).1.closed
  {
  }

  /**
   * Of one iteration's callbacks only the last one's result is reported by
   * its step; with no callback the step reports what the slot held before.
   */
  lemma StepReportsLastCallback(m: Machine, h: Handler)
    requires StepSpec(m, h).0.Some?
    ensures m.pending != [] && !m.closed
    ensures m.pending[0] != [] ==>
              StepSpec(m, h).0.value == Effect(m.pending[0][|m.pending[0]| - 1], h).result
    ensures m.pending[0] == [] ==>
              StepSpec(m, h).0.value == match m.slot case Some(v) => v case None => Ok(())
  {
  }

  /**
   * A callback that terminates the window ends `run` with `Ok`, even when
   * it, or another callback of the same iteration, returned an error: the
   * loop reports the closure before the slot is drained.
   */
  lemma TerminatingIterationEndsRun(m: Machine, h: Handler)
    requires !m.closed && m.pending != [] && SomeTerminates(m.pending[0], h)
    ensures RunSpec(m, h) == Ok(())
  {
  }

  /** An error returned by a closure surfaces from the step of the iteration that ran it, and ends `run`. */
  lemma FailingCallbackEndsRun(m: Machine, h: Handler)
    requires !m.closed && m.pending != [] && m.pending[0] != [] && !SomeTerminates(m.pending[0], h)
    requires Effect(m.pending[0][|m.pending[0]| - 1], h).result.Err?
    ensures RunSpec(m, h) == Effect(m.pending[0][|m.pending[0]| - 1], h).result
  {
  }

  /** Once the window is closed, `run` returns `Ok` without delivering anything. */
  lemma ClosedRunIsOk(m: Machine, h: Handler)
    requires m.closed
    ensures RunSpec(m, h) == Ok(()) && Trace(m, h) == []
  {
  }
}
