# webview-rs, modelled in Dafny

`webview-rs` is a Rust wrapper around a native webview: a C engine that opens
a window, runs its event loop, evaluates JavaScript and shows modal dialogs.
Below its `unsafe` calls the crate holds a small amount of sequential logic.
This project models that logic and proves properties about it:

- **The builder** (`WebViewBuilder`): its defaults, its setters, and `build`'s
  checks, which run in a fixed order and report the first failure.
- **The native record** (`WebViewFFI::new`): the fields handed to the engine and
  the bool-to-int mapping.
- **The window controller** (`WebView`): `new`, `step`, `run` and the two
  callbacks the engine calls back into; the forwarding operations `eval`,
  `inject_css` and `set_title`, with their error mapping; and `Drop`, which
  tears the window down in a fixed order.
- **The state container** (`WebViewStateData`, called `UserData` in the older
  copy): the liveness token, the shared payload cell and the result mailbox.
- **The cross-thread handle** (`Handle`): its dispatch is gated on the token
  being alive.
- **Dialogs**: decoding of the reply buffer, and the `DialogType` /
  `DialogFlags` constants.

The repository holds two near-identical copies of the library, `webview-rs/src`
(current) and `src` (older). The model is written once. Both copies are cited
wherever they agree.

## How the native side is modelled

`Ffi.Engine` is a class that stands for the native engine. Its state:

- `closed`: the terminate/close flag.
- `exited`: set by `webview_exit`.
- `pending`: a queue of loop iterations. Each iteration is the list of callbacks
  the engine delivers on that pass: dispatched closures and `external.invoke`
  messages.
- `history`: a log of the native calls `webview_init`, `webview_exit`,
  `webview_dispatch`, `webview_eval`, `webview_inject_css`,
  `webview_set_title`, `webview_set_fullscreen` and `webview_dialog`.
  `webview_loop` and `webview_terminate` are not logged; their effect shows in
  `closed` and `pending`. The log also records three events for each of the two
  boxed records (the state container and the `WebViewFFI`): its allocation, its
  destructor running (`Drop…`), and its heap block being returned (`Free…`).
- Fixed status codes for `webview_init`, `webview_eval` and
  `webview_inject_css`, and a fixed dialog reply.

Three assumptions about the engine are part of the model:

- On each `webview_loop` pass, the engine delivers that pass's callbacks and
  then reports whether the window is closed.
- A pass taken with an empty queue means the user closed the window.
- Each `webview_dispatch` gets a loop pass of its own, queued after everything
  already pending (`Ffi.Engine.Schedule`). Nothing in the crate promises this.
  It is why two dispatched closures never share a pass in the model. When
  callbacks do share a pass, `step`'s single slot keeps only the last result
  (`EventLoop.StepReportsLastCallback`).

The first two make `run` terminate without an unbounded loop.

A closure is reduced to a `Closures.Task`: whether it calls `terminate`, and
the `WVResult` it returns. The invoke handler is a function from the message to
a `Task`. Strings that cross into the engine are byte sequences, and
`CString::new` becomes `Errors.CStringNew`, which fails exactly on a NUL byte.

`urlencoding::encode` is a parameter of `build`. `UrlEncoding` supplies one
concrete choice: percent-encoding as in section 2.1 of RFC 3986. The lemmas
about HTML content are stated for that choice. That the crate's encoder behaves
this way is an assumption.

## Model

| member | source | states |
|---|---|---|
| Errors.CStringNew | webview-rs/src/lib.rs:208 | converting a string fails with `NulByte` exactly when it holds a NUL byte, and otherwise returns the same bytes |
| Builder.Default | webview-rs/src/lib.rs:109-125 | the default builder has title "Application", is 800×600 and resizable, has `debug` equal to the build profile, and has no content, invoke handler or user data (same as src/lib.rs:83-99) |
| Builder.SettersSetOneField | webview-rs/src/lib.rs:143-197 | each setter sets its own field(s) to the given value and leaves every other field as it was |
| Builder.Validate | webview-rs/src/lib.rs:200-215 | the checks run in order: a NUL in the title gives `NulByte`; then a missing content, user_data or invoke_handler gives `UninitializedField` with that field's name; then a NUL in the URL gives `NulByte`. The result is `Ok` iff every check passes, and then it carries the title and the URL built from the content (same as src/lib.rs:174-189) |
| Builder.UrlOf | webview-rs/src/lib.rs:212-215 | `Url(u)` gives `u` unchanged; `Html(h)` gives the `data:text/html,` prefix followed by `encode(h)` (src/lib.rs:186-189) |
| Builder.MissingFieldNamed | webview-rs/src/lib.rs:201-211 | an `UninitializedField` error names one of the three required fields, and it is the first of them that is missing, in the order `build` checks them (content, user_data, invoke_handler), once the title is clean |
| Builder.DefaultNeedsContent | webview-rs/src/lib.rs:109-125 | building straight from the defaults fails with `UninitializedField("content")` |
| Builder.LiteralsHaveNoNul | webview-rs/src/lib.rs:116 | the default title and the `data:text/html,` prefix contain no NUL |
| Builder.HtmlUrlHasNoNul | webview-rs/src/lib.rs:214 | with percent-encoding, an HTML page never produces a URL with a NUL, so the last check of `build` cannot fail for `Html` content |
| Builder.HtmlUrlRoundTrip | webview-rs/src/lib.rs:214 | the URL of `Html(h)` is the `data:text/html,` prefix followed by text that decodes back to `h` |
| Builder.HtmlBuilderValidates | webview-rs/src/lib.rs:208-215 | a builder with a clean title, HTML content, user data and a handler always validates |
| Ffi.BoolAsInt | webview-sys/src/webview_ffi.rs:41-42 | `true` becomes 1 and `false` becomes 0 |
| Ffi.New | webview-sys/src/webview_ffi.rs:35-47 | url, title, width, height and userdata are stored unchanged; resizable and debug are stored as 1 or 0; the invoke callback is always present; the private area is all zeros and of the given size |
| Ffi.Filled | webview-sys/src/webview_ffi.rs:67 | the engine's reply is copied into the front of the result buffer up to its length, the rest is untouched, and the length is unchanged |
| Ffi.Engine.NextIteration | webview-sys/src/webview_ffi.rs:58 | a loop pass is open iff the window is not closed and a batch is queued; an open pass removes and returns the first batch; otherwise the window is closed from then on |
| Ffi.Engine.Init | webview-sys/src/webview_ffi.rs:57 | `webview_init` reports the engine's fixed status, and logs the call |
| Ffi.Engine.Terminate | webview-sys/src/webview_ffi.rs:59 | `webview_terminate` closes the window |
| Ffi.Engine.Exit | webview-sys/src/webview_ffi.rs:60 | `webview_exit` marks the native window gone, and logs the call |
| Ffi.Engine.Eval | webview-sys/src/webview_ffi.rs:62 | `webview_eval` takes a NUL-free script, reports the fixed status, and logs the call |
| Ffi.Engine.InjectCss | webview-sys/src/webview_ffi.rs:63 | `webview_inject_css` takes a NUL-free style, reports the fixed status, and logs the call |
| Ffi.Engine.SetTitle | webview-sys/src/webview_ffi.rs:64 | `webview_set_title` takes a NUL-free title and logs the call |
| Ffi.Engine.SetFullscreen | webview-sys/src/webview_ffi.rs:65 | `webview_set_fullscreen` logs the integer flag it was given |
| Ffi.Engine.Schedule | webview-sys/src/webview_ffi.rs:61 | `webview_dispatch` appends exactly one batch holding the closure, and logs the call |
| Ffi.Engine.Dialog | webview-sys/src/webview_ffi.rs:67 | the engine fills the caller's buffer in place (copy loop), which is then `Filled(old buffer, reply)`, and logs the call |
| Container.StateData.constructor | webview-rs/src/state_data.rs:16-23 | a new container has a fresh, live token, a fresh payload cell holding the data, the given invoke handler and an empty result slot (same as src/user_data.rs:19-26) |
| Container.StateData.UserData | webview-rs/src/state_data.rs:25-27 | returns the container's one payload cell, so every call gives the same cell (src/user_data.rs:28-30) |
| Container.StateData.LiveLock | webview-rs/src/state_data.rs:29-31 | returns the container's own token (src/user_data.rs:32-34) |
| Container.StateData.Take | webview-rs/src/lib.rs:292 | returns the slot's old content and leaves it empty |
| Container.StateData.Release | webview-rs/src/lib.rs:430 | dropping the container kills its token |
| Container.Cell.Read | webview-rs/src/lib.rs:490-494 | a read returns the cell's current value |
| Container.Cell.Write | webview-rs/src/lib.rs:490-494 | after a write the cell holds the written value |
| Handles.DispatchOutcome | webview-rs/src/handle.rs:52-54 | dispatch succeeds iff the token is alive, and otherwise fails with `Dispatch` |
| Handles.Handle.constructor | webview-rs/src/handle.rs:29-35 | the handle keeps the engine and a reference to the token, and changes neither (src/handle.rs:27-33) |
| Handles.Handle.Dispatch | webview-rs/src/handle.rs:48-69 | on a dead token it returns `Err(Dispatch)` and schedules nothing; on a live token it schedules exactly one closure and returns `Ok(())`. The result depends only on liveness, never on the closure. It changes neither liveness nor anything else (src/handle.rs:35-55) |
| EventLoop.Deliver | webview-rs/src/lib.rs:444-447 | delivering a pass's callbacks leaves the last callback's result in the slot (an empty pass leaves the slot alone), and the window is closed afterwards iff it was already or some callback terminated (also lib.rs:456-458) |
| EventLoop.LoopSpec | webview-rs/src/lib.rs:290 | the loop code is 0 iff the window was open, a batch was queued and no callback in it terminated; a non-zero code leaves the window closed |
| EventLoop.StepSpec | webview-rs/src/lib.rs:288-300 | `step` is `None` iff the loop code is non-zero; otherwise it is the slot's content, or `Ok(())` if empty, and the slot is emptied. Each `Some` step consumes a batch (same as src/lib.rs:256-268) |
| EventLoop.RunSpec | webview-rs/src/lib.rs:303-310 | `run` steps until a step is `None` or an `Err`; an error is only possible when the window was open with a batch queued (src/lib.rs:270-277) |
| EventLoop.RunIsFirstError | webview-rs/src/lib.rs:303-310 | `run` is `Ok` iff every `step` result before the first `None` is `Ok`; otherwise it is the first `Err` of that sequence (src/lib.rs:270-277) |
| EventLoop.StepDrainsSlot | webview-rs/src/lib.rs:291-295 | after a `Some` step the slot is empty and the window open |
| EventLoop.StepReportsLastCallback | webview-rs/src/lib.rs:291-295 | a `Some` step reports the last callback of its pass, or `Ok(())` when the pass delivered nothing and the slot was empty |
| EventLoop.TerminatingIterationEndsRun | webview-rs/src/lib.rs:297 | a pass in which some callback terminates ends `run` with `Ok(())`, whatever the callbacks returned (webview-rs/tests/webview_tests.rs:21-28) |
| EventLoop.FailingCallbackEndsRun | webview-rs/src/lib.rs:306 | a non-terminating pass whose last callback fails ends `run` with that error |
| EventLoop.ClosedRunIsOk | webview-rs/src/lib.rs:307 | running a closed window returns `Ok(())` after no steps |
| Lifetime.Teardown | webview-rs/src/lib.rs:426-431 | the corrected teardown: exit, then the container, then the record, each dropped and freed as `Box::from_raw` would do |
| Lifetime.TeardownAsWritten | webview-rs/src/lib.rs:426-431 | the teardown as written: exit, then `drop_in_place` on the container and on the record, which runs their destructors and frees neither (src/lib.rs:367-372) |
| Lifetime.BuildLog | webview-rs/src/lib.rs:216-254 | the corrected log of `build`: allocate the container, allocate the record, initialise, and on a failed init drop and free both |
| Lifetime.BuildLogAsWritten | webview-rs/src/lib.rs:216-254 | `build` as written: allocate both, initialise, and nothing else whatever the status (src/lib.rs:190-229) |
| Lifetime.WindowLifetimeReclaims | webview-rs/src/lib.rs:216-254 | whether `webview_init` succeeds or fails, the corrected lifetime destroys and frees the container and the record exactly once each (see Findings) |
| Lifetime.InitFailureLeaksAsWritten | webview-rs/src/lib.rs:239-254 | as written, a failed `webview_init` allocates both records and neither destroys nor frees them |
| Lifetime.DropInPlaceLeaksAsWritten | webview-rs/src/lib.rs:430-431 | as written, a window built and dropped has both destructors run once, but neither heap block is ever freed |
| Lifetime.ClonedWindowDropsTwice | src/lib.rs:60-61 | as written in the older copy, a window and one `Clone` of it are both dropped, which runs each record's destructor twice for a single allocation |
| Controller.EvalOutcome | webview-rs/src/lib.rs:318-328 | `eval` is `NulByte` iff the script holds a NUL; otherwise `Ok` iff the native code is 0, else `JsEvaluation` (src/lib.rs:283-293) |
| Controller.CssOutcome | webview-rs/src/lib.rs:331-341 | `inject_css` is `NulByte` iff the style holds a NUL; otherwise `Ok` iff the native code is 0, else `CssInjection` (src/lib.rs:295-305) |
| Controller.SetTitleOutcome | webview-rs/src/lib.rs:377-388 | `set_title` is `Ok` iff the title holds no NUL, otherwise `NulByte` (src/lib.rs:321-332) |
| Controller.WebView.constructor | webview-rs/src/lib.rs:239-251 | the window takes sole ownership of the engine and the record, and is not yet dropped |
| Controller.WebView.DispatchHandler | webview-rs/src/lib.rs:436-448 | the callback overwrites the slot with the closure's result, and closes the window when the closure terminates (src/lib.rs:377-389) |
| Controller.WebView.InvokeHandler | webview-rs/src/lib.rs:450-459 | the callback overwrites the slot with the invoke handler's result on the message, and closes the window when the handler terminates (src/lib.rs:391-400) |
| Controller.WebView.Loop | webview-rs/src/lib.rs:290 | one `webview_loop` pass, delivering each callback of the batch in order (loop with invariants); the new state and code are `LoopSpec` of the old state |
| Controller.WebView.Step | webview-rs/src/lib.rs:288-300 | the result and the new state are `StepSpec` of the old state (src/lib.rs:256-268) |
| Controller.WebView.Run | webview-rs/src/lib.rs:303-310 | the loop over `step` returns `RunSpec` of the starting state; since `run` consumes the window, it ends with the teardown, after which the window is dropped, the engine exited and the token dead (src/lib.rs:270-277) |
| Controller.WebView.Terminate | webview-rs/src/lib.rs:313-315 | the window is closed afterwards |
| Controller.WebView.Eval | webview-rs/src/lib.rs:318-328 | returns `EvalOutcome`; the engine is called iff the script holds no NUL |
| Controller.WebView.InjectCss | webview-rs/src/lib.rs:331-341 | returns `CssOutcome`; the engine is called iff the style holds no NUL |
| Controller.WebView.SetTitle | webview-rs/src/lib.rs:377-388 | returns `SetTitleOutcome`; the engine is called iff the title holds no NUL |
| Controller.WebView.SetFullscreen | webview-rs/src/lib.rs:391-398 | passes the flag to the engine as 1 or 0 |
| Controller.WebView.Dialog | webview-rs/src/lib.rs:401-403 | the dialog builder is bound to this window's engine and, in the corrected builder, to its liveness token, so it is linked (see Findings) |
| Controller.WebView.UserData | webview-rs/src/lib.rs:270-277 | returns the state container's payload cell, the same one on every call |
| Controller.WebView.Handle | webview-rs/src/lib.rs:408-418 | the new handle points at this window's engine and token, and is linked: while the token lives, the engine has not exited |
| Controller.WebView.Drop | webview-rs/src/lib.rs:421-434 | the corrected teardown: the log gains `Lifetime.Teardown` (exit, then the container dropped and freed, then the record); the engine has exited and the token is dead, so every handle's dispatch and every dialog builder's call is refused from then on (src/lib.rs:361-375) |
| Controller.WebView.DropAsWritten | webview-rs/src/lib.rs:421-434 | the teardown as written: the log gains `Lifetime.TeardownAsWritten`. The engine has exited and the token is killed by the container's destructor, but neither block is freed |
| Controller.New | webview-rs/src/lib.rs:239-254 | `Ok` iff native init returns 0, otherwise `Err(Initialization)`. This is the corrected version: on failure both records are dropped and freed, and the token dies (see Findings) (src/lib.rs:213-229) |
| Controller.NewAsWritten | webview-rs/src/lib.rs:239-254 | as written: `Ok` iff native init returns 0, otherwise `Err(Initialization)`, with only the allocation and the init call logged. On failure the container's token stays alive, because nothing is released |
| Controller.Build | webview-rs/src/lib.rs:200-235 | a validation error is returned unchanged and nothing is allocated. Otherwise the container is allocated, the record is built from the validated configuration, and the result is `Ok` iff init returns 0. A built window is live, with an empty result slot, the configured user data and handler, and a record equal to `Ffi.New` of the configuration (src/lib.rs:174-209) |
| Dialogs.ZeroBuffer | webview-rs/src/dialog.rs:29 | the buffer is 4096 zero bytes |
| Dialogs.FirstNul | webview-rs/src/dialog.rs:131 | finds the first NUL position, and none exactly when the buffer holds no NUL |
| Dialogs.FromBytesWithNul | webview-rs/src/dialog.rs:132 | accepts exactly a slice whose only NUL is its last byte, and returns the bytes before it |
| Dialogs.ReadStr | webview-rs/src/dialog.rs:130-136 | the result is exactly the bytes before the first NUL, or empty if the buffer has none; it never holds a NUL |
| Dialogs.ReadStrFitsBuffer | webview-rs/src/dialog.rs:14 | a decoded result from a 4096-byte buffer is at most 4095 bytes |
| Dialogs.DialogOutcome | webview-rs/src/dialog.rs:28-46 | a NUL in the title or argument gives `NulByte`, and otherwise the result decodes the filled zero buffer |
| Dialogs.ReplyDecodesUpToNul | webview-rs/src/dialog.rs:29-45 | a reply whose first NUL lies inside the buffer decodes to the bytes before that NUL |
| Dialogs.ShortReplyDecodesWhole | webview-rs/src/dialog.rs:29-45 | a NUL-free reply shorter than the buffer decodes to itself |
| Dialogs.FullReplyDecodesEmpty | webview-rs/src/dialog.rs:131-134 | a reply that fills the buffer with no NUL decodes to "" |
| Dialogs.PathResult | webview-rs/src/dialog.rs:60-66 | an empty path becomes `None`, any other path `Some` of that path; errors pass through (also dialog.rs:81) |
| Dialogs.AlertResult | webview-rs/src/dialog.rs:96 | an alert is `Ok(())` iff the dialog call succeeded, whatever the buffer holds (also dialog.rs:111, 126) |
| Dialogs.GatedOutcome | webview-rs/src/dialog.rs:28-46 | the corrected builder's result: `Err(Dispatch)` once the window is gone, otherwise `DialogOutcome`; it is an error iff the window is gone or either string holds a NUL |
| Dialogs.DialogBuilder.constructor | webview-rs/src/dialog.rs:24-26 | the builder is bound to the given engine and, in the corrected builder, to the given token |
| Dialogs.DialogBuilder.Dialog | webview-rs/src/dialog.rs:28-46 | returns `GatedOutcome`: refused once the window is gone (the corrected gate); otherwise a zero buffer is allocated, the engine fills it in place and it is decoded. The engine is called iff the window lives and both strings are NUL-free |
| Dialogs.DialogBuilder.OpenFile | webview-rs/src/dialog.rs:49-67 | sends (Open, FILE) and maps the path through `PathResult`, refused once the window is gone |
| Dialogs.DialogBuilder.ChooseDirectory | webview-rs/src/dialog.rs:70-82 | sends (Open, DIRECTORY) and maps the path through `PathResult`, refused once the window is gone |
| Dialogs.DialogBuilder.Info | webview-rs/src/dialog.rs:85-97 | sends (Alert, INFO) and returns `AlertResult`, refused once the window is gone |
| Dialogs.DialogBuilder.Warning | webview-rs/src/dialog.rs:100-112 | sends (Alert, WARNING) and returns `AlertResult`, refused once the window is gone |
| Dialogs.DialogBuilder.Error | webview-rs/src/dialog.rs:115-127 | sends (Alert, ERROR) and returns `AlertResult`, refused once the window is gone |
| Sys.DialogType.Discriminant | webview-sys/src/lib.rs:25-29 | Open, Save and Alert are 0, 1 and 2 |
| Sys.DiscriminantInjective | webview-sys/src/lib.rs:25-29 | distinct kinds have distinct discriminants |
| Sys.FileIsEmpty | webview-sys/src/lib.rs:34 | `FILE` is the empty set: 0, neutral for union, contained in every set |
| Sys.ErrorIsInfoAndWarning | webview-sys/src/lib.rs:36-38 | `ERROR` is the union of `INFO` and `WARNING` and contains both; those two are disjoint |
| Sys.DirectoryDisjointFromAlerts | webview-sys/src/lib.rs:35-38 | the `DIRECTORY` bit is shared with none of `INFO`, `WARNING` and `ERROR` |
| UrlEncoding.EncodeHasNoNul | webview-rs/src/lib.rs:214 | percent-encoded text holds no NUL byte |
| UrlEncoding.DecodeEncode | webview-rs/src/lib.rs:214 | decoding percent-encoded text gives back the original |
| Scenarios.DispatchTerminate | webview-rs/tests/webview_tests.rs:9-30 | a window built with a URL is created; a dispatch from its handle succeeds; a dispatched closure that terminates ends `run` with `Ok(())`; dispatching afterwards gives `Err(Dispatch)` |
| Scenarios.WindowLife | webview-rs/src/lib.rs:200-254 | building on a fresh engine and then dropping the window chains the method contracts: the engine's log is exactly `Lifetime.WindowLifetime(status)`, so each record is reclaimed once (also lib.rs:421-434) |
| Scenarios.WindowLifeAsWritten | webview-rs/src/lib.rs:216-254 | the same scenario through `NewAsWritten` and `DropAsWritten`: the log is `Lifetime.WindowLifetimeAsWritten(status)`, and it does not reclaim the records (also lib.rs:421-434) |
| Scenarios.DialogOutlivesWindowAsWritten | webview-rs/src/dialog.rs:18-26 | a dialog builder taken from a window still points at the window's engine after the window is dropped, and that engine has exited (also lib.rs:401-403) |
| Scenarios.DialogAfterDropIsRefused | webview-rs/src/dialog.rs:85-97 | with the corrected builder, an alert after the window is dropped returns `Err(Dispatch)` and the engine is not called |
| Scenarios.UserData | webview-rs/src/lib.rs:478-495 | a value written through `user_data()` is seen by the next read through `user_data()` |

## Left out

- The native engine itself (webview-sys/src/webview_ffi.rs:56-68): rendering,
  JavaScript and real dialogs. `Ffi.Engine` stands for it, with fixed status
  codes, a fixed dialog reply and a pre-set queue of passes. The
  JavaScript-driven integration tests (inject_css, window size, invoke
  terminate) cannot be expressed.
- `urlencoding::encode` is a foreign crate and is not part of this model. `build`
  takes the encoder as a parameter. Percent-encoding is proved about only as one
  choice of encoder.
- Threads, `RwLock` contention and lock poisoning
  (webview-rs/src/handle.rs:55-57). Dispatch is sequential, so the
  poisoned-lock error path does not appear. `Drop` never takes the token's write
  lock, so in the real program the read guard held by `dispatch` does not hold
  off teardown. The sequential model cannot express that race.
- Raw pointers, `Box::into_raw` / `from_raw`, `ManuallyDrop` and
  `drop_in_place`. These become object identity plus the allocate, drop and
  free entries of the engine's log. `from_ptr` inside the callbacks is the
  window object itself.
- `Ffi.Record`'s `url` and `title` hold the string values. In the source they
  are pointers into two `CString`s that are locals of `build`
  (webview-rs/src/lib.rs:208, 212-215). Those strings are dropped when `build`
  returns, so the record's pointers dangle for the rest of the window's life.
  The model does not capture this. Whether it matters depends on whether
  `webview_init` copies them, which is engine code outside this model.
- `to_string_lossy` in `read_str` and `ffi_invoke_handler`. Text is bytes, and
  no UTF-8 repair is modelled.
- The `FnMut` state of the invoke handler. The handler is a pure function of
  the message, and a closure's effects on the window other than `terminate` are
  not modelled.
- The `println!` calls in the `Drop` impls and in the older `dispatch`.
- `set_color` and `Color` (color.rs is not part of this model). Also left out:
  `error.rs`, of which only the variants used are modelled (the NUL conversion
  error is `NulByte`); webview-sys/build.rs; and the example programs.
- `DialogType.Save` is declared but never sent by any dialog method, so it
  appears only in `Sys`.
- `WebViewBuilder::new` is the same function as `Default`, so it has no member
  of its own.

## Findings

| source | as written | input that shows it | evidently intended | confidence | as-written member | corrected member |
|---|---|---|---|---|---|---|
| src/lib.rs:60-61 | the older copy derives `Clone` for `WebView`, whose `Drop` (src/lib.rs:361-375) exits the window and drops both records. The safe, public `from_ptr` (src/lib.rs:231-236) is a second way to make an owning `WebView`, from any pointer; `from_ptr(ptr::null_mut())` dropped would even dereference null | one `view.clone()`, then both copies are dropped: each record's destructor runs twice. The as-written half is a log literal (`Lifetime.ClonedLifetimeAsWritten`), because no model method can clone a window | a window has a single owner and is torn down once | high, not executed | Lifetime.ClonedWindowDropsTwice | Lifetime.WindowLifetimeReclaims |
| webview-rs/src/lib.rs:239-254 | when `webview_init` returns non-zero, `new` returns `Err(Initialization)`. The boxed `WebViewFFI` and the boxed state container behind its `userdata` are then never dropped or freed (also src/lib.rs:213-229) | any build whose native init returns 1 | both records are dropped and freed before the error is returned | medium, not executed | Controller.NewAsWritten | Controller.New |
| webview-rs/src/lib.rs:430-431 | `Drop` gives both records back with `drop_in_place`. That runs their destructors but never frees the heap blocks that `Box::into_raw` produced (lib.rs:216-221, 241; also src/lib.rs:371-372) | any window that is built and then dropped | `Box::from_raw` on both pointers, which drops and frees each record | high, not executed | Lifetime.DropInPlaceLeaksAsWritten | Controller.WebView.Drop |
| webview-rs/src/dialog.rs:18-26 | `DialogBuilder` holds a bare `*mut WebViewFFI` with no lifetime, and `WebView::dialog` (lib.rs:401-403) hands it out without tying it to a borrow. Safe code can keep the builder after the window is dropped and call `webview_dialog` on an exited, dropped record | `let mut d = view.dialog(); drop(view); d.info("t", "m")` | a builder that cannot reach the native window once it is gone | medium, not executed | Scenarios.DialogOutlivesWindowAsWritten | Scenarios.DialogAfterDropIsRefused |

The model uses the corrected behaviour in every case:

- `Controller.WebView` is the sole owner of its records, and `Drop` requires a
  window that has not yet been dropped.
- `Controller.WebView.Drop` and `Controller.New` release records as
  `Box::from_raw` would. Their logs are `Lifetime.Teardown` and
  `Lifetime.BuildLog`. `Lifetime.WindowLifetimeReclaims` proves that each
  record is then destroyed and freed exactly once, and `Scenarios.WindowLife`
  chains the method contracts to reach that log.
- The as-written halves, `Controller.NewAsWritten` and
  `Controller.WebView.DropAsWritten`, are chained the same way by
  `Scenarios.WindowLifeAsWritten`.
- `Dialogs.DialogBuilder` keeps the window's liveness token and checks it
  before each native call, as `Handle::dispatch` does: its calls are refused
  with `Dispatch` once the window is gone. A borrow of the window would be the
  other way to get the same guarantee.
