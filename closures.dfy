/**
 * The closures the crate runs on the window thread, reduced to what the
 * controller can observe of them: whether they call `WebView::terminate`
 * on the view they are given, and the `WVResult` they return.
 */
module Closures {
  import opened Errors

  /** A dispatched `FnOnce(&mut WebView<T>) -> WVResult`, or one run of the invoke handler. */
  datatype Task = Task(terminates: bool, result: WVResult)

  /** The invoke handler `FnMut(&mut WebView<T>, &str) -> WVResult`, as a function of the message. */
  type Handler = Text -> Task
}
