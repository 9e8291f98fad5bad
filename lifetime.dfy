/**
 * The ownership story of `lib.rs`, told by the engine's log: `build` boxes the
 * state container and the `WebViewFFI` record and hands both addresses to the
 * engine, and `Drop` runs their destructors in a fixed order.  A window's
 * lifetime is sound when each of the two records is destroyed and its heap
 * block returned exactly as often as it was allocated.
 */
module Lifetime {
  import opened Ffi

  /** How often `a` occurs in the log. */
  function Count(h: seq<Action>, a: Action): nat {
    multiset(h)[a]
  }

  /** Each record is destroyed and deallocated exactly as often as it was allocated. */
  predicate Reclaimed(h: seq<Action>) {
    && Count(h, AllocState) == Count(h, DropState) == Count(h, FreeState)
    && Count(h, AllocRecord) == Count(h, DropRecord) == Count(h, FreeRecord)
  }

  /**
   * Giving both records back through `Box::from_raw`: the container is
   * dropped and freed, then the record.
   */
  function Release(): seq<Action> {
    [DropState, FreeState, DropRecord, FreeRecord]
  }

  /**
   * `Drop for WebView`, corrected: exit the native window first, then drop
   * and free the container, then drop and free the record.
   */
  function Teardown(): seq<Action> {
    [CallExit] + Release()
  }

  /**
   * `Drop for WebView` as written: `drop_in_place` on both records runs their
   * destructors but returns neither heap block.
   */
  function TeardownAsWritten(): seq<Action> {
    [CallExit, DropState, DropRecord]
  }

  /**
   * What `build` leaves in the log, corrected: allocate both records and
   * initialise; when initialisation fails, both records are released again
   * before the error is returned.
   */
  function BuildLog(status: int): seq<Action> {
    [AllocState, AllocRecord, CallInit(status)] + if status == 0 then [] else Release()
  }

  /** `build` as written: nothing is released when `webview_init` fails. */
  function BuildLogAsWritten(status: int): seq<Action> {
    [AllocState, AllocRecord, CallInit(status)]
  }

  /** A window's whole life, corrected: built, and when that succeeded, dropped once. */
  function WindowLifetime(status: int): seq<Action> {
    BuildLog(status) + if status == 0 then Teardown() else []
  }

  /** A window's whole life as written. */
  function WindowLifetimeAsWritten(status: int): seq<Action> {
    BuildLogAsWritten(status) + if status == 0 then TeardownAsWritten() else []
  }

  /** The older copy derives `Clone` for `WebView`: a window and one clone are both dropped. */
  function ClonedLifetimeAsWritten(): seq<Action> {
    BuildLogAsWritten(0) + TeardownAsWritten() + TeardownAsWritten()
  }

  /** Whether or not initialisation succeeds, a window's life destroys and frees each record exactly once. */
  lemma WindowLifetimeReclaims(status: int)
    ensures Reclaimed(WindowLifetime(status))
    ensures forall a :: a in Release() ==> Count(WindowLifetime(status), a) == 1
  {
  }

  /** As written, a failed initialisation neither destroys nor frees the two records. */
  lemma InitFailureLeaksAsWritten(status: int)
    requires status != 0
    ensures !Reclaimed(WindowLifetimeAsWritten(status))
    ensures Count(WindowLifetimeAsWritten(status), AllocState) == 1
    ensures Count(WindowLifetimeAsWritten(status), DropState) == 0 && Count(WindowLifetimeAsWritten(status), FreeState) == 0
  {
  }

  /** As written, a window that is built and dropped has both destructors run but neither block freed. */
  lemma DropInPlaceLeaksAsWritten()
    ensures !Reclaimed(WindowLifetimeAsWritten(0))
    ensures Count(WindowLifetimeAsWritten(0), DropState) == 1 && Count(WindowLifetimeAsWritten(0), DropRecord) == 1
    ensures Count(WindowLifetimeAsWritten(0), FreeState) == 0 && Count(WindowLifetimeAsWritten(0), FreeRecord) == 0
  {
  }

  /** As written in the older copy, dropping a window and its clone runs each record's destructor twice. */
  lemma ClonedWindowDropsTwice()
    ensures Count(ClonedLifetimeAsWritten(), DropState) == 2 && Count(ClonedLifetimeAsWritten(), DropRecord) == 2
    ensures Count(ClonedLifetimeAsWritten(), AllocState) == 1 && Count(ClonedLifetimeAsWritten(), AllocRecord) == 1
    ensures !Reclaimed(ClonedLifetimeAsWritten())
  {
  }
}
