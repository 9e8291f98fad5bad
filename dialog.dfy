/**
 * `dialog.rs`: modal dialogs.  Each call converts its two strings, lets the
 * engine fill a zeroed 4096-byte buffer, and decodes the buffer as a C string.
 */
module Dialogs {
  import opened Errors
  import opened Sys
  import opened Ffi
  import opened Container

  const STR_BUF_SIZE: nat := 4096

  /** The buffer as `[0u8; STR_BUF_SIZE]` creates it. */
  function ZeroBuffer(): (b: seq<byte>)
    ensures |b| == STR_BUF_SIZE && forall i :: 0 <= i < |b| ==> b[i] == NUL
  {
    seq(STR_BUF_SIZE, _ => NUL)
  }

  /** `s.iter().position(|&b| b == 0)`. */
  function FirstNul(s: seq<byte>): (r: Option<nat>)
    ensures r.None? <==> !HasNul(s)
    ensures r.Some? ==> r.value < |s| && s[r.value] == NUL && forall j :: 0 <= j < r.value ==> s[j] != NUL
  {
    if s == [] then None
    else if s[0] == NUL then Some(0)
    else
      match FirstNul(s[1..])
      case None => None
      case Some(i) => Some(i + 1)
  }

  /** `CStr::from_bytes_with_nul`: accepts a slice whose only NUL byte is its last one. */
  function FromBytesWithNul(s: seq<byte>): (r: Option<Text>)
    ensures r.Some? <==> |s| > 0 && s[|s| - 1] == NUL && !HasNul(s[..|s| - 1])
    ensures r.Some? ==> r.value == s[..|s| - 1]
  {
    if |s| > 0 && s[|s| - 1] == NUL && !HasNul(s[..|s| - 1]) then Some(s[..|s| - 1]) else None
  }

  /** `read_str`: the bytes before the first NUL, or nothing when the buffer holds none. */
  function ReadStr(s: seq<byte>): (r: Text)
    ensures !HasNul(r)
    ensures HasNul(s) ==> |r| < |s| && r == s[..|r|] && s[|r|] == NUL
    ensures !HasNul(s) ==> r == []
  {
    var end := match FirstNul(s) case None => 0 case Some(i) => i + 1;
    match FromBytesWithNul(s[..end])
    case Some(c) => c
    case None => []
  }

  /** A decoded result is at most 4095 bytes long. */
  lemma ReadStrFitsBuffer(s: seq<byte>)
    requires |s| == STR_BUF_SIZE
    ensures |ReadStr(s)| <= STR_BUF_SIZE - 1
  {
  }

  /** What `dialog` returns, given what the engine replies. */
  function DialogOutcome(title: Text, arg: Text, reply: Text): (r: Result<Text>)
    ensures r.Err? <==> HasNul(title) || HasNul(arg)
    ensures r.Err? ==> r.error == NulByte
  {
    match CStringNew(title)
    case Err(e) => Err(e)
    case Ok(_) =>
      match CStringNew(arg)
      case Err(e) => Err(e)
      case Ok(_) => Ok(ReadStr(Filled(ZeroBuffer(), reply)))
  }

  /** A reply whose first NUL falls inside the buffer decodes to the bytes before that NUL. */
  lemma ReplyDecodesUpToNul(reply: Text, k: nat)
    requires k < STR_BUF_SIZE && k < |reply| && reply[k] == NUL
    requires forall j :: 0 <= j < k ==> reply[j] != NUL
    ensures ReadStr(Filled(ZeroBuffer(), reply)) == reply[..k]
  {
    var buf := Filled(ZeroBuffer(), reply);
    var r := ReadStr(buf);
    assert buf[k] == NUL;
  }

  /** A NUL-free reply shorter than the buffer decodes whole: the rest of the buffer is still zero. */
  lemma ShortReplyDecodesWhole(reply: Text)
    requires |reply| < STR_BUF_SIZE && !HasNul(reply)
    ensures ReadStr(Filled(ZeroBuffer(), reply)) == reply
  {
    var buf := Filled(ZeroBuffer(), reply);
    var r := ReadStr(buf);
    assert buf[|reply|] == NUL;
  }

  /** A reply that fills the whole buffer without a NUL decodes to nothing. */
  lemma FullReplyDecodesEmpty(reply: Text)
    requires |reply| >= STR_BUF_SIZE && !HasNul(reply[..STR_BUF_SIZE])
    ensures ReadStr(Filled(ZeroBuffer(), reply)) == []
  {
    assert Filled(ZeroBuffer(), reply) == reply[..STR_BUF_SIZE];
  }

  /** `open_file` and `choose_directory`: an empty path means nothing was chosen. */
  function PathResult(r: Result<Text>): (p: Result<Option<Text>>)
    ensures r.Err? ==> p == Err(r.error)
    ensures r.Ok? ==> p.Ok? && (p.value.None? <==> r.value == [])
    ensures r.Ok? && p.value.Some? ==> p.value.value == r.value
  {
    match r
    case Err(e) => Err(e)
    case Ok(path) => if path == [] then Ok(None) else Ok(Some(path))
  }

  /** `info`, `warning` and `error`: the buffer's contents are dropped. */
  function AlertResult(r: Result<Text>): (a: WVResult)
    ensures a.Ok? <==> r.Ok?
    ensures a.Err? ==> a.error == r.error
  {
    match r
    case Err(e) => Err(e)
    case Ok(_) => Ok(())
  }

  /**
   * What a corrected builder's `dialog` returns: once the window is gone it
   * refuses with `Dispatch`, as a handle does; otherwise it is `DialogOutcome`.
   */
  function GatedOutcome(alive: bool, title: Text, arg: Text, reply: Text): (r: Result<Text>)
    ensures r.Err? <==> !alive || HasNul(title) || HasNul(arg)
    ensures !alive ==> r == Err(Errors.Error.Dispatch)
    ensures alive ==> r == DialogOutcome(title, arg, reply)
  {
    if alive then DialogOutcome(title, arg, reply) else Err(Errors.Error.Dispatch)
  }

  /**
   * `DialogBuilder`, corrected.  As written it holds only the engine pointer,
   * with no lifetime tying it to the window, so it can outlive the window
   * and call into an exited engine.  Here it also keeps a reference to the
   * window's liveness token and checks it before every native call, the way
   * `Handle::dispatch` does.
   */
  class DialogBuilder {
    const ffi: Engine
    const live: Token

    constructor (ffi: Engine, live: Token)
      ensures this.ffi == ffi && this.live == live
    {
      this.ffi := ffi;
      this.live := live;
    }

    /** While the window lives, its native window has not exited. */
    predicate Linked()
      reads live, ffi
    {
      live.alive ==> !ffi.exited
    }

    /**
     * `dialog`: refused once the window is gone; otherwise a NUL in either
     * string fails before the engine is called, and the engine fills a zeroed
     * buffer that is then decoded.
     */
    method Dialog(title: Text, arg: Text, kind: DialogType, flags: DialogFlags) returns (r: Result<Text>)
      requires Linked()
      modifies ffi`history
      ensures r == GatedOutcome(live.alive, title, arg, ffi.dialogReply)
      ensures r.Err? ==> ffi.history == old(ffi.history)
      ensures r.Ok? ==> ffi.history == old(ffi.history) + [CallDialog(kind, flags, title, arg)]
    {
      if !live.alive {
        return Err(Errors.Error.Dispatch);
      }
      var s := new byte[STR_BUF_SIZE](_ => NUL);
      assert s[..] == ZeroBuffer();
      var t := CStringNew(title);
      if t.Err? {
        return Err(t.error);
      }
      var a := CStringNew(arg);
      if a.Err? {
        return Err(a.error);
      }
      ffi.Dialog(kind, flags, t.value, a.value, s);
      r := Ok(ReadStr(s[..]));
    }

    method OpenFile(title: Text, defaultFile: Text) returns (r: Result<Option<Text>>)
      requires Linked()
      modifies ffi`history
      ensures r == PathResult(GatedOutcome(live.alive, title, defaultFile, ffi.dialogReply))
      ensures r.Ok? ==> ffi.history == old(ffi.history) + [CallDialog(Open, FILE, title, defaultFile)]
      ensures r.Err? ==> ffi.history == old(ffi.history)
    {
      var s := Dialog(title, defaultFile, Open, FILE);
      r := PathResult(s);
    }

    method ChooseDirectory(title: Text, defaultDir: Text) returns (r: Result<Option<Text>>)
      requires Linked()
      modifies ffi`history
      ensures r == PathResult(GatedOutcome(live.alive, title, defaultDir, ffi.dialogReply))
      ensures r.Ok? ==> ffi.history == old(ffi.history) + [CallDialog(Open, DIRECTORY, title, defaultDir)]
      ensures r.Err? ==> ffi.history == old(ffi.history)
    {
      var s := Dialog(title, defaultDir, Open, DIRECTORY);
      r := PathResult(s);
    }

    method Info(title: Text, message: Text) returns (r: WVResult)
      requires Linked()
      modifies ffi`history
      ensures r == AlertResult(GatedOutcome(live.alive, title, message, ffi.dialogReply))
      ensures r.Ok? ==> ffi.history == old(ffi.history) + [CallDialog(Alert, INFO, title, message)]
      ensures r.Err? ==> ffi.history == old(ffi.history)
    {
      var s := Dialog(title, message, Alert, INFO);
      r := AlertResult(s);
    }

    method Warning(title: Text, message: Text) returns (r: WVResult)
      requires Linked()
      modifies ffi`history
      ensures r == AlertResult(GatedOutcome(live.alive, title, message, ffi.dialogReply))
      ensures r.Ok? ==> ffi.history == old(ffi.history) + [CallDialog(Alert, WARNING, title, message)]
      ensures r.Err? ==> ffi.history == old(ffi.history)
    {
      var s := Dialog(title, message, Alert, WARNING);
      r := AlertResult(s);
    }

    method Error(title: Text, message: Text) returns (r: WVResult)
      requires Linked()
      modifies ffi`history
      ensures r == AlertResult(GatedOutcome(live.alive, title, message, ffi.dialogReply))
      ensures r.Ok? ==> ffi.history == old(ffi.history) + [CallDialog(Alert, ERROR, title, message)]
      ensures r.Err? ==> ffi.history == old(ffi.history)
    {
      var s := Dialog(title, message, Alert, ERROR);
      r := AlertResult(s);
    }
  }
}
