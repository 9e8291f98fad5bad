/**
 * Values shared by the whole model: the bytes of a Rust string as they cross
 * into the native side, the crate's `Error` type with its `WVResult`, and
 * `CString::new`, the one conversion every call into the engine goes through.
 */
module Errors {

  newtype byte = x: int | 0 <= x < 256

  /** The UTF-8 bytes of a Rust `&str` (no Unicode decoding is modelled). */
  type Text = seq<byte>

  const NUL: byte := 0

  predicate HasNul(s: Text) {
    NUL in s
  }

  /** The bytes of an ASCII string literal. */
  function Ascii(s: string): (r: Text)
    requires forall i :: 0 <= i < |s| ==> s[i] as int < 128
    ensures |r| == |s|
    ensures forall i :: 0 <= i < |s| ==> r[i] as int == s[i] as int
  {
    seq(|s|, i requires 0 <= i < |s| => s[i] as int as byte)
  }

  datatype Option<T> = None | Some(value: T)

  /** The variants of the crate's `Error` that the core produces. */
  datatype Error =
    | Initialization
    | Dispatch
    | JsEvaluation
    | CssInjection
    | UninitializedField(field: string)
    | NulByte

  datatype Result<T> = Ok(value: T) | Err(error: Error)

  type WVResult = Result<()>

  /** `CString::new`: fails exactly when the text holds a NUL byte, and otherwise keeps it as it is. */
  function CStringNew(s: Text): (r: Result<Text>)
    ensures r.Ok? <==> !HasNul(s)
    ensures r.Ok? ==> r.value == s
    ensures r.Err? ==> r.error == NulByte
  {
    if HasNul(s) then Err(NulByte) else Ok(s)
  }

  /** Literals are free of NUL bytes. */
  lemma AsciiHasNoNul(s: string)
    requires forall i :: 0 <= i < |s| ==> 0 < s[i] as int < 128
    ensures !HasNul(Ascii(s))
  {
  }
}
