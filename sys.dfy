/** The plain data of the `webview-sys` crate: dialog kinds and dialog flags. */
module Sys {

  /** `DialogType`, a `#[repr(C)]` enum. */
  datatype DialogType = Open | Save | Alert {
    /** The discriminant the native side receives. */
    function Discriminant(): (d: int)
      ensures 0 <= d < 3
      ensures d == 0 <==> this == Open
      ensures d == 1 <==> this == Save
      ensures d == 2 <==> this == Alert
    {
      match this
      case Open => 0
      case Save => 1
      case Alert => 2
    }
  }

  /** `DialogFlags`, a `u32` bit set. */
  type DialogFlags = bv32

  const FILE: DialogFlags := 0x0
  const DIRECTORY: DialogFlags := 0x1
  const INFO: DialogFlags := 0x2
  const WARNING: DialogFlags := 0x4
  const ERROR: DialogFlags := 0x6

  /** `Contains` of the bit set. */
  predicate Contains(flags: DialogFlags, flag: DialogFlags) {
    flags & flag == flag
  }

  /** Distinct kinds reach the native side as distinct numbers. */
  lemma DiscriminantInjective(a: DialogType, b: DialogType)
    requires a.Discriminant() == b.Discriminant()
    ensures a == b
  {
  }

  /** `FILE` is the empty set: it adds nothing to any flags and every set contains it. */
  lemma FileIsEmpty(f: DialogFlags)
    ensures FILE == 0
    ensures f | FILE == f && Contains(f, FILE)
  {
  }

  /** `ERROR` is exactly the union of `INFO` and `WARNING`. */
  lemma ErrorIsInfoAndWarning()
    ensures ERROR == INFO | WARNING
    ensures Contains(ERROR, INFO) && Contains(ERROR, WARNING)
    ensures !Contains(INFO, WARNING) && !Contains(WARNING, INFO)
  {
  }

  /** The `DIRECTORY` bit is shared with none of the alert flags. */
  lemma DirectoryDisjointFromAlerts()
    ensures DIRECTORY & INFO == 0 && DIRECTORY & WARNING == 0 && DIRECTORY & ERROR == 0
    ensures !Contains(ERROR, DIRECTORY)
  {
  }
}
