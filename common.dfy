/** Types shared by every module of the model: optional values, the Java
    exceptions the modelled code throws, results that carry them, and the
    Java fixed-width integers. */
module Common {

  datatype Option<+T> = None | Some(value: T)

  /** The exceptions that the modelled operations raise.  `AssertionFailed`
      stands for a failed `AssertUtil` assertion, `RejectedExecution` for an
      execution context that refuses submitted work, and the two wrappers for
      exceptions re-thrown with a cause. */
  datatype Exc =
    | IllegalState
    | IllegalArgument
    | NullPointer
    | NumberFormat
    | AssertionFailed
    | RejectedExecution
    | IllegalStateCausedBy(cause: Exc)
    | RuntimeCausedBy(cause: Exc)

  /** A value, or the exception thrown instead of returning one. */
  datatype Result<+T> = Ok(value: T) | Err(error: Exc)

  const INT_MIN: int := -0x8000_0000
  const INT_MAX: int := 0x7fff_ffff
  const LONG_MIN: int := -0x8000_0000_0000_0000
  const LONG_MAX: int := 0x7fff_ffff_ffff_ffff

  /** Java `int` */
  newtype Int32 = x: int | -0x8000_0000 <= x < 0x8000_0000

  /** Java `long` */
  newtype Int64 = x: int | -0x8000_0000_0000_0000 <= x < 0x8000_0000_0000_0000

  /** Two's-complement wrap-around of Java `int` arithmetic. */
  function Wrap32(x: int): (r: Int32)
    ensures INT_MIN <= x <= INT_MAX ==> r as int == x
    ensures (r as int - x) % 0x1_0000_0000 == 0
  {
    var m := (x + 0x8000_0000) % 0x1_0000_0000;
    assert (m - 0x8000_0000 - x) % 0x1_0000_0000 == 0;
    (m - 0x8000_0000) as Int32
  }
}
