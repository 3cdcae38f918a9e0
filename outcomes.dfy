/** Error outcomes of the Python layer, and the small wrapper types it needs. */
module Outcomes {

  /** Why a call of the Python layer raises instead of returning. */
  datatype Fault =
    | AssertionFailed   // an `assert` in a layout converter fails
    | ArgumentCount     // ctypes refuses CLIB.potencial called with 4 of its 6 declared arguments
    | UnpackMismatch    // three returned arrays unpacked into two names
    | NanToInt          // int() applied to the NaN variance of an empty pilot sample
    | DivisionByZero    // a Python division by zero
    | ComplexCast       // a complex power stored into a real array

  datatype Result<T> = Ok(value: T) | Err(fault: Fault)

  datatype Option<T> = None | Some(value: T)
}
