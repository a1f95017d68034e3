/** Types shared by the modules of this project. */
module Prelude {

  datatype Option<+T> = None | Some(value: T)

  /** `dbc_status`. */
  datatype Status = Success | ErrConn | ErrQuery | ErrParam | ErrUnsupported | ErrAbi | ErrNoMem

  /** An octet. */
  type byte = x: int | 0 <= x < 256

  function Min(a: int, b: int): int {
    if a < b then a else b
  }

  /** The bounds of a C `int` on every platform the program supports. */
  const INT_MAX: int := 0x7FFF_FFFF
  const INT_MIN: int := -0x8000_0000

}
