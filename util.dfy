/** Shared vocabulary: the C integer widths the program uses, an optional value, and
    the two ways a call can end (it returns, or the process calls exit()). */
module Util {

  /** A C `int` on the 32-bit targets the template is written for. */
  newtype i32 = x: int | -0x8000_0000 <= x < 0x8000_0000

  /** A C `uint32_t`. */
  newtype u32 = x: int | 0 <= x < 0x1_0000_0000

  datatype Option<+T> = None | Some(value: T)

  /** `Continue`: the call returns to its caller. `Exit`: the call ended in
      `exit(EXIT_FAILURE)` (directly, or through STOP_ON_ERROR in a build
      without NDEBUG). */
  datatype Status = Continue | Exit
}
