/**
 * Machine integers and panics shared by the bytecode and token modules.
 * A Rust panic (an out-of-range index, an `invalid opcode`) is not an
 * exception anyone catches here, so the model makes it an explicit outcome.
 */
module Prims {

  const U32_LIMIT: int := 0x1_0000_0000
  const USIZE_LIMIT: int := 0x1_0000_0000_0000_0000

  /** `u8` */
  type Byte = b: int | 0 <= b < 256
  /** `u32` */
  type U32 = x: int | 0 <= x < U32_LIMIT
  /** `usize`, on a 64-bit target */
  type USize = x: int | 0 <= x < USIZE_LIMIT

  /** Why a computation panicked. */
  datatype Fault =
    | InvalidOpcode(byte: Byte)                  // `panic!("invalid opcode")`
    | IndexOutOfBounds(index: int, len: int)     // indexing a `Vec` past its end

  datatype Option<+T> = None | Some(value: T)

  /** A computation either finishes with a value or panics. */
  datatype Outcome<+T> = Done(value: T) | Panicked(fault: Fault)
}
