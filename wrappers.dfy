/** Option and Result, the two failure-carrying shapes the runtime's Rust code
    uses (`Option<T>` and `Result<T, String>`), and the machine integer types
    that appear in its signatures. */
module Wrappers {

  datatype Option<+T> = None | Some(value: T)

  /** `Result<T, String>`: errors are carried as their message. */
  datatype Result<+T> = Ok(value: T) | Err(error: string)

  const TWO_8: int := 0x100
  const TWO_16: int := 0x1_0000
  const TWO_32: int := 0x1_0000_0000
  const TWO_64: int := 0x1_0000_0000_0000_0000
  const TWO_128: int := 0x1_0000_0000_0000_0000_0000_0000_0000_0000

  type u8 = x: int | 0 <= x < 0x100
  type u32 = x: int | 0 <= x < 0x1_0000_0000
  type u64 = x: int | 0 <= x < 0x1_0000_0000_0000_0000
  type u128 = x: int | 0 <= x < 0x1_0000_0000_0000_0000_0000_0000_0000_0000
  type i32 = x: int | -0x8000_0000 <= x < 0x8000_0000
  type i64 = x: int | -0x8000_0000_0000_0000 <= x < 0x8000_0000_0000_0000
}
