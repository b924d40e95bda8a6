/** Fixed-width Rust integer types as subset types of `int`, and the
    `Option`/`Result` wrappers the firmware's signatures use. Arithmetic is
    done on `int`; a value that must fit a width is checked when it is stored
    into one of these types, so an overflow the Rust code would panic on is a
    precondition of the member that performs it. */
module RustTypes {

  const U16_MAX: int := 0xFFFF
  const U32_MAX: int := 0xFFFF_FFFF
  const U64_MAX: int := 0xFFFF_FFFF_FFFF_FFFF

  type i8 = x: int | -128 <= x <= 127
  type i16 = x: int | -32768 <= x <= 32767
  type u16 = x: int | 0 <= x <= U16_MAX
  type u32 = x: int | 0 <= x <= U32_MAX
  type u64 = x: int | 0 <= x <= U64_MAX

  datatype Option<+T> = None | Some(value: T)

  datatype Result<+T, +E> = Ok(value: T) | Err(error: E)

  function Min(a: int, b: int): int
  {
    if a <= b then a else b
  }

  function Abs(a: int): nat
  {
    if a < 0 then -a else a
  }
}
