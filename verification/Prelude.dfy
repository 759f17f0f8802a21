/** Types used everywhere: optional values, three-way comparison results, machine-width numbers. */
module Prelude {

  datatype Option<+T> = None | Some(value: T)

  datatype Ordering = Less | Equal | Greater {

    /** The first decisive result of a chain of comparisons. */
    function Then(next: Ordering): Ordering {
      if this == Equal then next else this
    }

    function Reverse(): Ordering {
      match this
      case Less => Greater
      case Equal => Equal
      case Greater => Less
    }
  }

  function Compare(a: int, b: int): Ordering {
    if a < b then Less else if a == b then Equal else Greater
  }

  type u4 = x: int | 0 <= x < 0x10
  type u8 = x: int | 0 <= x < 0x100
  type u12 = x: int | 0 <= x < 0x1000
  type u16 = x: int | 0 <= x < 0x1_0000
  type u32 = x: int | 0 <= x < 0x1_0000_0000
  type u48 = x: int | 0 <= x < 0x1_0000_0000_0000
  type u64 = x: int | 0 <= x < 0x1_0000_0000_0000_0000
  type i8 = x: int | -0x80 <= x < 0x80
  type i16 = x: int | -0x8000 <= x < 0x8000
  type i64 = x: int | -0x8000_0000_0000_0000 <= x < 0x8000_0000_0000_0000

  /** A cast to a signed 64-bit number keeps the low bits. */
  function WrapI64(x: int): i64 { (x + 0x8000_0000_0000_0000) % 0x1_0000_0000_0000_0000 - 0x8000_0000_0000_0000 }
}
