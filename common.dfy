/** Value types shared by the model of the mock game-platform server. */
module Common {

  /** Go's `int` on the 64-bit platforms the server is built for. */
  newtype Int64 = x: int | -0x8000_0000_0000_0000 <= x < 0x8000_0000_0000_0000

  const MaxInt64: int := 0x7FFF_FFFF_FFFF_FFFF

  /** Reduces an unbounded integer to the two's-complement value Go's 64-bit
      arithmetic leaves behind. */
  function Wrap64(x: int): (r: Int64)
    ensures -0x8000_0000_0000_0000 <= x <= MaxInt64 ==> r as int == x
    ensures (r as int - x) % 0x1_0000_0000_0000_0000 == 0
  {
    var m := x % 0x1_0000_0000_0000_0000;
    if m <= MaxInt64 then m as Int64 else (m - 0x1_0000_0000_0000_0000) as Int64
  }

  datatype Option<T> = None | Some(value: T)

  /** The outcome of decoding a JSON request body: the decoded value, or the
      decoder's error text. */
  datatype Result<T> = Ok(value: T) | Err(msg: string)
}
