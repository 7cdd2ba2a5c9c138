/** Go's fixed-width integer types, the conversions the collectors apply
    to them, and an opaque float64. */
module GoTypes {

  const TWO_32: int := 0x1_0000_0000
  const TWO_63: int := 0x8000_0000_0000_0000
  const TWO_64: int := 0x1_0000_0000_0000_0000

  newtype uint32 = x: int | 0 <= x < 0x1_0000_0000
  newtype uint64 = x: int | 0 <= x < 0x1_0000_0000_0000_0000
  newtype int64 = x: int | -0x8000_0000_0000_0000 <= x < 0x8000_0000_0000_0000

  /** A float64, kept as its IEEE-754 bit pattern. The model only copies
      such values; it never does arithmetic on them. */
  datatype Float64 = Float64Bits(bits: uint64)

  /** The float64 zero value, +0.0. */
  const ZeroFloat: Float64 := Float64Bits(0)

  datatype Option<T> = None | Some(value: T)

  /** Go's `a + b` on uint32: the sum modulo 2^32. */
  function AddUint32(a: uint32, b: uint32): (r: uint32)
    ensures a as int + b as int < TWO_32 ==> r as int == a as int + b as int
    ensures TWO_32 <= a as int + b as int ==> r as int == a as int + b as int - TWO_32
  {
    ((a as int + b as int) % TWO_32) as uint32
  }

  /** Go's `int64(x)` for a uint64 `x`: the same 64 bits read as a
      two's-complement number: a counter below 2^63 is kept exactly, a
      larger one comes out negative. */
  function Int64FromUint64(x: uint64): (r: int64)
    ensures x as int < TWO_63 ==> r as int == x as int
    ensures TWO_63 <= x as int ==> r < 0
  {
    if x as int < TWO_63 then x as int as int64 else (x as int - TWO_64) as int64
  }

  /** Go's `uint64(i)` for an int64 `i`; the inverse reading of the same bits. */
  function Uint64FromInt64(i: int64): (r: uint64)
    ensures (r as int - i as int) % TWO_64 == 0
  {
    if 0 <= i then i as int as uint64 else (i as int + TWO_64) as uint64
  }

  /** Go's `int64(n)` for a uint32 `n`: always exact. */
  function Int64FromUint32(n: uint32): (r: int64)
    ensures r as int == n as int
  {
    n as int as int64
  }

  /** The reinterpretation keeps every value below 2^63 and maps every other
      value x to x - 2^64. */
  lemma Int64FromUint64Value(x: uint64)
    ensures x as int < TWO_63 ==> Int64FromUint64(x) as int == x as int
    ensures TWO_63 <= x as int ==> Int64FromUint64(x) as int == x as int - TWO_64
  {
  }

  /** The reinterpretation keeps the value modulo 2^64, and the result is
      negative exactly when the top bit of x is set. */
  lemma Int64FromUint64Congruent(x: uint64)
    ensures (Int64FromUint64(x) as int - x as int) % TWO_64 == 0
    ensures Int64FromUint64(x) < 0 <==> TWO_63 <= x as int
  {
  }

  /** Two int64 values congruent modulo 2^64 are equal, so the contract of
      Int64FromUint64 pins down its result. */
  lemma Int64Congruent(a: int64, b: int64)
    requires (a as int - b as int) % TWO_64 == 0
    ensures a == b
  {
  }

  /** Reading the bits as int64 and back gives the original uint64. */
  lemma Uint64RoundTrip(x: uint64)
    ensures Uint64FromInt64(Int64FromUint64(x)) == x
  {
  }

  /** Reading an int64's bits as uint64 and back gives the original int64. */
  lemma Int64RoundTrip(i: int64)
    ensures Int64FromUint64(Uint64FromInt64(i)) == i
  {
  }
}
