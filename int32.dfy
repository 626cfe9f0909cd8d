/** The API's `int32` fields: their range and two's-complement wrap-around. */
module Int32 {

  const Min: int := -0x8000_0000
  const Max: int := 0x7fff_ffff
  const Modulus: int := 0x1_0000_0000

  predicate InRange(x: int) {
    Min <= x <= Max
  }

  /** The `int32` value that an unbounded integer `x` wraps to. */
  function Wrap(x: int): (r: int)
    ensures InRange(r)
    ensures InRange(x) ==> r == x
    ensures (x - r) % Modulus == 0
  {
    var k := (x - Min) / Modulus;
    assert x - Min == k * Modulus + (x - Min) % Modulus;
    (x - Min) % Modulus + Min
  }
}
