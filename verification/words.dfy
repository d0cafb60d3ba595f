/**
  Fixed-width arithmetic of the C sources, written out over unbounded integers:
  32-bit sequence numbers that wrap, and the byte orders used on the wire.
 */
module Words {
  const U16: int := 0x1_0000
  const U32: int := 0x1_0000_0000
  const U64: int := 0x1_0000_0000_0000_0000

  type byte = b: int | 0 <= b < 0x100
  type u16 = w: int | 0 <= w < 0x1_0000
  type u32 = w: int | 0 <= w < 0x1_0000_0000

  /** The 32-bit image of an unbounded counter. */
  function Wrap(n: int): u32 {
    n % U32
  }

  /** Unsigned 32-bit addition and subtraction, as C defines them. */
  function Add32(a: u32, k: int): u32 {
    (a + k) % U32
  }

  function Sub32(a: u32, b: u32): u32 {
    (a - b) % U32
  }

  function Min(a: int, b: int): int {
    if a < b then a else b
  }

  function Max(a: int, b: int): int {
    if a < b then b else a
  }

  /** Adding to a wrapped counter is wrapping the advanced counter. */
  lemma WrapAdd(n: int, k: int)
    ensures Add32(Wrap(n), k) == Wrap(n + k)
  {
  }

  /** Wrapped subtraction recovers the true distance of two counters less than 2^32 apart. */
  lemma WrapSub(a: int, b: int)
    requires 0 <= a - b < U32
    ensures Sub32(Wrap(a), Wrap(b)) == a - b
  {
    var d := a - b;
    assert a == b + d;
    assert (Wrap(b) + d) % U32 == Wrap(a);
    var qa, qb := a / U32, b / U32;
    assert Wrap(a) - Wrap(b) == d - (qa - qb) * U32;
    assert (d - (qa - qb) * U32) % U32 == d;
  }

  /** Two counters less than 2^32 apart have equal images only when they are equal. */
  lemma WrapInjective(a: int, b: int)
    requires 0 <= a - b < U32
    ensures Wrap(a) == Wrap(b) <==> a == b
  {
    WrapSub(a, b);
  }
}
