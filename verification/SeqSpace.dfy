/**
 Serial-number arithmetic on 32-bit TCP sequence numbers.

 A sequence number on the wire is the low 32 bits of an unbounded stream
 position. The comparisons take the sign of the 32-bit difference; they agree
 with the order of the positions exactly on spans below 2^31.
 */
module SeqSpace {

  const TWO31: int := 0x8000_0000
  const TWO32: int := 0x1_0000_0000

  type u32 = x: int | 0 <= x < 0x1_0000_0000
  type byte = x: int | 0 <= x < 256

  function Min(a: int, b: int): int { if a < b then a else b }

  function Max(a: int, b: int): int { if a > b then a else b }

  function Pow(b: nat, n: nat): (p: nat)
    ensures b > 0 ==> p > 0
  {
    if n == 0 then 1 else b * Pow(b, n - 1)
  }

  datatype Option<+T> = None | Some(value: T)

  /** The wire form of a position: its low 32 bits. */
  function Wrap(p: int): u32 { p % TWO32 }

  function Add32(a: u32, n: int): u32 { (a + n) % TWO32 }

  function Sub32(a: u32, b: u32): u32 { (a - b) % TWO32 }

  /** Reinterpretation of an unsigned word as a signed one. */
  function Int32(x: u32): int { if x < TWO31 then x else x - TWO32 }

  predicate SeqBefore(a: u32, b: u32) { Int32(Sub32(a, b)) < 0 }

  predicate SeqAfter(a: u32, b: u32) { Int32(Sub32(a, b)) > 0 }

  predicate SeqBeforeEq(a: u32, b: u32) { Int32(Sub32(a, b)) <= 0 }

  predicate SeqAfterEq(a: u32, b: u32) { Int32(Sub32(a, b)) >= 0 }

  predicate SeqInRange(s: u32, lo: u32, hi: u32) { SeqAfterEq(s, lo) && SeqBefore(s, hi) }

  /** Positions close enough for the signed difference to be exact. */
  predicate Near(p: int, q: int) { -TWO31 <= p - q < TWO31 }

  /** Wrapping commutes with 32-bit addition and subtraction. */
  lemma WrapAdd(p: int, n: int)
    ensures Add32(Wrap(p), n) == Wrap(p + n)
  {
  }

  lemma DifferenceWraps(p: int, q: int)
    ensures Sub32(Wrap(p), Wrap(q)) == Wrap(p - q)
  {
  }

  /** The signed 32-bit difference recovers the distance between near positions. */
  lemma Distance(p: int, q: int)
    requires Near(p, q)
    ensures Int32(Sub32(Wrap(p), Wrap(q))) == p - q
    ensures p >= q ==> Sub32(Wrap(p), Wrap(q)) == p - q
  {
    DifferenceWraps(p, q);
  }

  /** All four comparisons agree with the order of near positions. */
  lemma SerialOrder(p: int, q: int)
    requires Near(p, q)
    ensures SeqBefore(Wrap(p), Wrap(q)) <==> p < q
    ensures SeqAfter(Wrap(p), Wrap(q)) <==> p > q
    ensures SeqBeforeEq(Wrap(p), Wrap(q)) <==> p <= q
    ensures SeqAfterEq(Wrap(p), Wrap(q)) <==> p >= q
    ensures Wrap(p) == Wrap(q) <==> p == q
  {
    Distance(p, q);
  }

  /** Near is exactly the range of agreement for positions less than one lap apart. */
  lemma SerialOrderExact(p: int, q: int)
    requires -TWO32 < p - q < TWO32
    ensures (SeqBefore(Wrap(p), Wrap(q)) <==> p < q) <==> Near(p, q)
  {
    DifferenceWraps(p, q);
    assert Wrap(p - q) == if p >= q then p - q else p - q + TWO32;
  }

  /** At distance 2^31 each number is before the other: the order is not antisymmetric there. */
  lemma HalfwayIsBothWays(p: int)
    ensures SeqBefore(Wrap(p + TWO31), Wrap(p)) && SeqBefore(Wrap(p), Wrap(p + TWO31))
  {
    DifferenceWraps(p, p + TWO31);
    DifferenceWraps(p + TWO31, p);
  }

  /** The position nearest to base whose wire form is x. */
  function Lift(base: int, x: u32): (p: int)
    ensures Wrap(p) == x && Near(p, base)
  {
    base + Int32(Sub32(x, Wrap(base)))
  }

  /** Lift undoes Wrap for positions near the base. */
  lemma LiftWrap(base: int, p: int)
    requires Near(p, base)
    ensures Lift(base, Wrap(p)) == p
  {
    Distance(p, base);
  }
}
