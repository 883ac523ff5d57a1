/** Testing and setting one bit of a 64-bit word. */
module BitWord {
  predicate TestAt(w: bv64, k: bv6) { w & (1 << k) != 0 }

  function SetAt(w: bv64, k: bv6): bv64 { w | (1 << k) }

  lemma BitOf(w: bv64, j: bv6, k: bv6)
    ensures (w | (1 << j)) & (1 << k) != 0 <==> w & (1 << k) != 0 || j == k
  {
  }

  lemma TestOr(w: bv64, j: bv6, k: bv6)
    ensures TestAt(w | (1 << j), k) <==> TestAt(w, k) || j == k
  {
    hide SetAt;
    BitOf(w, j, k);
  }

  /** Setting a bit changes that bit and no other. */
  lemma TestSet(w: bv64, j: bv6, k: bv6)
    ensures TestAt(SetAt(w, j), k) <==> TestAt(w, k) || j == k
  {
    hide TestAt;
    TestOr(w, j, k);
  }

  lemma ZeroHasNone(k: bv6)
    ensures !TestAt(0, k)
  {
  }
}
