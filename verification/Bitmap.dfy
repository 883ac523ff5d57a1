/**
 The bitmap of received chunks: words of 64 bits that stand for a set, and its least missing
 element.
 */
module Bitmap {
  import opened BitWord

  predicate TestBit(w: bv64, k: nat)
    requires k < 64
  {
    TestAt(w, k as bv6)
  }

  function SetBit(w: bv64, k: nat): bv64
    requires k < 64
  {
    SetAt(w, k as bv6)
  }

  /** Bit `k` of the words, 64 to a word; past the end there is none. */
  predicate Has(words: seq<bv64>, k: nat) { k / 64 < |words| && TestBit(words[k / 64], k % 64) }

  /** The set a bitmap stands for. */
  ghost function Bits(words: seq<bv64>): set<nat> { set k: nat | k < 64 * |words| && Has(words, k) }

  lemma NarrowBack(a: nat)
    requires a < 64
    ensures (a as bv6) as int == a
  {
  }

  lemma TestAfterSet(w: bv64, j: nat, k: nat)
    requires j < 64 && k < 64
    ensures TestBit(SetBit(w, j), k) <==> TestBit(w, k) || k == j
  {
    hide TestAt, SetAt;
    TestSet(w, j as bv6, k as bv6);
    NarrowBack(j);
    NarrowBack(k);
  }

  lemma HasAfterSet(words: seq<bv64>, j: nat, k: nat)
    requires j / 64 < |words|
    ensures Has(words[j / 64 := SetBit(words[j / 64], j % 64)], k) <==> Has(words, k) || k == j
  {
    hide TestBit, SetBit;
    if k / 64 == j / 64 { TestAfterSet(words[j / 64], j % 64, k % 64); }
  }

  method BitmapHas(bitmap: array<bv64>, k: nat) returns (b: bool)
    ensures b <==> k in Bits(bitmap[..])
  {
    hide TestBit;
    var idx := k / 64;
    if idx >= bitmap.Length { return false; }
    b := TestBit(bitmap[idx], k % 64);
  }

  /** Setting a bit adds exactly that element, or nothing when it is out of range. */
  method BitmapSet(bitmap: array<bv64>, k: nat)
    modifies bitmap
    ensures Bits(bitmap[..]) == Bits(old(bitmap[..])) + (if k < 64 * bitmap.Length then {k} else {})
  {
    hide SetBit, TestBit;
    var idx := k / 64;
    if idx < bitmap.Length {
      ghost var before := bitmap[..];
      bitmap[idx] := SetBit(bitmap[idx], k % 64);
      assert bitmap[..] == before[idx := bitmap[idx]];
      forall i: nat ensures Has(bitmap[..], i) <==> Has(before, i) || i == k { HasAfterSet(before, k, i); }
    }
  }

  /** The least element missing from a set, or the limit. */
  ghost predicate IsLeastMissing(have: set<nat>, limit: nat, n: nat) {
    && n <= limit && (n < limit ==> n !in have)
    && forall i: nat :: i < n ==> i in have
  }

  function LeastMissing(have: set<nat>, limit: nat, i: nat): (n: nat)
    requires i <= limit
    ensures (forall j: nat :: j < i ==> j in have) ==> IsLeastMissing(have, limit, n)
    decreases limit - i
  {
    if i < limit && i in have then LeastMissing(have, limit, i + 1) else i
  }

  method BitmapMaxContinuous(bitmap: array<bv64>, limit: nat) returns (n: nat)
    ensures IsLeastMissing(Bits(bitmap[..]), limit, n) && n == LeastMissing(Bits(bitmap[..]), limit, 0)
  {
    ghost var have := Bits(bitmap[..]);
    n := 0;
    while n < limit
      invariant n <= limit && forall i: nat :: i < n ==> i in have
      invariant LeastMissing(have, limit, n) == LeastMissing(have, limit, 0)
    {
      var b := BitmapHas(bitmap, n);
      if !b { return; }
      n := n + 1;
    }
  }

  lemma EmptyBits(words: seq<bv64>)
    requires forall i :: 0 <= i < |words| ==> words[i] == 0
    ensures Bits(words) == {}
  {
    hide TestAt;
    forall k: nat ensures !Has(words, k) { ZeroHasNone((k % 64) as bv6); }
  }
}
