/**
 Pruning the relay pool: eviction split between the probation tier, oldest first, and the main
 tier, lowest score first behind three rounds of protection.
 */
module RelayPool {
  import opened SeqSpace

  type Pid = string

  /** Times in nanoseconds; the score as the scoring functions give it. */
  datatype Item = Item(inMain: bool, connectedSince: int, lastResult: int, score: real)

  const RECENT: int := 300_000_000_000
  const UPTIME_KEPT: nat := 10

  type Pool = map<Pid, Item>

  // ------------------------------------------------------------------ what is promised

  /** A main relay that is neither protected nor active in the last five minutes. */
  predicate Eligible(items: Pool, prot: set<Pid>, now: int, p: Pid) {
    p in items && items[p].inMain && p !in prot && now - items[p].lastResult >= 300_000_000_000
  }

  ghost function Candidates(items: Pool, prot: set<Pid>, now: int): set<Pid> {
    set p | p in items && Eligible(items, prot, now, p)
  }

  /** One fifth, rounded up. */
  function Fifth(n: nat): nat { (n + 4) / 5 }

  /** What is left of n candidates behind the top fifth by score and the top ten by uptime. */
  function Spare(n: nat): nat { if n - Fifth(n) > 10 then n - Fifth(n) - 10 else 0 }

  ghost function Tier(items: Pool, main: bool): set<Pid> { set p | p in items && items[p].inMain == main }

  /** The pool only shrinks, never below the low mark, and stops above it only without probation relays. */
  ghost predicate Shrunk(before: Pool, after: Pool, low: nat) {
    && after.Keys <= before.Keys && (forall p :: p in after ==> after[p] == before[p])
    && (|before| <= low ==> after == before)
    && (|before| > low ==> |after| >= low)
    && (|before| > low && |after| > low ==> Tier(after, false) == {})
  }

  /** Probation relays go oldest first. */
  ghost predicate OldestGo(before: Pool, after: Pool) {
    forall p, q :: p in before && !before[p].inMain && p !in after && q in after && q in before && !before[q].inMain
      ==> before[p].connectedSince <= before[q].connectedSince
  }

  /** Main relays go only when eligible, and no more of them than are spare. */
  ghost predicate MainSpared(before: Pool, prot: set<Pid>, now: int, after: Pool) {
    && (forall p :: p in Tier(before, true) && p !in after ==> Eligible(before, prot, now, p))
    && |Tier(before, true) - after.Keys| <= Spare(|Candidates(before, prot, now)|)
  }

  /**
   How many main relays go: half of what is needed, rounded up, or all that probation cannot give,
   but no more than there are and than are spare.
   */
  ghost predicate MainShare(before: Pool, prot: set<Pid>, now: int, after: Pool, low: nat) {
    var need, probation, main := |before| - low, |Tier(before, false)|, |Tier(before, true)|;
    need > 0 ==>
      |Tier(before, true) - after.Keys| ==
      Min(Min(main, Max((need + 1) / 2, need - probation)), Spare(|Candidates(before, prot, now)|))
  }

  /** Every relay of a scores at least as high as every one of b. */
  ghost predicate ScoresAbove(items: Pool, a: set<Pid>, b: set<Pid>) {
    forall q, p :: q in a && p in b && q in items && p in items ==> items[q].score >= items[p].score
  }

  /** Every relay of a has been connected at least as long as every one of b. */
  ghost predicate LongerUp(items: Pool, a: set<Pid>, b: set<Pid>) {
    forall q, p :: q in a && p in b && q in items && p in items ==> items[q].connectedSince <= items[p].connectedSince
  }

  /** Behind every evicted main relay stand a fifth of better or equal score and ten of longer or equal uptime. */
  ghost predicate Outranked(before: Pool, prot: set<Pid>, now: int, after: Pool, top: set<Pid>, veterans: set<Pid>) {
    var cands, evicted := Candidates(before, prot, now), Tier(before, true) - after.Keys;
    && top <= cands && veterans <= cands && top !! veterans
    && (evicted != {} ==> |top| == Fifth(|cands|) && |veterans| == 10 && top + veterans <= after.Keys)
    && ScoresAbove(before, top, evicted) && LongerUp(before, veterans, evicted)
  }

  /** Among the candidates that no round protects, the lowest scores go. */
  ghost predicate LowestGo(before: Pool, prot: set<Pid>, now: int, after: Pool, top: set<Pid>, veterans: set<Pid>) {
    var open := Candidates(before, prot, now) - top - veterans;
    ScoresAbove(before, open * after.Keys, open - after.Keys)
  }

  // --------------------------------------------------------------------- lists of relays

  predicate Distinct(s: seq<Pid>) { forall i, j :: 0 <= i < j < |s| ==> s[i] != s[j] }

  function Elems(s: seq<Pid>): set<Pid> { set p | p in s }

  lemma {:induction false} DistinctSize(s: seq<Pid>)
    requires Distinct(s)
    ensures |Elems(s)| == |s|
    decreases s
  {
    if s != [] {
      var t := s[..|s| - 1];
      DistinctSize(t);
      assert Elems(s) == Elems(t) + {s[|s| - 1]};
    }
  }

  predicate Ascending(key: map<Pid, real>, s: seq<Pid>)
    requires Elems(s) <= key.Keys
  {
    assert forall i :: 0 <= i < |s| ==> s[i] in Elems(s);
    forall i, j :: 0 <= i < j < |s| ==> key[s[i]] <= key[s[j]]
  }

  /** Any sort will do: the proofs use only that the result is ordered and has the same members. */
  method SortBy(key: map<Pid, real>, s: seq<Pid>) returns (r: seq<Pid>)
    requires Distinct(s) && Elems(s) <= key.Keys
    ensures |r| == |s| && Distinct(r) && Elems(r) == Elems(s)
    ensures Ascending(key, r)
  {
    hide Distinct, Ascending, Elems;
    r := [];
    SortStart(key, s);
    for i := 0 to |s|
      invariant |r| == i && Distinct(r) && Elems(r) == Elems(s[..i])
      invariant Elems(s[..i]) <= Elems(s) && Ascending(key, r)
    {
      NextOf(s, i);
      r := InsertBy(key, r, s[i]);
    }
    assert s[..|s|] == s;
  }

  /** One step of the insertion sort. */
  method InsertBy(key: map<Pid, real>, r: seq<Pid>, x: Pid) returns (t: seq<Pid>)
    requires Distinct(r) && Elems(r) <= key.Keys && Ascending(key, r) && x in key && x !in Elems(r)
    ensures |t| == |r| + 1 && Distinct(t) && Elems(t) == Elems(r) + {x} && Ascending(key, t)
  {
    hide Distinct, Ascending;
    var k := 0;
    assert forall i :: 0 <= i < |r| ==> r[i] in Elems(r);
    while k < |r| && key[r[k]] <= key[x]
      invariant k <= |r| && forall j :: 0 <= j < k ==> key[r[j]] <= key[x]
    {
      k := k + 1;
    }
    InsertedElems(r, k, x);
    InsertedDistinct(r, k, x);
    InsertedAscending(key, r, k, x);
    t := Inserted(r, k, x);
  }

  lemma SortStart(key: map<Pid, real>, s: seq<Pid>)
    ensures Distinct([]) && Elems(s[..0]) == Elems([]) == {} && Ascending(key, [])
  {
  }

  lemma NextOf(s: seq<Pid>, i: nat)
    requires Distinct(s) && i < |s|
    ensures s[i] !in Elems(s[..i]) && Elems(s[..i + 1]) == Elems(s[..i]) + {s[i]} && s[i] in Elems(s)
    ensures Elems(s[..i + 1]) <= Elems(s)
  {
  }

  function Inserted(r: seq<Pid>, k: nat, x: Pid): (t: seq<Pid>)
    requires k <= |r|
    ensures |t| == |r| + 1 && forall i :: 0 <= i < |t| ==>
          t[i] == if i < k then r[i] else if i == k then x else r[i - 1]
  {
    r[..k] + [x] + r[k..]
  }

  lemma InsertedElems(r: seq<Pid>, k: nat, x: Pid)
    requires k <= |r|
    ensures Elems(Inserted(r, k, x)) == Elems(r) + {x}
  {
    var t := Inserted(r, k, x);
    assert t[k] == x;
    forall p | p in r ensures p in t {
      var i :| 0 <= i < |r| && r[i] == p;
      assert t[if i < k then i else i + 1] == p;
    }
  }

  lemma InsertedDistinct(r: seq<Pid>, k: nat, x: Pid)
    requires k <= |r| && Distinct(r) && x !in r
    ensures Distinct(Inserted(r, k, x))
  {
    var t := Inserted(r, k, x);
    forall i, j | 0 <= i < j < |t| ensures t[i] != t[j] {
      var a, b := if i < k then i else i - 1, if j < k then j else j - 1;
      if i != k { assert r[a] in r; }
      if j != k { assert r[b] in r; }
    }
  }

  lemma InsertedAscending(key: map<Pid, real>, r: seq<Pid>, k: nat, x: Pid)
    requires k <= |r| && x in key && Elems(r) <= key.Keys && Ascending(key, r)
    requires (forall j :: 0 <= j < k ==> key[r[j]] <= key[x]) && (k < |r| ==> key[x] <= key[r[k]])
    ensures Elems(Inserted(r, k, x)) <= key.Keys && Ascending(key, Inserted(r, k, x))
  {
    var t := Inserted(r, k, x);
    InsertedElems(r, k, x);
    forall i, j | 0 <= i < j < |t| ensures key[t[i]] <= key[t[j]] {
      if i == k { assert k < |r| && key[r[k]] <= key[r[j - 1]]; }
    }
  }

  // --------------------------------------------------------------------------- steps

  /** Nothing is added or changed. */
  ghost predicate Sub(before: Pool, after: Pool) {
    after.Keys <= before.Keys && forall p :: p in after ==> after[p] == before[p]
  }

  ghost function Left(before: Pool, after: Pool): set<Pid> { before.Keys - after.Keys }

  function SinceKey(items: Pool): map<Pid, real> { map p | p in items :: items[p].connectedSince as real }

  function ScoreKey(items: Pool, sign: real): map<Pid, real> { map p | p in items :: sign * items[p].score }

  /** What evicting k probation relays does. */
  ghost predicate ProbationStep(before: Pool, after: Pool, k: nat) {
    && Sub(before, after) && OldestGo(before, after) && Tier(after, true) == Tier(before, true)
    && |after| == |before| - k && |Tier(after, false)| == |Tier(before, false)| - k
  }

  /** What evicting k main relays does. */
  ghost predicate MainStep(before: Pool, prot: set<Pid>, now: int, after: Pool, top: set<Pid>, veterans: set<Pid>,
      k: nat) {
    && Sub(before, after) && Tier(after, false) == Tier(before, false) && |after| == |before| - k
    && MainSpared(before, prot, now, after)
    && Outranked(before, prot, now, after, top, veterans) && LowestGo(before, prot, now, after, top, veterans)
  }

  lemma TierSplit(items: Pool)
    ensures |Tier(items, true)| + |Tier(items, false)| == |items|
  {
    assert Tier(items, true) + Tier(items, false) == items.Keys;
    assert Tier(items, true) !! Tier(items, false);
  }

  lemma GoneSize(order: seq<Pid>, k: nat)
    requires Distinct(order) && k <= |order|
    ensures |Gone(order, k)| == k && Gone(order, k) <= Elems(order)
  {
    DistinctSize(order[..k]);
  }

  /** In an ordered list the first k rank before the rest. */
  lemma GoneFirst(key: map<Pid, real>, order: seq<Pid>, k: nat, p: Pid, q: Pid)
    requires Elems(order) <= key.Keys && Ascending(key, order)
    requires k <= |order| && p in Gone(order, k) && q in Elems(order) - Gone(order, k)
    ensures key[p] <= key[q]
  {
    var i :| 0 <= i < k && order[i] == p;
    var j :| 0 <= j < |order| && order[j] == q;
    assert forall n :: 0 <= n < k ==> order[..k][n] == order[n];
  }

  lemma OldestAreGone(items: Pool, order: seq<Pid>, k: nat)
    requires Elems(order) == Tier(items, false) && k <= |order| && Ascending(SinceKey(items), order)
    ensures OldestGo(items, items - Gone(order, k))
  {
    var after := items - Gone(order, k);
    forall p, q | p in items && !items[p].inMain && p !in after && q in after && !items[q].inMain
      ensures items[p].connectedSince <= items[q].connectedSince
    {
      assert p in Gone(order, k) && q in Tier(items, false);
      GoneFirst(SinceKey(items), order, k, p, q);
    }
  }

  lemma TiersWithout(items: Pool, gone: set<Pid>)
    requires gone <= Tier(items, false)
    ensures Tier(items - gone, true) == Tier(items, true) && Tier(items - gone, false) == Tier(items, false) - gone
    ensures |Tier(items, false) - gone| == |Tier(items, false)| - |gone|
  {
  }

  lemma ProbationGone(items: Pool, order: seq<Pid>, k: nat)
    requires Distinct(order) && Elems(order) == Tier(items, false) && k <= |order|
    requires Ascending(SinceKey(items), order)
    ensures |order| == |Tier(items, false)|
    ensures |items - Gone(order, k)| == |items| - k ==> ProbationStep(items, items - Gone(order, k), k)
  {
    hide OldestGo, Ascending, Distinct, SinceKey, Elems, Tier, Gone;
    OldestAreGone(items, order, k);
    DistinctSize(order);
    GoneSize(order, k);
    TiersWithout(items, Gone(order, k));
  }

  ghost predicate Precede(key: map<Pid, real>, a: set<Pid>, b: set<Pid>) {
    forall q, p :: q in a && p in b && q in key && p in key ==> key[q] <= key[p]
  }

  /** Protects the first k by rank and gives back the others. */
  method Behead(key: map<Pid, real>, s: seq<Pid>, k: nat) returns (rest: seq<Pid>, ghost head: set<Pid>)
    requires Distinct(s) && Elems(s) <= key.Keys
    ensures Distinct(rest) && |rest| == (if k < |s| then |s| - k else 0) && |head| == |s| - |rest|
    ensures head + Elems(rest) == Elems(s) && head !! Elems(rest)
    ensures Precede(key, head, Elems(rest))
  {
    if k >= |s| {
      DistinctSize(s);
      return [], Elems(s);
    }
    if k == 0 { return s, {}; }
    var order := SortBy(key, s);
    GoneSize(order, k);
    head, rest := Gone(order, k), order[k..];
    assert order == order[..k] + rest;
    forall p | p in rest ensures p !in head {
      var i :| 0 <= i < |rest| && rest[i] == p;
      assert order[k + i] == p;
    }
    forall q, p | q in head && p in Elems(rest) ensures key[q] <= key[p] { GoneFirst(key, order, k, q, p); }
  }

  /** How candidates divide: the top by score, the veterans by uptime, and the rest. */
  ghost predicate Divided(items: Pool, cands: set<Pid>, top: set<Pid>, veterans: set<Pid>, rest: set<Pid>)
    requires cands <= items.Keys
  {
    && cands == top + veterans + rest && top !! veterans && (top + veterans) !! rest
    && (rest != {} ==> |top| == Fifth(|cands|) && |veterans| == UPTIME_KEPT)
    && ScoresAbove(items, top, rest) && LongerUp(items, veterans, rest)
  }

  /** The second and third round of protection. */
  method Rounds(items: Pool, cands: seq<Pid>) returns (rest: seq<Pid>, ghost top: set<Pid>, ghost veterans: set<Pid>)
    requires Distinct(cands) && Elems(cands) <= items.Keys
    ensures Distinct(rest) && |rest| == Spare(|cands|)
    ensures Divided(items, Elems(cands), top, veterans, Elems(rest))
  {
    hide Distinct, Precede, Divided, ScoreKey, SinceKey;
    KeysOf(items);
    DistinctSize(cands);
    var topK := (|cands| + 4) / 5;
    var behind;
    behind, top := Behead(ScoreKey(items, -1.0), cands, topK);
    rest, veterans := Behead(SinceKey(items), behind, UPTIME_KEPT);
    assert rest == [] ==> Elems(rest) == {};
    assert Elems(rest) <= Elems(behind) && veterans <= Elems(behind);
    Divide(items, Elems(cands), top, Elems(behind), veterans, Elems(rest));
  }

  lemma Divide(items: Pool, cands: set<Pid>, top: set<Pid>, behind: set<Pid>, veterans: set<Pid>, rest: set<Pid>)
    requires cands <= items.Keys && top + behind == cands && veterans + rest == behind
    requires top !! behind && veterans !! rest
    requires rest != {} ==> |top| == Fifth(|cands|) && |veterans| == UPTIME_KEPT
    requires Precede(ScoreKey(items, -1.0), top, behind) && Precede(SinceKey(items), veterans, rest)
    ensures Divided(items, cands, top, veterans, rest)
  {
    RanksMean(items, top, behind);
    RanksMean(items, veterans, rest);
    hide Precede, ScoreKey, SinceKey;
    assert rest <= behind;
  }

  lemma KeysOf(items: Pool)
    ensures ScoreKey(items, -1.0).Keys == ScoreKey(items, 1.0).Keys == SinceKey(items).Keys == items.Keys
  {
  }

  lemma RanksMean(items: Pool, a: set<Pid>, b: set<Pid>)
    ensures Precede(ScoreKey(items, -1.0), a, b) ==> ScoresAbove(items, a, b)
    ensures Precede(SinceKey(items), a, b) ==> LongerUp(items, a, b)
  {
  }

  lemma DividedRest(items: Pool, cands: set<Pid>, top: set<Pid>, veterans: set<Pid>, rest: set<Pid>)
    requires cands <= items.Keys && Divided(items, cands, top, veterans, rest)
    ensures rest <= cands
  {
  }

  /** Those that go have the lowest scores of their set. */
  ghost predicate LowestOf(items: Pool, rest: set<Pid>, gone: set<Pid>) {
    gone <= rest <= items.Keys && ScoresAbove(items, rest - gone, gone)
  }

  lemma FirstByScore(items: Pool, order: seq<Pid>, k: nat)
    requires Distinct(order) && k <= |order| && Elems(order) <= items.Keys && Ascending(ScoreKey(items, 1.0), order)
    ensures |Gone(order, k)| == k && LowestOf(items, Elems(order), Gone(order, k))
  {
    GoneSize(order, k);
    forall p, q | p in Gone(order, k) && q in Elems(order) - Gone(order, k) ensures items[p].score <= items[q].score {
      GoneFirst(ScoreKey(items, 1.0), order, k, p, q);
    }
  }

  lemma SparedWithout(items: Pool, prot: set<Pid>, now: int, rest: set<Pid>, gone: set<Pid>)
    requires gone <= rest <= Candidates(items, prot, now) && |gone| <= Spare(|Candidates(items, prot, now)|)
    ensures MainSpared(items, prot, now, items - gone) && Tier(items - gone, false) == Tier(items, false)
  {
    assert Tier(items, true) - (items - gone).Keys == gone;
  }

  lemma OutrankedWithout(items: Pool, prot: set<Pid>, now: int, top: set<Pid>, veterans: set<Pid>, rest: set<Pid>,
      gone: set<Pid>)
    requires Candidates(items, prot, now) <= items.Keys && gone <= rest
    requires Divided(items, Candidates(items, prot, now), top, veterans, rest)
    ensures Outranked(items, prot, now, items - gone, top, veterans)
  {
    hide Candidates;
    var cands, after := Candidates(items, prot, now), items - gone;
    assert after.Keys == items.Keys - gone;
    assert forall p :: p in Tier(items, true) && p !in after ==> p in rest;
  }

  lemma LowestWithout(items: Pool, prot: set<Pid>, now: int, top: set<Pid>, veterans: set<Pid>, rest: set<Pid>,
      gone: set<Pid>)
    requires Candidates(items, prot, now) <= items.Keys && LowestOf(items, rest, gone)
    requires Divided(items, Candidates(items, prot, now), top, veterans, rest)
    ensures LowestGo(items, prot, now, items - gone, top, veterans)
  {
    assert Candidates(items, prot, now) - top - veterans == rest;
  }

  lemma MainGone(items: Pool, prot: set<Pid>, now: int, top: set<Pid>, veterans: set<Pid>, rest: set<Pid>,
      gone: set<Pid>)
    requires Candidates(items, prot, now) <= items.Keys && LowestOf(items, rest, gone)
    requires Divided(items, Candidates(items, prot, now), top, veterans, rest)
    requires |gone| <= Spare(|Candidates(items, prot, now)|) && |items - gone| == |items| - |gone|
    ensures MainStep(items, prot, now, items - gone, top, veterans, |gone|)
  {
    DividedRest(items, Candidates(items, prot, now), top, veterans, rest);
    SparedWithout(items, prot, now, rest, gone);
    OutrankedWithout(items, prot, now, top, veterans, rest, gone);
    LowestWithout(items, prot, now, top, veterans, rest, gone);
    hide Candidates, Divided, Spare, MainSpared, Outranked, LowestGo, Tier;
  }

  // ---------------------------------------------------------------------------- the pool

  class RelayPool {
    var items: Pool
    var protected: set<Pid>
    const lowWater: nat
    const highWater: nat

    constructor (lowWater: nat, highWater: nat)
      ensures items == map[] && protected == {} && this.lowWater == lowWater && this.highWater == highWater
    {
      this.lowWater, this.highWater := lowWater, highWater;
      items, protected := map[], {};
    }

    /** The relays of one tier, in no particular order. */
    method Listed(main: bool) returns (pids: seq<Pid>)
      ensures Distinct(pids) && Elems(pids) == Tier(items, main)
    {
      pids := [];
      var rest := items.Keys;
      while rest != {}
        invariant rest <= items.Keys && Distinct(pids)
        invariant Elems(pids) == set p | p in items && p !in rest && items[p].inMain == main
        decreases rest
      {
        var p :| p in rest;
        rest := rest - {p};
        if items[p].inMain == main {
          assert p !in Elems(pids) && Elems(pids + [p]) == Elems(pids) + {p};
          pids := pids + [p];
        }
      }
    }

    /** Evicts from the front of the list until the quota is met. */
    method Evict(order: seq<Pid>, quota: int) returns (left: int)
      requires Distinct(order) && Elems(order) <= items.Keys
      modifies this
      ensures left == quota - Taken(quota, |order|)
      ensures items == old(items) - Gone(order, Taken(quota, |order|))
      ensures |items| == |old(items)| - Taken(quota, |order|)
      ensures protected == old(protected) - Gone(order, Taken(quota, |order|))
    {
      hide Gone, Distinct, Elems;
      left := quota;
      var i := 0;
      NoneGone(items, protected, order);
      while i < |order| && left > 0
        invariant i <= |order| && left == quota - i && (i > 0 ==> left >= 0)
        invariant items == old(items) - Gone(order, i) && protected == old(protected) - Gone(order, i)
        invariant |items| == |old(items)| - i
      {
        NextGone(old(items), old(protected), order, i);
        items := items - {order[i]};
        protected := protected - {order[i]};
        left := left - 1;
        i := i + 1;
      }
    }

    /** Evicts probation relays, oldest first. */
    method EvictProbation(quota: int) returns (left: int)
      modifies this
      ensures left == quota - Taken(quota, |Tier(old(items), false)|)
      ensures ProbationStep(old(items), items, Taken(quota, |Tier(old(items), false)|))
      ensures protected == old(protected) - Left(old(items), items)
    {
      hide ProbationStep, Ascending;
      ProbationNothing(items, protected);
      if quota <= 0 { return quota; }
      var pids := Listed(false);
      var order := SortBy(SinceKey(items), pids);
      ProbationGone(items, order, Taken(quota, |order|));
      left := Evict(order, quota);
    }

    /** The main relays that the first round does not protect. */
    method Unprotected(mainPids: seq<Pid>, now: int) returns (cands: seq<Pid>)
      requires Distinct(mainPids) && Elems(mainPids) == Tier(items, true)
      ensures Distinct(cands) && Elems(cands) == Candidates(items, protected, now)
    {
      cands := [];
      for i := 0 to |mainPids|
        invariant Distinct(cands)
        invariant Elems(cands) == set p | p in mainPids[..i] && Eligible(items, protected, now, p)
      {
        var p := mainPids[i];
        assert p in Elems(mainPids) && p !in mainPids[..i] && mainPids[..i + 1] == mainPids[..i] + [p];
        if p in items && p !in protected && now - items[p].lastResult >= RECENT {
          assert p !in Elems(cands) && Elems(cands + [p]) == Elems(cands) + {p};
          cands := cands + [p];
        }
      }
      assert mainPids[..|mainPids|] == mainPids;
      assert forall p :: p in mainPids <==> p in Elems(mainPids);
    }

    /** Evicts main relays behind the three rounds, lowest score first. */
    method EvictMain(mainPids: seq<Pid>, quota: int, now: int)
      returns (left: int, ghost top: set<Pid>, ghost veterans: set<Pid>)
      requires Distinct(mainPids) && Elems(mainPids) == Tier(items, true)
      modifies this
      ensures left == quota - Taken(quota, Spare(|Candidates(old(items), old(protected), now)|))
      ensures MainStep(old(items), old(protected), now, items, top, veterans,
                       Taken(quota, Spare(|Candidates(old(items), old(protected), now)|)))
      ensures protected == old(protected) - Left(old(items), items)
    {
      hide MainStep, Ascending, Divided, Distinct, Elems, Gone, Candidates, Spare, LowestOf;
      ghost var was := items;
      MainNothing(items, protected, now);
      top, veterans := {}, {};
      if quota <= 0 { return quota, top, veterans; }
      var cands := Unprotected(mainPids, now);
      CandidatesIn(items, protected, now);
      DistinctSize(cands);
      var rest;
      rest, top, veterans := Rounds(items, cands);
      DividedRest(items, Elems(cands), top, veterans, Elems(rest));
      var order := SortBy(ScoreKey(items, 1.0), rest);
      FirstByScore(items, order, Taken(quota, |order|));
      left := Evict(order, quota);
      GoneIn(was, order, Taken(quota, |order|));
      MainGone(was, old(protected), now, top, veterans, Elems(rest), Gone(order, Taken(quota, |order|)));
    }

    /**
     Does nothing up to the high mark. Above it, evicts towards the low mark: half from each tier,
     what one tier cannot give from the other, and what main relays are spared from probation.
     */
    method Prune(now: int) returns (ghost top: set<Pid>, ghost veterans: set<Pid>)
      modifies this
      ensures |old(items)| <= highWater ==> items == old(items) && protected == old(protected)
      ensures |old(items)| > highWater ==> Shrunk(old(items), items, lowWater) && OldestGo(old(items), items)
      ensures |old(items)| > highWater ==>
        && MainSpared(old(items), old(protected), now, items)
        && MainShare(old(items), old(protected), now, items, lowWater)
        && Outranked(old(items), old(protected), now, items, top, veterans)
        && LowestGo(old(items), old(protected), now, items, top, veterans)
      ensures |old(items)| > highWater ==> protected == old(protected) - Left(old(items), items)
    {
      hide ProbationStep, MainStep, OldestGo, MainSpared, MainShare, Outranked, LowestGo, Candidates, Spare,
          Distinct, Quotas,
          Shrunk, Tier;
      top, veterans := {}, {};
      if |items| <= highWater { return; }
      var probationPids := Listed(false);
      var mainPids := Listed(true);
      DistinctSize(probationPids);
      DistinctSize(mainPids);
      TierSplit(items);
      var quotas := Quotas(|items|, |probationPids|, |mainPids|, lowWater);
      QuotasFit(|items|, |probationPids|, |mainPids|, lowWater);
      ghost var b, prot := items, protected;
      var left := EvictProbation(quotas.0);
      ghost var a1, k1 := items, Taken(quotas.0, |probationPids|);
      ProbationTiers(b, a1, k1);
      ghost var k2 := Taken(quotas.1, Spare(|Candidates(items, protected, now)|));
      left, top, veterans := EvictMain(mainPids, quotas.1, now);
      ghost var a2 := items;
      MainTiers(a1, prot - Left(b, a1), now, a2, top, veterans, k2);
      ghost var k3 := Taken(left, |Tier(items, false)|);
      left := EvictProbation(left);
      ProbationTiers(a2, items, k3);
      LeftChain(b, a1, a2, items, prot);
      OldestThroughout(b, a1, k1, a2, items, k3);
      SparedThroughout(b, prot, now, a1, k1, a2, top, veterans, k2, items, k3);
      OutrankedThroughout(b, prot, now, a1, k1, a2, top, veterans, k2, items, k3);
      LowestThroughout(b, prot, now, a1, k1, a2, top, veterans, k2, items, k3);
      ShareThroughout(b, prot, now, a1, k1, a2, top, veterans, k2, items, k3, lowWater);
      ShrunkExactly(b, lowWater, a1, quotas.0, a2, quotas.1, k2, items, k3);
    }
  }

  lemma LeftChain(b: Pool, a1: Pool, a2: Pool, a3: Pool, prot: set<Pid>)
    requires Sub(b, a1) && Sub(a1, a2) && Sub(a2, a3)
    ensures prot - Left(b, a1) - Left(a1, a2) - Left(a2, a3) == prot - Left(b, a3)
  {
  }

  lemma CandidatesIn(items: Pool, prot: set<Pid>, now: int)
    ensures Candidates(items, prot, now) <= items.Keys
  {
  }

  lemma GoneIn(items: Pool, order: seq<Pid>, k: nat)
    requires k <= |order| && Elems(order) <= items.Keys
    ensures Left(items, items - Gone(order, k)) == Gone(order, k)
  {
    assert Gone(order, k) <= Elems(order);
  }

  // ---------------------------------------------------------------------- prune, put together

  /** Integer division that truncates toward zero. */
  function Half(n: int): int { if n >= 0 then n / 2 else -(-n / 2) }

  /** How many to evict from probation and from main; what one tier lacks the other makes up. */
  function Quotas(total: nat, probation: nat, main: nat, low: nat): (int, int) {
    var need := total - low;
    var p0 := Half(need);
    var m0 := need - p0;
    var (p1, m1) := if p0 > probation then (probation as int, m0 + (p0 - probation)) else (p0, m0);
    if m1 > main then (p1 + (m1 - main), main) else (p1, m1)
  }

  lemma QuotasFit(total: nat, probation: nat, main: nat, low: nat)
    requires probation + main == total
    ensures var (p, m) := Quotas(total, probation, main, low);
      && p + m == total - low
      && (total > low ==> 0 <= p <= probation && 0 <= m <= main)
      && (total <= low ==> p <= 0 && m <= 0)
  {
  }

  lemma ProbationNothing(items: Pool, prot: set<Pid>)
    ensures ProbationStep(items, items, 0) && prot - Left(items, items) == prot
  {
  }

  lemma MainNothing(items: Pool, prot: set<Pid>, now: int)
    ensures MainStep(items, prot, now, items, {}, {}, 0) && prot - Left(items, items) == prot
  {
    assert Tier(items, true) - items.Keys == {};
  }

  lemma ProbationTiers(before: Pool, after: Pool, k: nat)
    requires ProbationStep(before, after, k)
    ensures Tier(after, true) == Tier(before, true) && |Tier(after, false)| == |Tier(before, false)| - k
    ensures |after| == |before| - k && Sub(before, after)
  {
  }

  lemma MainTiers(before: Pool, prot: set<Pid>, now: int, after: Pool, top: set<Pid>, veterans: set<Pid>, k: nat)
    requires MainStep(before, prot, now, after, top, veterans, k)
    ensures Tier(after, false) == Tier(before, false) && |after| == |before| - k && Sub(before, after)
    ensures MainSpared(before, prot, now, after)
    ensures Outranked(before, prot, now, after, top, veterans) && LowestGo(before, prot, now, after, top, veterans)
  {
  }

  /** Evicting probation relays changes nothing about the main tier. */
  lemma CandidatesSame(b: Pool, prot: set<Pid>, now: int, a: Pool, k: nat)
    requires ProbationStep(b, a, k)
    ensures Candidates(a, prot - Left(b, a), now) == Candidates(b, prot, now)
  {
    forall p | p in b ensures Eligible(a, prot - Left(b, a), now, p) <==> Eligible(b, prot, now, p) {
      if b[p].inMain { assert p in Tier(b, true) && p in Tier(a, true); }
    }
  }

  /** The probation relays gone in the first and in the last step are older than all that stay. */
  lemma OldestThroughout(b: Pool, a1: Pool, k1: nat, a2: Pool, a3: Pool, k3: nat)
    requires ProbationStep(b, a1, k1) && Sub(a1, a2) && Tier(a2, false) == Tier(a1, false) && ProbationStep(a2, a3, k3)
    ensures OldestGo(b, a3)
  {
    forall p, q | p in b && !b[p].inMain && p !in a3 && q in a3 && q in b && !b[q].inMain
      ensures b[p].connectedSince <= b[q].connectedSince
    {
      assert q in a1 && q in a2;
      if p in a1 { assert p in Tier(a1, false) && p in a2; }
    }
  }

  /** The main tier is decided by the middle step alone. */
  lemma MainThroughout(b: Pool, prot: set<Pid>, now: int, a1: Pool, k1: nat, a2: Pool, top: set<Pid>,
                       veterans: set<Pid>, k2: nat, a3: Pool, k3: nat)
    requires ProbationStep(b, a1, k1) && MainStep(a1, prot - Left(b, a1), now, a2, top, veterans, k2)
    requires ProbationStep(a2, a3, k3)
    ensures Candidates(a1, prot - Left(b, a1), now) == Candidates(b, prot, now)
    ensures forall p :: p in Tier(b, true) ==> (p in a3 <==> p in a2) && p in a1 && a1[p] == b[p]
    ensures Tier(b, true) == Tier(a1, true) && Tier(b, true) - a3.Keys == Tier(a1, true) - a2.Keys
  {
    hide MainSpared, Outranked, LowestGo, OldestGo;
    CandidatesSame(b, prot, now, a1, k1);
    hide Candidates;
    forall p | p in Tier(b, true) ensures (p in a3 <==> p in a2) && p in a1 && a1[p] == b[p] {
      assert p in Tier(a1, true);
      if p in a2 { assert p in Tier(a2, true) && p in Tier(a3, true); }
    }
  }

  lemma SparedThroughout(b: Pool, prot: set<Pid>, now: int, a1: Pool, k1: nat, a2: Pool, top: set<Pid>,
                         veterans: set<Pid>, k2: nat, a3: Pool, k3: nat)
    requires ProbationStep(b, a1, k1) && MainStep(a1, prot - Left(b, a1), now, a2, top, veterans, k2)
    requires ProbationStep(a2, a3, k3)
    ensures MainSpared(b, prot, now, a3)
  {
    MainThroughout(b, prot, now, a1, k1, a2, top, veterans, k2, a3, k3);
    MainTiers(a1, prot - Left(b, a1), now, a2, top, veterans, k2);
    hide MainStep, ProbationStep, Outranked, LowestGo, OldestGo, Spare;
    forall p | p in Tier(b, true) && p !in a3 ensures Eligible(b, prot, now, p) {
      assert p in Tier(a1, true) && p !in a2;
      assert p in Candidates(a1, prot - Left(b, a1), now);
    }
  }

  lemma ShareThroughout(b: Pool, prot: set<Pid>, now: int, a1: Pool, k1: nat, a2: Pool, top: set<Pid>,
                        veterans: set<Pid>, k2: nat, a3: Pool, k3: nat, low: nat)
    requires ProbationStep(b, a1, k1) && MainStep(a1, prot - Left(b, a1), now, a2, top, veterans, k2)
    requires ProbationStep(a2, a3, k3)
    requires var (_, m) := Quotas(|b|, |Tier(b, false)|, |Tier(b, true)|, low);
             k2 == Taken(m, Spare(|Candidates(a1, prot - Left(b, a1), now)|))
    ensures MainShare(b, prot, now, a3, low)
  {
    hide Quotas, Taken, MainStep, ProbationStep, Outranked, LowestGo, OldestGo, Spare, MainSpared, Candidates, Tier,
        Sub, Left;
    MainThroughout(b, prot, now, a1, k1, a2, top, veterans, k2, a3, k3);
    MainTiers(a1, prot - Left(b, a1), now, a2, top, veterans, k2);
    TierSplit(b);
    MainGoneSize(a1, a2, k2);
    ShareIs(|b|, |Tier(b, false)|, |Tier(b, true)|, low, Spare(|Candidates(b, prot, now)|));
  }

  lemma ShareIs(total: nat, probation: nat, main: nat, low: nat, spare: nat)
    requires total > low ==> probation + main == total
    ensures var (_, m) := Quotas(total, probation, main, low);
            total > low ==>
              Taken(m, spare) == Min(Min(main, Max((total - low + 1) / 2, total - low - probation)), spare)
  {
  }

  lemma MainGoneSize(a1: Pool, a2: Pool, k: nat)
    requires Sub(a1, a2) && Tier(a2, false) == Tier(a1, false) && |a2| == |a1| - k
    ensures |Tier(a1, true) - a2.Keys| == k
  {
    var gone := Tier(a1, true) - a2.Keys;
    forall p | p in a1.Keys - a2.Keys ensures p in gone {
      assert p !in Tier(a2, false);
    }
    assert a1.Keys == a2.Keys + gone && a2.Keys !! gone;
    assert |a1.Keys| == |a1| && |a2.Keys| == |a2|;
  }

  lemma OutrankedThroughout(b: Pool, prot: set<Pid>, now: int, a1: Pool, k1: nat, a2: Pool, top: set<Pid>,
                            veterans: set<Pid>, k2: nat, a3: Pool, k3: nat)
    requires ProbationStep(b, a1, k1) && MainStep(a1, prot - Left(b, a1), now, a2, top, veterans, k2)
    requires ProbationStep(a2, a3, k3)
    ensures Outranked(b, prot, now, a3, top, veterans)
  {
    MainThroughout(b, prot, now, a1, k1, a2, top, veterans, k2, a3, k3);
    MainTiers(a1, prot - Left(b, a1), now, a2, top, veterans, k2);
    CandidatesMain(b, prot, now);
    var evicted := Tier(b, true) - a3.Keys;
    SameRanks(b, a1, top, evicted);
    SameRanks(b, a1, veterans, evicted);
    hide MainStep, ProbationStep, MainSpared, OldestGo, Candidates, LowestGo, ScoresAbove, LongerUp, Tier;
  }

  lemma LowestThroughout(b: Pool, prot: set<Pid>, now: int, a1: Pool, k1: nat, a2: Pool, top: set<Pid>,
                            veterans: set<Pid>, k2: nat, a3: Pool, k3: nat)
    requires ProbationStep(b, a1, k1) && MainStep(a1, prot - Left(b, a1), now, a2, top, veterans, k2)
    requires ProbationStep(a2, a3, k3)
    ensures LowestGo(b, prot, now, a3, top, veterans)
  {
    MainThroughout(b, prot, now, a1, k1, a2, top, veterans, k2, a3, k3);
    MainTiers(a1, prot - Left(b, a1), now, a2, top, veterans, k2);
    CandidatesMain(b, prot, now);
    var open := Candidates(b, prot, now) - top - veterans;
    hide MainStep, ProbationStep, MainSpared, OldestGo, Candidates, Outranked, ScoresAbove, Tier;
    SameCut(Tier(b, true), open, a2, a3);
    SameRanks(b, a1, open * a3.Keys, open - a3.Keys);
  }

  lemma SameCut(main: set<Pid>, open: set<Pid>, a2: Pool, a3: Pool)
    requires open <= main && forall p :: p in main ==> (p in a3 <==> p in a2)
    ensures open * a3.Keys == open * a2.Keys && open - a3.Keys == open - a2.Keys
  {
  }

  /** Main relays are the same before and after the first step. */
  lemma SameRanks(b: Pool, a1: Pool, x: set<Pid>, y: set<Pid>)
    requires x <= Tier(b, true) && y <= Tier(b, true)
    requires forall p :: p in Tier(b, true) ==> p in a1 && a1[p] == b[p]
    ensures ScoresAbove(a1, x, y) <==> ScoresAbove(b, x, y)
    ensures LongerUp(a1, x, y) <==> LongerUp(b, x, y)
  {
    assert forall p :: p in x || p in y ==> p in b && p in a1 && a1[p] == b[p];
  }

  lemma CandidatesMain(b: Pool, prot: set<Pid>, now: int)
    ensures Candidates(b, prot, now) <= Tier(b, true)
  {
  }

  /** Either the low mark is reached exactly or probation is empty. */
  lemma ShrunkExactly(b: Pool, low: nat, a1: Pool, p: int, a2: Pool, m: int, k2: nat, a3: Pool, k3: nat)
    requires ProbationStep(b, a1, Taken(p, |Tier(b, false)|)) && ProbationStep(a2, a3, k3)
    requires Sub(a1, a2) && Tier(a2, false) == Tier(a1, false) && |a2| == |a1| - k2 && (m > 0 ==> k2 <= m)
             && (m <= 0 ==> k2 == 0)
    requires (p, m) == Quotas(|b|, |Tier(b, false)|, |Tier(b, true)|, low) && k3 == Taken(m - k2, |Tier(a2, false)|)
    ensures Shrunk(b, a3, low)
  {
    TierSplit(b);
    QuotasFit(|b|, |Tier(b, false)|, |Tier(b, true)|, low);
    hide Quotas, OldestGo;
    if |b| <= low { NothingGone(b, a3); }
  }

  lemma NothingGone(b: Pool, a: Pool)
    requires Sub(b, a) && |a| == |b|
    ensures a == b
  {
    SameKeys(b.Keys, a.Keys);
  }

  lemma SameKeys(b: set<Pid>, a: set<Pid>)
    requires a <= b && |a| == |b|
    ensures a == b
  {
    if a != b {
      var p :| p in b && p !in a;
      assert a <= b - {p};
      Smaller(a, b - {p});
    }
  }

  lemma {:induction false} Smaller(a: set<Pid>, b: set<Pid>)
    requires a <= b
    ensures |a| <= |b|
  {
    assert b == a + (b - a);
  }

  /** The first i of a list. */
  function Gone(order: seq<Pid>, i: nat): set<Pid>
    requires i <= |order|
  {
    Elems(order[..i])
  }

  lemma NoneGone(m: Pool, s: set<Pid>, order: seq<Pid>)
    ensures m - Gone(order, 0) == m && s - Gone(order, 0) == s
  {
  }

  lemma NextGone(m: Pool, s: set<Pid>, order: seq<Pid>, i: nat)
    requires Distinct(order) && i < |order| && Elems(order) <= m.Keys
    ensures m - Gone(order, i + 1) == m - Gone(order, i) - {order[i]}
    ensures s - Gone(order, i + 1) == s - Gone(order, i) - {order[i]}
    ensures |m - Gone(order, i + 1)| == |m - Gone(order, i)| - 1
  {
    var g, h, p := Gone(order, i), Gone(order, i + 1), order[i];
    assert p in Elems(order) && p !in g;
    assert h == g + {p};
    hide Gone, Elems, Distinct;
    assert m - h == m - g - {p};
    RemoveOne(m - g, p);
  }

  function Taken(quota: int, n: nat): nat { if quota <= 0 then 0 else if quota < n then quota else n }

  lemma RemoveOne(m: Pool, p: Pid)
    requires p in m
    ensures |m - {p}| == |m| - 1
  {
    assert (m - {p}).Keys == m.Keys - {p};
    assert |m| == |m.Keys|;
  }
}
