/**
 The receive buffer on unwrapped positions, and its meaning: a partial map from
 stream positions to bytes. The class in RecvBuf.dfy runs the same algorithm on
 32-bit sequence numbers and is proved equal to the functions here.
 */
module RecvModel {
  import opened SeqSpace

  const MAX_OOO: nat := 128

  datatype Entry = Entry(pos: int, data: seq<byte>) {
    function End(): int { pos + |data| }
  }

  datatype Recv = Recv(buf: seq<byte>, nxt: int, ooo: seq<Entry>, wnd: int)

  datatype Block = Block(left: int, right: int)

  // ---------------------------------------------------------------- meaning

  /** Non-empty entries in order, disjoint, none starting before lo. */
  ghost predicate Sorted(lo: int, ooo: seq<Entry>)
    decreases ooo
  {
    ooo != [] ==> lo <= ooo[0].pos && |ooo[0].data| > 0 && Sorted(ooo[0].End(), ooo[1..])
  }

  /** The byte an out-of-order list holds at position p. */
  ghost function At(ooo: seq<Entry>, p: int): Option<byte> {
    if ooo == [] then None
    else if ooo[0].pos <= p < ooo[0].End() then Some(ooo[0].data[p - ooo[0].pos])
    else At(ooo[1..], p)
  }

  /** The byte a receive buffer holds at position p, in order or not. */
  ghost function Held(r: Recv, p: int): Option<byte> {
    if r.nxt - |r.buf| <= p < r.nxt then Some(r.buf[p - (r.nxt - |r.buf|)]) else At(r.ooo, p)
  }

  /** RCV.NXT is the edge of the contiguous data: everything out of order lies strictly above. */
  ghost predicate ValidRecv(r: Recv) {
    && Sorted(r.nxt + 1, r.ooo)
    && |r.ooo| <= 128
    && (r.wnd > 0 ==> Below(r.ooo, r.nxt + r.wnd))
  }

  /** Every entry ends at or before hi. */
  ghost predicate Below(ooo: seq<Entry>, hi: int) {
    forall e :: e in ooo ==> e.End() <= hi
  }

  // -------------------------------------------------------------- operations

  function NewRecv(nxt: int, wnd: int): Recv { Recv([], nxt, [], wnd) }

  /** Overlap of a list entry e with a newer run of bytes: the union, newer bytes winning. */
  function Fuse(e: Entry, n: Entry): Entry
    requires e.pos < n.End() && n.pos < e.End()
  {
    var left := if e.pos < n.pos then e.data[..n.pos - e.pos] else [];
    var right := if e.End() > n.End() then e.data[n.End() - e.pos..] else [];
    Entry(if e.pos < n.pos then e.pos else n.pos, left + n.data + right)
  }

  function InsertOOO(ooo: seq<Entry>, n: Entry): seq<Entry> {
    if ooo == [] then [n]
    else if ooo[0].pos >= n.End() then [n] + ooo
    else if n.pos >= ooo[0].End() then [ooo[0]] + InsertOOO(ooo[1..], n)
    else InsertOOO(ooo[1..], Fuse(ooo[0], n))
  }

  /** One entry of the insertion loop. */
  function Placed(done: seq<Entry>, inserted: bool, n: Entry, e: Entry): (seq<Entry>, bool, Entry) {
    if e.pos >= n.End() then ((if inserted then done else done + [n]) + [e], true, n)
    else if n.pos >= e.End() then (done + [e], inserted, n)
    else (done, inserted, Fuse(e, n))
  }

  /** The insertion loop: done is the list built so far, inserted says n is in it. */
  function Place(done: seq<Entry>, inserted: bool, n: Entry, es: seq<Entry>): seq<Entry>
    decreases es
  {
    if es == [] then if inserted then done else done + [n]
    else
      var (d, i, m) := Placed(done, inserted, n, es[0]);
      Place(d, i, m, es[1..])
  }

  function Merge(r: Recv): Recv
    decreases |r.ooo|
  {
    if r.ooo == [] || r.ooo[0].pos > r.nxt then r
    else if r.ooo[0].End() <= r.nxt then Merge(r.(ooo := r.ooo[1..]))
    else
      var e := r.ooo[0];
      Merge(r.(buf := r.buf + e.data[r.nxt - e.pos..], nxt := e.End(), ooo := r.ooo[1..]))
  }

  /** One entry of a pass. */
  function Scanned(r: Recv, found: bool, e: Entry): (Recv, bool) {
    if e.pos <= r.nxt < e.End() then (r.(buf := r.buf + e.data[r.nxt - e.pos..], nxt := e.End()), true)
    else if e.pos > r.nxt then (r.(ooo := r.ooo + [e]), found)
    else (r, found)
  }

  /**
   One filtering pass over a list es, keeping in r.ooo what lies above RCV.NXT; the
   flag says that some entry connected. Merging repeats passes until none connects.
   */
  function Scan(r: Recv, found: bool, es: seq<Entry>): (Recv, bool)
    decreases es
  {
    if es == [] then (r, found)
    else
      var (q, f) := Scanned(r, found, es[0]);
      Scan(q, f, es[1..])
  }

  /** data[a..b], the whole and the ends apart. */
  function Cut(data: seq<byte>, a: nat, b: nat): (r: seq<byte>)
    requires a <= b <= |data|
    ensures |r| == b - a && forall i :: 0 <= i < |r| ==> r[i] == data[a + i]
  {
    if a == 0 then if b == |data| then data else data[..b]
    else if b == |data| then data[a..] else data[a..b]
  }

  /** The part of a segment inside [RCV.NXT, RCV.NXT + wnd); None if nothing is left. */
  function Clip(r: Recv, p: int, data: seq<byte>): Option<Entry> {
    var lo := if p < r.nxt then r.nxt else p;
    var end := p + |data|;
    var hi := if r.wnd > 0 && end > r.nxt + r.wnd then r.nxt + r.wnd else end;
    if lo < hi then Some(Entry(lo, Cut(data, lo - p, hi - p))) else None
  }

  function Insert(r: Recv, p: int, data: seq<byte>): Recv {
    match Clip(r, p, data)
    case None => r
    case Some(n) =>
      if n.pos == r.nxt then Merge(r.(buf := r.buf + n.data, nxt := n.End()))
      else if |r.ooo| < MAX_OOO then r.(ooo := InsertOOO(r.ooo, n))
      else r
  }

  /** What Insert reports: the segment's own in-order bytes, merged entries not counted. */
  function InsertCount(r: Recv, p: int, data: seq<byte>): nat {
    match Clip(r, p, data)
    case None => 0
    case Some(n) => if n.pos == r.nxt then |n.data| else 0
  }

  function Read(r: Recv, n: nat): Recv {
    if n < |r.buf| then r.(buf := r.buf[n..]) else r.(buf := [])
  }

  function HeldOut(ooo: seq<Entry>): nat {
    if ooo == [] then 0 else |ooo[0].data| + HeldOut(ooo[1..])
  }

  /** Free space, counting out-of-order bytes as used. */
  function Window(r: Recv): nat {
    if r.wnd <= 0 then 65535
    else if r.wnd < |r.buf| + HeldOut(r.ooo) then 0
    else r.wnd - |r.buf| - HeldOut(r.ooo)
  }

  function SACKBlocks(r: Recv): seq<Block> {
    var n := if |r.ooo| > 3 then 3 else |r.ooo|;
    seq(n, i requires 0 <= i < n => Block(r.ooo[i].pos, r.ooo[i].End()))
  }

  // ------------------------------------------------------------------ lemmas

  lemma SortedWeaken(lo: int, lo': int, ooo: seq<Entry>)
    requires lo' <= lo && Sorted(lo, ooo)
    ensures Sorted(lo', ooo)
  {
  }

  lemma {:induction false} SortedBound(lo: int, ooo: seq<Entry>, p: int)
    requires Sorted(lo, ooo) && p < lo
    ensures At(ooo, p) == None
    decreases ooo
  {
    if ooo != [] { SortedBound(ooo[0].End(), ooo[1..], p); }
  }

  /** Sorted, stated pairwise: starts above lo, and no entry reaches into a later one. */
  lemma {:induction false} SortedPairwise(lo: int, ooo: seq<Entry>)
    requires Sorted(lo, ooo)
    ensures forall i :: 0 <= i < |ooo| ==> lo <= ooo[i].pos < ooo[i].End()
    ensures forall i, j :: 0 <= i < j < |ooo| ==> ooo[i].End() <= ooo[j].pos
    decreases ooo
  {
    if ooo != [] {
      SortedPairwise(ooo[0].End(), ooo[1..]);
      forall i, j | 0 <= i < j < |ooo| ensures ooo[i].End() <= ooo[j].pos {
        assert ooo[j] == ooo[1..][j - 1];
        if i > 0 { assert ooo[i] == ooo[1..][i - 1]; }
      }
      forall i | 0 <= i < |ooo| ensures lo <= ooo[i].pos < ooo[i].End() {
        if i > 0 { assert ooo[i] == ooo[1..][i - 1]; }
      }
    }
  }

  lemma SortedSpan(lo: int, hi: int, ooo: seq<Entry>)
    requires Sorted(lo, ooo) && Below(ooo, hi)
    ensures forall e :: e in ooo ==> lo <= e.pos < e.End() <= hi
  {
    SortedPairwise(lo, ooo);
  }

  /** Out-of-order insertion keeps the list sorted and grows it by at most one. */
  lemma {:induction false} InsertOOOSorted(lo: int, ooo: seq<Entry>, n: Entry)
    requires Sorted(lo, ooo) && lo <= n.pos && |n.data| > 0
    ensures Sorted(lo, InsertOOO(ooo, n))
    ensures |InsertOOO(ooo, n)| <= |ooo| + 1
    decreases ooo
  {
    if ooo == [] {
    } else if ooo[0].pos >= n.End() {
    } else if n.pos >= ooo[0].End() {
      InsertOOOSorted(ooo[0].End(), ooo[1..], n);
      assert InsertOOO(ooo, n)[1..] == InsertOOO(ooo[1..], n);
    } else {
      SortedWeaken(ooo[0].End(), lo, ooo[1..]);
      InsertOOOSorted(lo, ooo[1..], Fuse(ooo[0], n));
    }
  }

  lemma {:induction false} InsertOOOBelow(ooo: seq<Entry>, n: Entry, hi: int)
    requires Below(ooo, hi) && n.End() <= hi
    ensures Below(InsertOOO(ooo, n), hi)
  {
    if ooo == [] || ooo[0].pos >= n.End() {
    } else if n.pos >= ooo[0].End() {
      InsertOOOBelow(ooo[1..], n, hi);
    } else {
      InsertOOOBelow(ooo[1..], Fuse(ooo[0], n), hi);
    }
  }

  /** Out-of-order insertion is map override: new bytes win where they lie, the rest is unchanged. */
  lemma {:induction false} InsertOOOAt(lo: int, ooo: seq<Entry>, n: Entry, p: int)
    requires Sorted(lo, ooo) && |n.data| > 0
    ensures At(InsertOOO(ooo, n), p) ==
            if n.pos <= p < n.End() then Some(n.data[p - n.pos]) else At(ooo, p)
    decreases ooo
  {
    hide Fuse;
    if ooo == [] {
    } else if ooo[0].pos >= n.End() {
      assert ([n] + ooo)[1..] == ooo;
    } else if n.pos >= ooo[0].End() {
      assert ([ooo[0]] + InsertOOO(ooo[1..], n))[1..] == InsertOOO(ooo[1..], n);
      InsertOOOAt(ooo[0].End(), ooo[1..], n, p);
    } else {
      FuseAt(ooo[0], n, p);
      InsertOOOAt(ooo[0].End(), ooo[1..], Fuse(ooo[0], n), p);
    }
  }

  /** Two overlapping runs become their union, the newer bytes on top. */
  lemma FuseAt(e: Entry, n: Entry, p: int)
    requires e.pos < n.End() && n.pos < e.End()
    ensures var f := Fuse(e, n);
      && |f.data| >= |n.data|
      && (f.pos <= p < f.End() <==> n.pos <= p < n.End() || e.pos <= p < e.End())
      && (n.pos <= p < n.End() ==> f.data[p - f.pos] == n.data[p - n.pos])
      && (!(n.pos <= p < n.End()) && e.pos <= p < e.End() ==> f.data[p - f.pos] == e.data[p - e.pos])
  {
  }

  /** Merging moves bytes between the two halves without changing any position. */
  lemma {:induction false} MergeHeld(r: Recv, lo: int, p: int)
    requires Sorted(lo, r.ooo) && r.nxt - |r.buf| <= lo
    ensures Held(Merge(r), p) == Held(r, p)
    ensures Merge(r).nxt - |Merge(r).buf| == r.nxt - |r.buf|
    decreases |r.ooo|
  {
    if r.ooo == [] || r.ooo[0].pos > r.nxt {
    } else if r.ooo[0].End() <= r.nxt {
      MergeHeld(r.(ooo := r.ooo[1..]), r.ooo[0].End(), p);
    } else {
      var e := r.ooo[0];
      var r1 := r.(buf := r.buf + e.data[r.nxt - e.pos..], nxt := e.End(), ooo := r.ooo[1..]);
      MergeHeld(r1, e.End(), p);
      if p < e.End() { SortedBound(e.End(), r.ooo[1..], p); }
    }
  }

  /** After merging, everything out of order lies strictly above RCV.NXT, in a tail of the old list. */
  lemma {:induction false} MergeValid(r: Recv, lo: int)
    requires Sorted(lo, r.ooo)
    ensures Sorted(Merge(r).nxt + 1, Merge(r).ooo)
    ensures |Merge(r).ooo| <= |r.ooo| && (forall e :: e in Merge(r).ooo ==> e in r.ooo)
    ensures r.nxt <= Merge(r).nxt && Merge(r).wnd == r.wnd
    ensures Merge(r).nxt == r.nxt || exists e :: e in r.ooo && e.End() == Merge(r).nxt
    decreases |r.ooo|
  {
    if r.ooo == [] || r.ooo[0].pos > r.nxt {
    } else if r.ooo[0].End() <= r.nxt {
      MergeValid(r.(ooo := r.ooo[1..]), r.ooo[0].End());
    } else {
      var e := r.ooo[0];
      MergeValid(r.(buf := r.buf + e.data[r.nxt - e.pos..], nxt := e.End(), ooo := r.ooo[1..]), e.End());
    }
  }

  lemma {:induction false} PlaceAbove(done: seq<Entry>, n: Entry, es: seq<Entry>, lo: int)
    requires Sorted(lo, es) && n.End() <= lo
    ensures Place(done, true, n, es) == done + es
    decreases es
  {
    if es == [] {
      assert done + es == done;
    } else {
      PlaceAbove(done + [es[0]], n, es[1..], es[0].End());
      assert done + [es[0]] + es[1..] == done + es;
    }
  }

  /** On a sorted list the insertion loop computes InsertOOO. */
  lemma {:induction false} PlaceInserts(done: seq<Entry>, n: Entry, es: seq<Entry>, lo: int)
    requires Sorted(lo, es)
    ensures Place(done, false, n, es) == done + InsertOOO(es, n)
    decreases es
  {
    if es == [] {
    } else if es[0].pos >= n.End() {
      PlaceAbove(done + [n] + [es[0]], n, es[1..], es[0].End());
      assert done + [n] + [es[0]] + es[1..] == done + ([n] + es);
    } else if n.pos >= es[0].End() {
      PlaceInserts(done + [es[0]], n, es[1..], es[0].End());
      assert done + [es[0]] + InsertOOO(es[1..], n) == done + ([es[0]] + InsertOOO(es[1..], n));
    } else {
      PlaceInserts(done, Fuse(es[0], n), es[1..], es[0].End());
    }
  }

  lemma {:induction false} ScanAbove(r: Recv, found: bool, es: seq<Entry>, lo: int)
    requires Sorted(lo, es) && r.nxt < lo
    ensures Scan(r, found, es) == (r.(ooo := r.ooo + es), found)
    decreases es
  {
    if es == [] {
      assert r.ooo + es == r.ooo;
    } else {
      ScanAbove(r.(ooo := r.ooo + [es[0]]), found, es[1..], es[0].End());
      assert r.ooo + [es[0]] + es[1..] == r.ooo + es;
    }
  }

  /** A pass keeps the merged result; it shortens the list or is already the end of merging. */
  lemma {:induction false} ScanMerge(r: Recv, found: bool, es: seq<Entry>, lo: int)
    requires Sorted(lo, es) && r.ooo == []
    ensures var (r', f) := Scan(r, found, es);
            && r' == Merge(r.(ooo := es))
            && |r'.ooo| <= |es|
            && (f && !found ==> |r'.ooo| < |es|)
    decreases es
  {
    if es == [] {
    } else if es[0].pos <= r.nxt < es[0].End() {
      var r1 := r.(buf := r.buf + es[0].data[r.nxt - es[0].pos..], nxt := es[0].End());
      ScanMerge(r1, true, es[1..], es[0].End());
    } else if es[0].pos > r.nxt {
      ScanAbove(r, found, es, es[0].pos);
      assert [] + es == es;
    } else {
      ScanMerge(r, found, es[1..], es[0].End());
    }
  }

  /** What one pass over the whole list establishes: merging is finished, within the same bounds. */
  lemma PassMerges(r: Recv, lo: int, hi: int)
    requires Sorted(lo, r.ooo) && Below(r.ooo, hi) && lo - 1 <= r.nxt <= hi
    ensures var (r', f) := Scan(r.(ooo := []), false, r.ooo);
            && r' == Merge(r) == Merge(r') && r'.wnd == r.wnd
            && Sorted(lo, r'.ooo) && Below(r'.ooo, hi) && lo - 1 <= r'.nxt <= hi
            && |r'.ooo| <= |r.ooo| && (f ==> |r'.ooo| < |r.ooo|)
  {
    ScanMerge(r.(ooo := []), false, r.ooo, lo);
    MergeValid(r, lo);
    SortedWeaken(Merge(r).nxt + 1, lo, Merge(r).ooo);
  }

  /** Insert keeps the receive buffer valid. */
  lemma InsertValid(r: Recv, p: int, data: seq<byte>)
    requires ValidRecv(r)
    ensures ValidRecv(Insert(r, p, data))
    ensures r.nxt <= Insert(r, p, data).nxt && Insert(r, p, data).wnd == r.wnd
  {
    match Clip(r, p, data)
    case None =>
    case Some(n) =>
      if n.pos == r.nxt {
        MergeValid(r.(buf := r.buf + n.data, nxt := n.End()), r.nxt + 1);
      } else if |r.ooo| < MAX_OOO {
        InsertOOOSorted(r.nxt + 1, r.ooo, n);
        if r.wnd > 0 { InsertOOOBelow(r.ooo, n, r.nxt + r.wnd); }
      }
  }

  /** True when Insert drops a segment because the out-of-order list is full. */
  predicate Refused(r: Recv, p: int) { p > r.nxt && |r.ooo| >= 128 }

  /** Position q lies in the segment and in the receive window. */
  predicate InWindow(r: Recv, p: int, data: seq<byte>, q: int) {
    p <= q < p + |data| && r.nxt <= q && (r.wnd > 0 ==> q < r.nxt + r.wnd)
  }

  /** The clipped segment is the segment's bytes at the positions in the window. */
  lemma ClipIs(r: Recv, p: int, data: seq<byte>, q: int)
    ensures Clip(r, p, data).None? ==> !InWindow(r, p, data, q)
    ensures Clip(r, p, data).Some? ==>
      var n := Clip(r, p, data).value;
      && n.pos == (if p < r.nxt then r.nxt else p) && |n.data| > 0
      && (n.pos <= q < n.End() <==> InWindow(r, p, data, q))
      && (n.pos <= q < n.End() ==> p <= q < p + |data| && n.data[q - n.pos] == data[q - p])
  {
  }

  /**
   Insert is override of the held-bytes map by the segment clipped to the window,
   newest byte winning; a full out-of-order list refuses a segment above RCV.NXT whole.
   The start of the unread data does not move.
   */
  lemma InsertRefines(r: Recv, p: int, data: seq<byte>, q: int)
    requires ValidRecv(r)
    ensures Held(Insert(r, p, data), q) ==
            if InWindow(r, p, data, q) && !Refused(r, p) then Some(data[q - p]) else Held(r, q)
    ensures Insert(r, p, data).nxt - |Insert(r, p, data).buf| == r.nxt - |r.buf|
  {
    hide Clip, Merge, InsertOOO, At, Sorted, InWindow;
    ClipIs(r, p, data, q);
    match Clip(r, p, data)
    case None =>
    case Some(n) =>
      if n.pos == r.nxt {
        var r1 := r.(buf := r.buf + n.data, nxt := n.End());
        MergeHeld(r1, r.nxt + 1, q);
      } else if |r.ooo| < MAX_OOO {
        InsertOOOAt(r.nxt + 1, r.ooo, n, q);
      }
  }

  /** RCV.NXT is the least position at or above the unread data that is not held. */
  lemma NxtIsLeastMissing(r: Recv)
    requires ValidRecv(r)
    ensures Held(r, r.nxt) == None
    ensures forall q :: r.nxt - |r.buf| <= q < r.nxt ==> Held(r, q).Some?
  {
    SortedBound(r.nxt + 1, r.ooo, r.nxt);
  }

  /** What is held, or was passed, stays so through any Insert. */
  lemma HeldForever(r: Recv, p: int, data: seq<byte>, q: int)
    requires ValidRecv(r)
    requires q < r.nxt || Held(r, q).Some?
    ensures q < Insert(r, p, data).nxt || Held(Insert(r, p, data), q).Some?
  {
    InsertRefines(r, p, data, q);
    InsertValid(r, p, data);
  }

  /** Every reported SACK block lies strictly above RCV.NXT and covers only held bytes. */
  lemma SACKBlocksHeld(r: Recv, i: nat, q: int)
    requires ValidRecv(r) && i < |SACKBlocks(r)|
    ensures r.nxt < SACKBlocks(r)[i].left < SACKBlocks(r)[i].right
    ensures SACKBlocks(r)[i].left <= q < SACKBlocks(r)[i].right ==> At(r.ooo, q).Some?
  {
    SortedPairwise(r.nxt + 1, r.ooo);
    if SACKBlocks(r)[i].left <= q < SACKBlocks(r)[i].right { AtEntry(r.ooo, i, q); }
  }

  lemma {:induction false} AtEntry(ooo: seq<Entry>, i: nat, q: int)
    requires i < |ooo| && ooo[i].pos <= q < ooo[i].End()
    ensures At(ooo, q).Some?
  {
    if !(ooo[0].pos <= q < ooo[0].End()) { AtEntry(ooo[1..], i - 1, q); }
  }
}
