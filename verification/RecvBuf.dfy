/**
 The receive buffer as it runs: 32-bit sequence numbers, updated in place. The
 ghost field m is the same buffer on unwrapped positions; every method is proved
 to take m to what the function of the same name in RecvModel gives.
 */
module RecvBuffer {
  import opened SeqSpace
  import M = RecvModel

  datatype OooEntry = OooEntry(seqno: u32, data: seq<byte>)

  datatype SACKBlock = SACKBlock(left: u32, right: u32)

  /** A wire entry and a model entry are the same bytes at the same place. */
  ghost predicate SameEntry(w: OooEntry, e: M.Entry) {
    w.seqno == Wrap(e.pos) && w.data == e.data
  }

  ghost predicate SameEntries(ws: seq<OooEntry>, es: seq<M.Entry>) {
    |ws| == |es| && forall i :: 0 <= i < |ws| ==> SameEntry(ws[i], es[i])
  }

  /** An entry within 2^31 of lo, as loops over the list meet them. */
  ghost predicate Reachable(lo: int, n: M.Entry) { lo <= n.pos < n.End() <= lo + TWO31 - 2 }

  /** What a loop at index i has still to visit. */
  ghost predicate Left(ws: seq<OooEntry>, i: nat, rest: seq<M.Entry>, lo: int) {
    |rest| == |ws| - i && forall j :: 0 <= j < |rest| ==> SameEntry(ws[i + j], rest[j]) && Reachable(lo, rest[j])
  }

  lemma AllLeft(ws: seq<OooEntry>, es: seq<M.Entry>, lo: int)
    requires SameEntries(ws, es) && M.Sorted(lo, es) && M.Below(es, lo + TWO31 - 2)
    ensures Left(ws, 0, es, lo)
  {
    hide M.Sorted, M.Below;
    M.SortedSpan(lo, lo + TWO31 - 2, es);
  }

  lemma NextLeft(ws: seq<OooEntry>, i: nat, rest: seq<M.Entry>, lo: int)
    requires Left(ws, i, rest, lo) && i < |ws|
    ensures rest != [] && SameEntry(ws[i], rest[0]) && Reachable(lo, rest[0]) && Left(ws, i + 1, rest[1..], lo)
  {
    hide SameEntry, Reachable;
    assert ws[i] == ws[i + 0];
    forall j | 0 <= j < |rest| - 1 ensures SameEntry(ws[i + 1 + j], rest[1..][j]) && Reachable(lo, rest[1..][j]) {
      assert rest[1..][j] == rest[j + 1] && ws[i + (j + 1)] == ws[i + 1 + j];
    }
  }

  lemma NoneLeft(ws: seq<OooEntry>, rest: seq<M.Entry>, lo: int)
    requires Left(ws, |ws|, rest, lo)
    ensures rest == []
  {
  }

  lemma NoEntries()
    ensures SameEntries([], [])
  {
  }

  lemma MoreEntries(ws: seq<OooEntry>, es: seq<M.Entry>, w: OooEntry, e: M.Entry)
    requires SameEntries(ws, es) && SameEntry(w, e)
    ensures SameEntries(ws + [w], es + [e])
  {
    hide SameEntry;
  }

  function WireBlock(b: M.Block): SACKBlock { SACKBlock(Wrap(b.left), Wrap(b.right)) }

  /** Cutting on the left, then on the right. */
  lemma TwoCuts(data: seq<byte>, a: nat, b: nat)
    requires a <= b <= |data|
    ensures M.Cut(M.Cut(data, a, |data|), 0, b - a) == M.Cut(data, a, b)
  {
    hide M.Cut;
  }

  lemma WholeCut(data: seq<byte>)
    ensures M.Cut(data, 0, |data|) == data
  {
  }

  /** What clipping keeps, as the two trims leave it. */
  lemma ClipParts(r: M.Recv, p: int, data: seq<byte>)
    ensures var lo, end := Max(p, r.nxt), p + |data|;
      var hi := if r.wnd > 0 then Min(end, r.nxt + r.wnd) else end;
      && (M.Clip(r, p, data).Some? <==> lo < hi)
      && (lo < hi ==>
            var n := M.Clip(r, p, data).value;
            n.pos == lo && n.End() == hi && n.data == M.Cut(M.Cut(data, lo - p, |data|), 0, hi - lo))
  {
    hide M.Cut;
    var lo, end := Max(p, r.nxt), p + |data|;
    var hi := if r.wnd > 0 then Min(end, r.nxt + r.wnd) else end;
    if lo < hi { TwoCuts(data, lo - p, hi - p); }
  }

  class RecvBuf {
    var buf: seq<byte>
    var nxt: u32
    var ooo: seq<OooEntry>
    const windowSize: int
    ghost var m: M.Recv

    /** The fields are the wire form of the model. */
    ghost predicate Rep()
      reads this
    {
      && buf == m.buf
      && nxt == Wrap(m.nxt)
      && SameEntries(ooo, m.ooo)
      && windowSize == m.wnd
    }

    /** Also: the model is valid and everything held is within 2^31 of RCV.NXT. */
    ghost predicate Valid()
      reads this
    {
      Rep() && M.ValidRecv(m) && M.Below(m.ooo, m.nxt + TWO31 - 1) && windowSize < TWO31
    }

    constructor (ghost p: int, initialNxt: u32, windowSize: int)
      requires initialNxt == Wrap(p) && windowSize < TWO31
      ensures Valid() && m == M.NewRecv(p, windowSize)
    {
      buf, nxt, ooo := [], initialNxt, [];
      this.windowSize := windowSize;
      m := M.NewRecv(p, windowSize);
    }

    /** Cut what lies before RCV.NXT off a segment; nothing may be left. */
    static method TrimLeft(seqno: u32, data: seq<byte>, nxt: u32, ghost p: int, ghost q: int)
      returns (some: bool, s: u32, d: seq<byte>)
      requires seqno == Wrap(p) && nxt == Wrap(q) && q - TWO31 < p && p + |data| < q + TWO31
      ensures some <==> Max(p, q) < p + |data|
      ensures some ==> s == Wrap(Max(p, q)) && d == M.Cut(data, Max(p, q) - p, |data|)
    {
      hide Wrap, Int32, Sub32, SeqBefore;
      some, s, d := false, seqno, data;
      if |data| == 0 { return; }
      SerialOrder(p, q);
      if SeqBefore(seqno, nxt) {
        Distance(q, p);
        var overlap := Sub32(nxt, seqno);
        if overlap >= |data| { return; }
        d := data[overlap..];
        s := nxt;
      }
      some := true;
    }

    /** Cut what lies past the right edge of the window off a segment; nothing may be left. */
    static method TrimRight(data: seq<byte>, end0: u32, nxt: u32, windowSize: int, ghost end: int, ghost q: int)
      returns (some: bool, d: seq<byte>, endSeq: u32)
      requires end0 == Wrap(end) && nxt == Wrap(q) && 0 < windowSize < TWO31 && q <= end - |data| < end < q + TWO31
      ensures some <==> end - |data| < Min(end, q + windowSize)
      ensures some ==>
                && endSeq == Wrap(Min(end, q + windowSize))
                && d == M.Cut(data, 0, |data| - (end - Min(end, q + windowSize)))
    {
      hide Wrap, Int32, Sub32, Add32, SeqAfter;
      d, endSeq := data, end0;
      WrapAdd(q, windowSize);
      var rightEdge := Add32(nxt, windowSize);
      SerialOrder(end, q + windowSize);
      if SeqAfter(endSeq, rightEdge) {
        Distance(end, q + windowSize);
        var trim := Sub32(endSeq, rightEdge);
        if trim >= |d| { return false, d, endSeq; }
        d := d[..|d| - trim];
        endSeq := rightEdge;
      }
      some := true;
    }

    /** Cut a segment to the window. The result is unused when nothing is left. */
    static method ClipSegment(seqno: u32, data: seq<byte>, nxt: u32, windowSize: int, ghost p: int, ghost r: M.Recv)
      returns (some: bool, s: u32, d: seq<byte>, endSeq: u32)
      requires seqno == Wrap(p) && nxt == Wrap(r.nxt) && windowSize == r.wnd < TWO31
      requires r.nxt - TWO31 < p && p + |data| < r.nxt + TWO31
      ensures some <==> M.Clip(r, p, data).Some?
      ensures some ==> var n := M.Clip(r, p, data).value;
                       SameEntry(OooEntry(s, d), n) && endSeq == Wrap(n.End())
    {
      hide Wrap, Add32, M.Clip, M.Cut;
      ghost var lo, end := Max(p, r.nxt), p + |data|;
      ClipParts(r, p, data);
      WrapAdd(p, |data|);
      endSeq := Add32(seqno, |data|);
      some, s, d := TrimLeft(seqno, data, nxt, p, r.nxt);
      if !some { return; }
      WholeCut(d);
      if windowSize > 0 {
        some, d, endSeq := TrimRight(d, endSeq, nxt, windowSize, end, r.nxt);
      }
    }

    /**
     Insert a segment's payload. The segment's position p is near RCV.NXT and its
     end less than 2^31 ahead, as the acceptance test and bounded lifetimes give.
     */
    method Insert(ghost p: int, seqno: u32, data: seq<byte>) returns (n: nat)
      requires Valid()
      requires seqno == Wrap(p) && m.nxt - TWO31 < p && p + |data| < m.nxt + TWO31
      modifies this
      ensures Valid()
      ensures m == M.Insert(old(m), p, data)
      ensures n == M.InsertCount(old(m), p, data)
    {
      hide Wrap, M.InsertOOO, M.Merge, M.Sorted;
      M.InsertValid(m, p, data);
      var some, s, d, endSeq := ClipSegment(seqno, data, nxt, windowSize, p, m);
      if !some { return 0; }
      ghost var c := M.Clip(m, p, data).value;
      SerialOrder(c.pos, m.nxt);
      if s == nxt {
        ghost var lo := m.nxt + 1;
        buf := buf + d;
        nxt := endSeq;
        m := m.(buf := m.buf + d, nxt := c.End());
        M.MergeValid(m, lo);
        MergeOOO(lo);
        n := |d|;
      } else {
        n := 0;
        if |ooo| < M.MAX_OOO {
          M.InsertOOOBelow(m.ooo, c, m.nxt + TWO31 - 1);
          ghost var es;
          ooo, es := InsertOOO(ooo, s, d, endSeq, m.ooo, c, m.nxt + 1);
          m := m.(ooo := es);
        }
      }
    }

    /** Extend a run of bytes to the left and right by what an overlapping entry holds there. */
    static method FuseOverlap(e: OooEntry, eEnd: u32, s0: u32, d0: seq<byte>, end0: u32, ghost me: M.Entry,
        ghost n: M.Entry)
      returns (s: u32, d: seq<byte>, endSeq: u32)
      requires SameEntry(e, me) && SameEntry(OooEntry(s0, d0), n)
      requires eEnd == Wrap(me.End()) && end0 == Wrap(n.End())
      requires me.pos < n.End() && n.pos < me.End()
      requires Near(n.End(), me.pos) && Near(me.pos, n.End()) && Near(me.End(), n.pos) && Near(n.pos, me.End())
      ensures SameEntry(OooEntry(s, d), M.Fuse(me, n)) && endSeq == Wrap(M.Fuse(me, n).End())
      ensures M.Fuse(me, n).pos == if me.pos < n.pos then me.pos else n.pos
      ensures M.Fuse(me, n).End() == if me.End() > n.End() then me.End() else n.End()
    {
      hide Wrap, Int32, Sub32, Add32, SeqBefore, SeqAfter, SeqBeforeEq, SeqAfterEq;
      s, d, endSeq := s0, d0, end0;
      SerialOrder(me.pos, n.pos);
      if SeqBefore(e.seqno, s) {
        Distance(n.pos, me.pos);
        d := e.data[..Sub32(s, e.seqno)] + d;
        s := e.seqno;
      }
      SerialOrder(me.End(), n.End());
      if SeqAfter(eEnd, endSeq) {
        Distance(n.End(), me.pos);
        d := d + e.data[Sub32(endSeq, e.seqno)..];
        endSeq := eEnd;
      }
      assert d == M.Fuse(me, n).data;
    }

    /** One entry of the list against the run being inserted: it is kept before or after it, or fused into it. */
    static method PlaceEntry(e: OooEntry, merged0: seq<OooEntry>, inserted0: bool, s0: u32, d0: seq<byte>, end0: u32,
                             ghost me: M.Entry, ghost done0: seq<M.Entry>, ghost n0: M.Entry, ghost lo: int)
      returns (merged: seq<OooEntry>, inserted: bool, s: u32, d: seq<byte>, endSeq: u32,
               ghost done: seq<M.Entry>, ghost n: M.Entry)
      requires SameEntries(merged0, done0) && SameEntry(OooEntry(s0, d0), n0) && end0 == Wrap(n0.End())
      requires SameEntry(e, me) && Reachable(lo, me) && Reachable(lo, n0)
      ensures SameEntries(merged, done) && SameEntry(OooEntry(s, d), n) && endSeq == Wrap(n.End()) && Reachable(lo, n)
      ensures M.Placed(done0, inserted0, n0, me) == (done, inserted, n)
    {
      hide Wrap, Int32, Sub32, Add32, SeqBefore, SeqAfter, SeqBeforeEq, SeqAfterEq, M.Fuse;
      merged, inserted, s, d, endSeq, done, n := merged0, inserted0, s0, d0, end0, done0, n0;
      WrapAdd(me.pos, |me.data|);
      var eEnd := Add32(e.seqno, |e.data|);
      SerialOrder(me.pos, n.End());
      SerialOrder(n.pos, me.End());
      if SeqAfterEq(e.seqno, endSeq) {
        if !inserted {
          merged, done := merged + [OooEntry(s, d)], done + [n];
          inserted := true;
        }
        merged, done := merged + [e], done + [me];
      } else if SeqAfterEq(s, eEnd) {
        merged, done := merged + [e], done + [me];
      } else {
        s, d, endSeq := FuseOverlap(e, eEnd, s, d, endSeq, me, n);
        n := M.Fuse(me, n);
      }
    }

    /** Add a run to the out-of-order list, fusing what it overlaps. */
    static method InsertOOO(ooo: seq<OooEntry>, s0: u32, d0: seq<byte>, end0: u32,
                            ghost es: seq<M.Entry>, ghost n0: M.Entry, ghost lo: int)
      returns (merged: seq<OooEntry>, ghost done: seq<M.Entry>)
      requires SameEntries(ooo, es) && SameEntry(OooEntry(s0, d0), n0) && end0 == Wrap(n0.End())
      requires M.Sorted(lo, es) && M.Below(es, lo + TWO31 - 2)
      requires lo <= n0.pos < n0.End() <= lo + TWO31 - 2
      ensures SameEntries(merged, done) && done == M.InsertOOO(es, n0)
    {
      hide Wrap, M.Sorted, M.Below, M.Placed, Left, SameEntries;
      var s, d, endSeq := s0, d0, end0;
      ghost var n := n0;
      merged, done := [], [];
      var inserted := false;
      ghost var rest := es;
      NoEntries();
      AllLeft(ooo, es, lo);
      var i := 0;
      while i < |ooo|
        invariant 0 <= i <= |ooo| && Left(ooo, i, rest, lo)
        invariant SameEntries(merged, done)
        invariant SameEntry(OooEntry(s, d), n) && endSeq == Wrap(n.End()) && Reachable(lo, n)
        invariant M.Place([], false, n0, es) == M.Place(done, inserted, n, rest)
      {
        NextLeft(ooo, i, rest, lo);
        merged, inserted, s, d, endSeq, done, n :=
          PlaceEntry(ooo[i], merged, inserted, s, d, endSeq, rest[0], done, n, lo);
        rest := rest[1..];
        i := i + 1;
      }
      NoneLeft(ooo, rest, lo);
      if !inserted {
        MoreEntries(merged, done, OooEntry(s, d), n);
        merged, done := merged + [OooEntry(s, d)], done + [n];
      }
      M.PlaceInserts([], n0, es, lo);
    }

    /** Move entries that now connect to RCV.NXT into the contiguous data. */
    method MergeOOO(ghost lo: int)
      requires Rep() && M.Sorted(lo, m.ooo) && m.nxt >= lo - 1
      requires M.Below(m.ooo, lo + TWO31 - 2) && m.nxt <= lo + TWO31 - 2
      modifies this`buf, this`nxt, this`ooo, this`m
      ensures Rep() && m == M.Merge(old(m))
    {
      hide Wrap, M.Merge, M.Scan, M.Sorted, M.Below;
      var found := true;
      while found
        invariant Rep() && M.Merge(m) == M.Merge(old(m))
        invariant M.Sorted(lo, m.ooo) && M.Below(m.ooo, lo + TWO31 - 2)
        invariant lo - 1 <= m.nxt <= lo + TWO31 - 2
        invariant !found ==> m == M.Merge(old(m))
        decreases |ooo|, found
      {
        M.PassMerges(m, lo, lo + TWO31 - 2);
        buf, nxt, ooo, found, m := Pass(buf, nxt, ooo, m, lo);
      }
    }

    /** One entry in a filtering pass: it connects, waits on, or is dropped. */
    static method ScanEntry(e: OooEntry, buf0: seq<byte>, nxt0: u32, remaining0: seq<OooEntry>, found0: bool,
                            ghost me: M.Entry, ghost r0: M.Recv, ghost lo: int)
      returns (buf: seq<byte>, nxt: u32, remaining: seq<OooEntry>, found: bool, ghost r: M.Recv)
      requires buf0 == r0.buf && nxt0 == Wrap(r0.nxt) && SameEntries(remaining0, r0.ooo)
      requires SameEntry(e, me) && Reachable(lo, me) && lo - 1 <= r0.nxt <= lo + TWO31 - 2
      ensures buf == r.buf && nxt == Wrap(r.nxt) && SameEntries(remaining, r.ooo) && lo - 1 <= r.nxt <= lo + TWO31 - 2
      ensures (r, found) == M.Scanned(r0, found0, me)
    {
      hide Wrap, Int32, Sub32, Add32, SeqBefore, SeqAfter, SeqBeforeEq, SeqAfterEq;
      buf, nxt, remaining, found, r := buf0, nxt0, remaining0, found0, r0;
      WrapAdd(me.pos, |me.data|);
      var eEnd := Add32(e.seqno, |e.data|);
      SerialOrder(me.pos, r.nxt);
      SerialOrder(me.End(), r.nxt);
      if SeqBeforeEq(e.seqno, nxt) && SeqAfter(eEnd, nxt) {
        Distance(r.nxt, me.pos);
        var offset := Sub32(nxt, e.seqno);
        buf := buf + e.data[offset..];
        nxt := eEnd;
        r := r.(buf := r.buf + me.data[r.nxt - me.pos..], nxt := me.End());
        found := true;
      } else if SeqAfter(e.seqno, nxt) {
        remaining := remaining + [e];
        r := r.(ooo := r.ooo + [me]);
      }
    }

    /** One filtering pass over the list; found if some entry connected. */
    static method Pass(buf0: seq<byte>, nxt0: u32, ooo: seq<OooEntry>, ghost r0: M.Recv, ghost lo: int)
      returns (buf: seq<byte>, nxt: u32, remaining: seq<OooEntry>, found: bool, ghost r: M.Recv)
      requires buf0 == r0.buf && nxt0 == Wrap(r0.nxt) && SameEntries(ooo, r0.ooo)
      requires M.Sorted(lo, r0.ooo) && M.Below(r0.ooo, lo + TWO31 - 2)
      requires lo - 1 <= r0.nxt <= lo + TWO31 - 2
      ensures buf == r.buf && nxt == Wrap(r.nxt) && SameEntries(remaining, r.ooo)
      ensures (r, found) == M.Scan(r0.(ooo := []), false, r0.ooo)
    {
      hide Wrap, M.Sorted, M.Below, M.Scanned, Left, SameEntries;
      buf, nxt, remaining, found, r := buf0, nxt0, [], false, r0.(ooo := []);
      ghost var rest := r0.ooo;
      NoEntries();
      AllLeft(ooo, rest, lo);
      var i := 0;
      while i < |ooo|
        invariant 0 <= i <= |ooo| && Left(ooo, i, rest, lo)
        invariant buf == r.buf && nxt == Wrap(r.nxt) && SameEntries(remaining, r.ooo)
        invariant lo - 1 <= r.nxt <= lo + TWO31 - 2
        invariant M.Scan(r0.(ooo := []), false, r0.ooo) == M.Scan(r, found, rest)
      {
        NextLeft(ooo, i, rest, lo);
        buf, nxt, remaining, found, r := ScanEntry(ooo[i], buf, nxt, remaining, found, rest[0], r, lo);
        rest := rest[1..];
        i := i + 1;
      }
      NoneLeft(ooo, rest, lo);
    }

    method Readable() returns (n: nat)
      requires Rep()
      ensures n == |m.buf|
    {
      n := |buf|;
    }

    /** Copy up to n contiguous bytes out. */
    method Read(n: nat) returns (out: seq<byte>)
      requires Rep()
      modifies this`buf, this`m
      ensures Rep() && m == M.Read(old(m), n)
      ensures out + m.buf == old(m).buf && |out| == if n < |old(m).buf| then n else |old(m).buf|
    {
      var k := if n < |buf| then n else |buf|;
      out := buf[..k];
      buf := buf[k..];
      m := M.Read(m, n);
    }

    /** Free receive space. */
    method Window() returns (w: nat)
      requires Rep()
      ensures w == M.Window(m)
    {
      if windowSize <= 0 { return 65535; }
      var used := |buf|;
      for i := 0 to |ooo|
        invariant used + M.HeldOut(m.ooo[i..]) == |m.buf| + M.HeldOut(m.ooo)
      {
        assert SameEntry(ooo[i], m.ooo[i]);
        assert m.ooo[i..][1..] == m.ooo[i + 1..];
        used := used + |ooo[i].data|;
      }
      if windowSize < used { return 0; }
      w := windowSize - used;
    }

    /** Up to three blocks describing the out-of-order data. */
    method SACKBlocks() returns (bs: seq<SACKBlock>)
      requires Rep()
      ensures |bs| == |M.SACKBlocks(m)|
      ensures forall i :: 0 <= i < |bs| ==> bs[i] == WireBlock(M.SACKBlocks(m)[i])
    {
      var n := if |ooo| > 3 then 3 else |ooo|;
      bs := [];
      for i := 0 to n
        invariant |bs| == i
        invariant forall k :: 0 <= k < i ==> bs[k] == WireBlock(M.SACKBlocks(m)[k])
      {
        assert SameEntry(ooo[i], m.ooo[i]);
        WrapAdd(m.ooo[i].pos, |m.ooo[i].data|);
        bs := bs + [SACKBlock(ooo[i].seqno, Add32(ooo[i].seqno, |ooo[i].data|))];
      }
    }

    /** The connection consumes an in-order FIN by stepping RCV.NXT over it. */
    method ConsumeFin()
      requires Rep()
      modifies this`nxt, this`m
      ensures Rep() && m == old(m).(nxt := old(m).nxt + 1)
    {
      WrapAdd(m.nxt, 1);
      nxt := Add32(nxt, 1);
      m := m.(nxt := m.nxt + 1);
    }
  }
}
