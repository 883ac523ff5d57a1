/**
 The send buffer as it runs: 32-bit sequence numbers, updated in place, with the
 unwrapped buffer m as ghost state. The scoreboard may hold anything a peer sends.
 */
module SendBuffer {
  import opened SeqSpace
  import opened RecvBuffer
  import R = RecvModel
  import M = SendModel

  ghost predicate SameBlocks(ws: seq<SACKBlock>, bs: seq<R.Block>) {
    |ws| == |bs| && forall i :: 0 <= i < |ws| ==> ws[i] == WireBlock(bs[i])
  }

  /** The positions a reported block stands for: the right edge nearest to base, the left edge behind it. */
  function LiftBlock(base: int, w: SACKBlock): (b: R.Block)
    ensures Near(b.right, base) && 0 <= b.right - b.left < TWO32 && WireBlock(b) == w
  {
    WrapLess(Lift(base, w.right), w.left);
    R.Block(Lift(base, w.right) - Sub32(w.right, w.left), Lift(base, w.right))
  }

  lemma WrapLess(p: int, x: u32)
    ensures Wrap(p - Sub32(Wrap(p), x)) == x
  {
    var k, w := p / TWO32, Wrap(p);
    assert Sub32(w, x) == if w >= x then w - x else w - x + TWO32;
    LapWrap(k, x);
    LapWrap(k - 1, x);
  }

  lemma LapWrap(k: int, x: u32)
    ensures Wrap(TWO32 * k + x) == x
  {
  }

  function LiftBlocks(base: int, ws: seq<SACKBlock>): (bs: seq<R.Block>)
    ensures |bs| == |ws| && forall i :: 0 <= i < |ws| ==> bs[i] == LiftBlock(base, ws[i])
  {
    seq(|ws|, i requires 0 <= i < |ws| => LiftBlock(base, ws[i]))
  }

  /** Blocks of honest length near the base are recovered from their wire form. */
  lemma LiftBlockWire(base: int, b: R.Block)
    requires Near(b.right, base) && 0 <= b.right - b.left < TWO32
    ensures LiftBlock(base, WireBlock(b)) == b
  {
    LiftWrap(base, b.right);
    DifferenceWraps(b.right, b.left);
  }

  lemma SameNext(ws: seq<SACKBlock>, bs: seq<R.Block>, w: SACKBlock, b: R.Block)
    requires SameBlocks(ws, bs) && w == WireBlock(b)
    ensures SameBlocks(ws + [w], bs + [b])
  {
  }

  lemma NoReport(s: M.Send)
    requires s.sacked == []
    ensures M.Resume(s) == s.una
  {
    M.ResumeAtUna(s);
  }

  lemma SameNone()
    ensures SameBlocks([], [])
  {
  }

  lemma SameAt(ws: seq<SACKBlock>, bs: seq<R.Block>)
    requires SameBlocks(ws, bs)
    ensures |ws| == |bs| && forall i :: 0 <= i < |ws| ==> ws[i] == WireBlock(bs[i])
  {
  }

  lemma RightEdge(b: R.Block)
    ensures WireBlock(b).right == Wrap(b.right)
  {
  }

  lemma PruneEnd(q: int, done: seq<R.Block>)
    ensures done + M.Prune(q, []) == done
  {
  }

  lemma KeepEnd(s: M.Send, done: seq<R.Block>)
    ensures done + M.Keep(s, []) == done
  {
  }

  /** One turn of a filter loop: what is done so far plus what the rest will give. */
  lemma PruneTurn(q: int, done: seq<R.Block>, rest: seq<R.Block>)
    requires rest != []
    ensures done + M.Prune(q, rest) == (if rest[0].right > q then done + [rest[0]] else done) + M.Prune(q, rest[1..])
  {
  }

  lemma KeepTurn(s: M.Send, done: seq<R.Block>, rest: seq<R.Block>)
    requires rest != []
    ensures done + M.Keep(s, rest)
         == (if rest[0].right > s.una && SeqBefore(Wrap(rest[0].left), Wrap(s.nxt)) then done + [rest[0]] else done)
            + M.Keep(s, rest[1..])
  {
    hide Wrap, SeqBefore;
  }

  /** The two 32-bit tests of a block against a cursor in [base, base + 2^31) are the model's Covers. */
  lemma CoversWire(base: int, b: R.Block, q: int)
    requires base < b.right < base + TWO31 && 0 <= b.right - b.left < TWO32
    requires base <= q < base + TWO31
    ensures SeqAfterEq(Wrap(q), Wrap(b.left)) && SeqBefore(Wrap(q), Wrap(b.right)) <==> M.Covers(b, q)
  {
    hide Wrap, Sub32;
    SerialOrder(q, b.right);
    if q < b.right { AfterEqOnLap(q, b.left); }
  }

  lemma AfterEqOnLap(q: int, l: int)
    requires -TWO31 < q - l < TWO32
    ensures SeqAfterEq(Wrap(q), Wrap(l)) <==> 0 <= q - l < TWO31
  {
    DifferenceWraps(q, l);
  }

  class SendBuf {
    var buf: seq<byte>
    const cap: int
    var una: u32
    var nxt: u32
    var sacked: seq<SACKBlock>
    ghost var m: M.Send

    ghost predicate Valid()
      reads this
    {
      && buf == m.buf && cap == m.cap
      && una == Wrap(m.una) && nxt == Wrap(m.nxt)
      && SameBlocks(sacked, m.sacked)
      && M.ValidSend(m)
    }

    constructor (ghost p: int, capacity: int, initialSeq: u32)
      requires initialSeq == Wrap(p)
      ensures Valid() && m == M.NewSend(capacity, p)
    {
      buf, cap, una, nxt, sacked := [], capacity, initialSeq, initialSeq, [];
      m := M.NewSend(capacity, p);
    }

    method Write(p: seq<byte>) returns (n: nat)
      requires Valid()
      modifies this`buf, this`m
      ensures Valid() && m == M.Write(old(m), p) && n == M.WriteCount(old(m), p)
    {
      var avail := cap - |buf|;
      if avail <= 0 {
        assert m.buf + p[..0] == m.buf;
        return 0;
      }
      n := |p|;
      if n > avail { n := avail; }
      buf := buf + p[..n];
      m := M.Write(m, p);
    }

    /** SND.NXT - SND.UNA as the code computes it. */
    function Unacked(): (n: int)
      requires Valid()
      reads this
      ensures n == M.Unacked(m)
    {
      Distance(m.nxt, m.una);
      Sub32(nxt, una)
    }

    function Pending(): (n: int)
      requires Valid()
      reads this
      ensures n == M.Pending(m)
    {
      |buf| - Unacked()
    }

    method PeekUnsent(n: nat) returns (data: seq<byte>)
      requires Valid() && M.Unacked(m) <= |m.buf|
      ensures data == M.PeekUnsent(m, n)
    {
      data := buf[Unacked()..];
      if |data| > n { data := data[..n]; }
    }

    method AdvanceSent(n: nat)
      requires Valid() && m.nxt + n - m.una < TWO31
      modifies this`nxt, this`m
      ensures Valid() && m == M.AdvanceSent(old(m), n)
    {
      WrapAdd(m.nxt, n);
      nxt := Add32(nxt, n);
      m := M.AdvanceSent(m, n);
    }

    /** Cumulative acknowledgement; p is the position nearest SND.UNA that ack stands for. */
    method Acknowledge(ghost p: int, ack: u32) returns (n: nat)
      requires Valid() && p == Lift(m.una, ack)
      modifies this
      ensures Valid() && m == M.Acknowledge(old(m), p) && n == M.AckCount(old(m), p)
    {
      hide Wrap, Int32, Sub32, Add32, SeqBefore, SeqAfter, SeqBeforeEq, SeqAfterEq, Lift, M.Prune;
      SerialOrder(p, m.una);
      if !SeqAfter(ack, una) { return 0; }
      SerialOrder(p, m.nxt);
      var a := ack;
      if SeqAfter(a, nxt) { a := nxt; }
      ghost var q := Min(p, m.nxt);
      Distance(q, m.una);
      n := Sub32(a, una);
      if n > |buf| { n := |buf|; }
      M.AcknowledgeValid(m, p);
      sacked := PruneSACK(sacked, a, m.una, q, m.sacked);
      buf := buf[n..];
      una := a;
      m := M.Acknowledge(m, p);
    }

    /** Drop the blocks at or below the new SND.UNA. */
    static method PruneSACK(sacked: seq<SACKBlock>, una: u32, ghost old_una: int, ghost q: int, ghost bs: seq<R.Block>)
      returns (kept: seq<SACKBlock>)
      requires SameBlocks(sacked, bs) && una == Wrap(q) && old_una <= q < old_una + TWO31
      requires forall b :: b in bs ==> old_una < b.right < old_una + TWO31
      ensures SameBlocks(kept, M.Prune(q, bs))
    {
      hide Wrap, SeqAfter, M.Prune, SameBlocks, WireBlock;
      SameNone();
      SameAt(sacked, bs);
      kept := [];
      ghost var rest := bs;
      ghost var done := [];
      var i := 0;
      while i < |sacked|
        invariant 0 <= i <= |sacked| && rest == bs[i..]
        invariant SameBlocks(kept, done) && M.Prune(q, bs) == done + M.Prune(q, rest)
      {
        assert rest[0] in bs && sacked[i] == WireBlock(rest[0]);
        RightEdge(rest[0]);
        SerialOrder(rest[0].right, q);
        PruneTurn(q, done, rest);
        SameNext(kept, done, sacked[i], rest[0]);
        if SeqAfter(sacked[i].right, una) {
          kept := kept + [sacked[i]];
          done := done + [rest[0]];
        }
        rest := rest[1..];
        i := i + 1;
      }
      PruneEnd(q, done);
    }

    /** Replace the scoreboard by what a report says, whatever numbers it carries. */
    method MarkSACKed(blocks: seq<SACKBlock>)
      requires Valid()
      modifies this`sacked, this`m
      ensures Valid() && m == M.MarkSACKed(old(m), LiftBlocks(old(m).una, blocks))
    {
      hide Wrap, Int32, Sub32, SeqBefore, SeqAfter, Lift, LiftBlock, M.Keep;
      if |blocks| == 0 { return; }
      ghost var bs := LiftBlocks(m.una, blocks);
      M.MarkValid(m, bs);
      sacked := KeepBlocks(blocks, una, nxt, m, bs);
      m := M.MarkSACKed(m, bs);
    }

    /** The blocks within the unacknowledged range. */
    static method KeepBlocks(blocks: seq<SACKBlock>, una: u32, nxt: u32, ghost s: M.Send, ghost bs: seq<R.Block>)
      returns (kept: seq<SACKBlock>)
      requires una == Wrap(s.una) && nxt == Wrap(s.nxt) && bs == LiftBlocks(s.una, blocks)
      ensures SameBlocks(kept, M.Keep(s, bs))
    {
      hide Wrap, Int32, Sub32, SeqBefore, SeqAfter, Lift, LiftBlock, M.Keep, SameBlocks;
      SameNone();
      kept := [];
      ghost var rest := bs;
      ghost var done := [];
      var i := 0;
      while i < |blocks|
        invariant 0 <= i <= |blocks| && rest == bs[i..]
        invariant SameBlocks(kept, done) && M.Keep(s, bs) == done + M.Keep(s, rest)
      {
        var b := blocks[i];
        ghost var mb := rest[0];
        assert mb == LiftBlock(s.una, b) && b == WireBlock(mb);
        SerialOrder(mb.right, s.una);
        KeepTurn(s, done, rest);
        SameNext(kept, done, b, mb);
        if SeqAfter(b.right, una) && SeqBefore(b.left, nxt) {
          kept := kept + [b];
          done := done + [mb];
        }
        rest := rest[1..];
        i := i + 1;
      }
      KeepEnd(s, done);
    }

    /** Membership of a position in [UNA, UNA + 2^31) in the scoreboard. */
    method IsSACKed(ghost q: int, s: u32) returns (r: bool)
      requires Valid() && s == Wrap(q) && m.una <= q < m.una + TWO31
      ensures r <==> M.IsSACKed(m.sacked, q)
    {
      hide Wrap, SeqAfterEq, SeqBefore;
      for i := 0 to |sacked|
        invariant forall k :: 0 <= k < i ==> !M.Covers(m.sacked[k], q)
      {
        assert m.sacked[i] in m.sacked;
        CoversWire(m.una, m.sacked[i], q);
        if SeqAfterEq(s, sacked[i].left) && SeqBefore(s, sacked[i].right) { return true; }
      }
      r := false;
    }

    /** The skip loop. It ends for every scoreboard: each move brings the cursor closer to UNA + 2^31. */
    method SkipSACKed() returns (s: u32, ghost q: int)
      requires Valid()
      ensures s == Wrap(q) && q == M.Resume(m) < m.una + TWO31
    {
      hide Wrap, SeqAfterEq, SeqBefore, M.Hop;
      s, q := una, m.una;
      var changed := true;
      while changed
        invariant s == Wrap(q) && m.una <= q < m.una + TWO31
        invariant M.Skip(m.sacked, q) == M.Skip(m.sacked, m.una)
        invariant !changed ==> M.Hop(m.sacked, q) == q
        decreases m.una + TWO31 - q, changed
      {
        s, q, changed := Sweep(s, q);
      }
    }

    /** One pass over the scoreboard. */
    method Sweep(s0: u32, ghost q0: int) returns (s: u32, ghost q: int, changed: bool)
      requires Valid() && s0 == Wrap(q0) && m.una <= q0 < m.una + TWO31
      ensures s == Wrap(q) && m.una <= q < m.una + TWO31
      ensures q == M.Hop(m.sacked, q0) && (changed <==> q != q0)
    {
      hide Wrap, SeqAfterEq, SeqBefore;
      s, q, changed := s0, q0, false;
      ghost var rest := m.sacked;
      var i := 0;
      while i < |sacked|
        invariant 0 <= i <= |sacked| && rest == m.sacked[i..]
        invariant s == Wrap(q) && q0 <= q && m.una <= q < m.una + TWO31 && (changed <==> q != q0)
        invariant M.Hop(rest, q) == M.Hop(m.sacked, q0)
      {
        assert rest[0] in m.sacked;
        CoversWire(m.una, rest[0], q);
        if SeqAfterEq(s, sacked[i].left) && SeqBefore(s, sacked[i].right) {
          s := sacked[i].right;
          q := rest[0].right;
          changed := true;
        }
        rest := rest[1..];
        i := i + 1;
      }
    }

    /** Up to n unacknowledged bytes from the first position the peer has not reported. */
    method RetransmitData(n: nat) returns (data: seq<byte>)
      requires Valid()
      ensures data == M.RetransmitData(m, n)
    {
      hide Wrap, SeqAfterEq, Sub32, M.Resume, M.RetransmitData;
      var unacked := Unacked();
      if unacked > |buf| { unacked := |buf|; }
      if |sacked| == 0 {
        NoReport(m);
        ResendIs(m, n, unacked);
        data := AtMost(buf[..unacked], n);
        return;
      }
      var s;
      ghost var q;
      s, q := SkipSACKed();
      ResendIs(m, n, unacked);
      SerialOrder(q, m.nxt);
      if SeqAfterEq(s, nxt) { return []; }
      Distance(q, m.una);
      var offset := Sub32(s, una);
      if offset >= unacked { return []; }
      data := AtMost(buf[offset..unacked], n);
    }
  }

  lemma ResendIs(s: M.Send, n: nat, unacked: int)
    requires unacked == Min(M.Unacked(s), |s.buf|)
    ensures var off := M.Resume(s) - s.una;
      && (M.Resume(s) >= s.nxt || off >= unacked ==> M.RetransmitData(s, n) == [])
      && (M.Resume(s) < s.nxt && off < unacked ==>
            M.RetransmitData(s, n) == s.buf[off..unacked][..Min(unacked - off, n)])
      && (off == 0 ==> M.RetransmitData(s, n) == s.buf[..unacked][..Min(unacked, n)])
  {
    hide M.Resume;
    var off := M.Resume(s) - s.una;
    if off < unacked { SliceAtMost(s.buf, off, unacked, n); }
  }

  lemma SliceAtMost(buf: seq<byte>, o: nat, u: nat, n: nat)
    requires o <= u <= |buf|
    ensures buf[o..u][..Min(u - o, n)] == buf[o..Min(u, o + n)]
    ensures o == 0 ==> buf[..u][..Min(u, n)] == buf[o..Min(u, o + n)]
  {
  }

  /** At most n bytes of a run. */
  method AtMost(run: seq<byte>, n: nat) returns (data: seq<byte>)
    ensures data == run[..Min(|run|, n)]
  {
    data := run;
    if |data| > n { data := data[..n]; }
  }
}
