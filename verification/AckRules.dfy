/**
 What a connection says back and what it learns: the window it announces and the one it takes,
 the acknowledgement every piece of data gets, what an ACK does, the timestamp test, and how
 much a write or a report holds.
 */
module AckRules {
  import opened SeqSpace
  import opened RecvModel
  import opened SendModel
  import opened ConnModel
  import opened ConnStates
  import opened Sending
  import opened SegmentRules
  import E = Endpoint

  // ----------------------------------------------------------------------------- windows

  lemma {:induction false} ShiftLeftIs(n: nat, k: nat)
    ensures ShiftLeft(n, k) == n * Pow(2, k)
    decreases k
  {
    if k > 0 {
      ShiftLeftIs(2 * n, k - 1);
      Regroup(n, Pow(2, k - 1));
    }
  }

  lemma Regroup(n: nat, p: nat)
    ensures 2 * n * p == n * (2 * p)
  {
  }

  lemma {:induction false} ShiftRightIs(n: nat, k: nat)
    ensures ShiftRight(n, k) * Pow(2, k) <= n < (ShiftRight(n, k) + 1) * Pow(2, k)
    decreases k
  {
    if k > 0 {
      ShiftRightIs(n, k - 1);
      var y, p := ShiftRight(n, k - 1), Pow(2, k - 1);
      HalfTimes(y, p);
    }
  }

  lemma HalfTimes(y: nat, p: nat)
    ensures y / 2 * (2 * p) <= y * p && (y + 1) * p <= (y / 2 + 1) * (2 * p)
  {
    var h := y / 2;
    assert h * (2 * p) == (2 * h) * p && (h + 1) * (2 * p) == (2 * h + 2) * p;
    MulLe(2 * h, y, p);
    MulLe(y + 1, 2 * h + 2, p);
  }

  lemma MulLe(a: nat, b: nat, p: nat)
    requires a <= b
    ensures a * p <= b * p
  {
  }

  /**
   The window field says how much is free, in units of the shift and rounded down, as far as
   sixteen bits go; less than a segment or half the buffer is announced as nothing.
   */
  lemma AnnouncedExactly(c: Conn)
    ensures var free, w := Window(c.rcv), RcvWindow(c);
            var unit := if c.cfg.wscaleOK then Pow(2, c.cfg.rcvShift) else 1;
            if free < c.cfg.mss && free < c.cfg.recvCap / 2 then w == 0
            else w <= 65535 && w * unit <= free && (w < 65535 ==> free < (w + 1) * unit)
  {
    hide Window, ShiftRight;
    var free, w := Window(c.rcv), RcvWindow(c);
    ShiftRightIs(free, c.cfg.rcvShift);
    ShiftRightIs(0, c.cfg.rcvShift);
    var unit := if c.cfg.wscaleOK then Pow(2, c.cfg.rcvShift) else 1;
    if c.cfg.wscaleOK { MulLe(w, ShiftRight(free, c.cfg.rcvShift), unit); }
  }

  /** The window a segment brings, once it has been taken in a state that sends data. */
  lemma WindowTaken(c: Conn, seg: Seg, e: Env)
    requires TakesData(c, seg)
             || (c.state == CloseWait && Acceptable(c, seg) && seg.flags.ack && !seg.flags.syn && !seg.flags.rst)
    ensures HandleSegment(c, seg, e).c.sndWnd == seg.wnd * Pow(2, c.cfg.sndShift)
  {
    hide HandleData, ProcessACK, AckSeg, Acceptable, Stale, TakeWindow, Acknowledge;
    ShiftLeftIs(seg.wnd, c.cfg.sndShift);
    if c.state == CloseWait {
      ProcessACKFrame(c, seg.ack, seg.opts.sack, e);
      WindowIs(ProcessACK(c, seg.ack, seg.opts.sack, e).c, seg);
    } else if c.state == SynReceived {
      var c1 := c.(snd := Acknowledge(c.snd, seg.ack), retries := 0, state := Established);
      TakeWindowFrame(c1, seg);
      SameStale(c, TakeWindow(c1, seg), seg);
      DataWindow(TakeWindow(c1, seg), seg, e);
    } else {
      DataWindow(c, seg, e);
    }
  }

  lemma SameStale(c: Conn, d: Conn, seg: Seg)
    requires d.cfg == c.cfg && d.tsRecent == c.tsRecent
    ensures Stale(c, seg) == Stale(d, seg)
  {
  }

  lemma DataWindow(c: Conn, seg: Seg, e: Env)
    requires !Stale(c, seg)
    ensures HandleData(c, seg, e).c.sndWnd == ShiftLeft(seg.wnd, c.cfg.sndShift)
  {
    hide ProcessACK, Absorb, AckSeg, Stale, TakeWindow, ShiftLeft;
    var c0 := UpdateStamp(c, seg);
    ProcessACKFrame(c0, seg.ack, seg.opts.sack, e);
    var c1 := ProcessACK(c0, seg.ack, seg.opts.sack, e).c;
    TakeWindowFrame(c1, seg);
    WindowIs(c1, seg);
    E.AbsorbFrame(TakeWindow(c1, seg), seg);
  }

  // ------------------------------------------------------------------------- answers

  /** The answer to data or a FIN: everything up to RCV.NXT is acknowledged, and what is held above it reported. */
  ghost predicate AnswersAll(d: Conn, g: Seg) {
    && PureAck(d, g) && g.opts.sack == (if d.cfg.sackOK then SACKBlocks(d.rcv) else []) && g.wnd == RcvWindow(d)
    && (d.cfg.tsOK ==> g.opts.stamp.Some? && g.opts.stamp.value.ecr == d.tsRecent)
    && (!d.cfg.tsOK ==> g.opts.stamp == None)
  }

  /**
   A segment with an old timestamp changes nothing and is answered. Any other has its ACK processed;
   its bytes inserted; and if it carries data or a FIN, such an ACK as its last answer.
   */
  lemma DataAnswered(c: Conn, seg: Seg, e: Env)
    ensures var o := HandleData(c, seg, e);
            if Stale(c, seg) then Challenged(c, o)
            else
              var p := ProcessACK(UpdateStamp(c, seg), seg.ack, seg.opts.sack, e);
              var r := if seg.payload == [] then c.rcv else Insert(c.rcv, seg.pos, seg.payload);
              && o.c.snd == p.c.snd && o.c.rcv.buf == r.buf && o.c.rcv.ooo == r.ooo
              && o.c.rcv.nxt == r.nxt + (o.c.hist.finsIn - c.hist.finsIn)
              && (seg.payload == [] && !seg.flags.fin ==> o.segs == p.segs)
              && (seg.payload != [] || seg.flags.fin ==>
                    |o.segs| == |p.segs| + 1 && o.segs[..|p.segs|] == p.segs && AnswersAll(o.c, o.segs[|p.segs|]))
  {
    hide ProcessACK, Absorb, Stale, TakeWindow, RcvWindow, SACKBlocks, Insert;
    AckIsPure(c, e);
    var c0 := UpdateStamp(c, seg);
    ProcessACKFrame(c0, seg.ack, seg.opts.sack, e);
    var p := ProcessACK(c0, seg.ack, seg.opts.sack, e);
    TakeWindowFrame(p.c, seg);
    AbsorbInserts(TakeWindow(p.c, seg), seg);
  }

  lemma AbsorbInserts(c: Conn, seg: Seg)
    ensures var d := Absorb(c, seg);
            var r := if seg.payload == [] then c.rcv else Insert(c.rcv, seg.pos, seg.payload);
            && d.snd == c.snd && d.rcv.buf == r.buf && d.rcv.ooo == r.ooo
            && d.rcv.nxt == r.nxt + (d.hist.finsIn - c.hist.finsIn)
  {
    hide Insert, ConsumeFin;
    var c1 := c.(rcv := Insert(c.rcv, seg.pos, seg.payload));
    ConsumeSteps(c1.(deferred := None));
    ConsumeSteps(if seg.payload != [] then ProcessData(c, seg) else c);
  }

  lemma ConsumeSteps(c: Conn)
    ensures var d := ConsumeFin(c);
            d.snd == c.snd && d.rcv == c.rcv.(nxt := c.rcv.nxt + 1) && d.hist.finsIn == c.hist.finsIn + 1
  {
  }

  /** CLOSE-WAIT only processes the ACK. */
  lemma CloseWaitAnswers(c: Conn, seg: Seg, e: Env)
    requires c.state == CloseWait && Acceptable(c, seg) && seg.flags.ack && !seg.flags.syn && !seg.flags.rst
    ensures var o, p := HandleSegment(c, seg, e), ProcessACK(c, seg.ack, seg.opts.sack, e);
            o.segs == p.segs && o.c == p.c.(sndWnd := o.c.sndWnd) && o.c.rcv == c.rcv
  {
    hide ProcessACK, Acceptable, TakeWindow, AckSeg;
    ProcessACKFrame(c, seg.ack, seg.opts.sack, e);
    TakeWindowFrame(ProcessACK(c, seg.ack, seg.opts.sack, e).c, seg);
  }

  /** The report names the three lowest runs held, and with no more than three every position held. */
  lemma ReportComplete(r: Recv, q: int)
    requires Sorted(r.nxt, r.ooo) && At(r.ooo, q).Some?
    ensures |SACKBlocks(r)| == Min(3, |r.ooo|)
    ensures (exists b :: b in SACKBlocks(r) && b.left <= q < b.right)
            || (|SACKBlocks(r)| == 3 && forall b :: b in SACKBlocks(r) ==> b.right <= q)
  {
    SortedPairwise(r.nxt, r.ooo);
    var i := EntryOf(r.ooo, q);
    if i < 3 {
      assert SACKBlocks(r)[i] == Block(r.ooo[i].pos, r.ooo[i].End());
    } else {
      forall b | b in SACKBlocks(r) ensures b.right <= q {
        var k :| 0 <= k < |SACKBlocks(r)| && SACKBlocks(r)[k] == b;
        assert b.right == r.ooo[k].End() <= r.ooo[i].pos;
      }
    }
  }

  lemma {:induction false} EntryOf(ooo: seq<Entry>, q: int) returns (i: nat)
    requires At(ooo, q).Some?
    ensures i < |ooo| && ooo[i].pos <= q < ooo[i].End()
    decreases ooo
  {
    if ooo[0].pos <= q < ooo[0].End() { i := 0; } else { i := EntryOf(ooo[1..], q); i := i + 1; }
  }

  // -------------------------------------------------------------------------- what an ACK does

  /**
   An ACK of something in flight moves SND.UNA to it, forgets the retries, samples the timed number
   if it is past it, and sends all that now may go. One beyond SND.NXT is challenged. Any other
   moves nothing; the third such in a row resends.
   */
  lemma ACKExactly(c: Conn, ack: int, sack: seq<Block>, e: Env)
    ensures var o := ProcessACK(c, ack, sack, e);
            if c.snd.una < ack <= c.snd.nxt then
              && o.c.snd.una == ack && o.c.retries == 0 && Quota(o.c, e) == 0
              && o.c.hist.sampled == c.hist.sampled +
                    (if c.timing.Some? && ack > c.timing.value then [c.timing.value] else [])
              && (c.timing.Some? && ack <= c.timing.value ==> o.c.timing == c.timing)
            else if ack > c.snd.nxt then Challenged(c, o)
            else
              && o.c.snd.una == c.snd.una && o.c.snd.nxt == c.snd.nxt && o.c.snd.buf == c.snd.buf
              && o.c.retries == c.retries && o.c.hist == c.hist
              && o.segs == if e.fast then Retransmit(c, e).segs else []
  {
    hide Retransmit, Flush, AckSeg, Quota;
    AckIsPure(c, e);
    if c.snd.una < ack <= c.snd.nxt {
      var d := Acked(c, ack, sack);
      AckedFrame(c, ack, sack);
      AckedSamples(c, ack, sack);
      FlushFrame(d, e);
      FlushInFlight(d, e);
      FlushTiming(d, e);
    } else if ack <= c.snd.una {
      RetransmitFrame(c, e);
      MarkKeeps(if e.fast then Retransmit(c, e).c else c, sack);
    }
  }

  lemma AckedSamples(c: Conn, ack: int, sack: seq<Block>)
    ensures var d := Acked(c, ack, sack);
            && d.hist.sampled == c.hist.sampled +
                  (if c.timing.Some? && ack > c.timing.value then [c.timing.value] else [])
            && d.timing == (if c.timing.Some? && ack > c.timing.value then None else c.timing)
  {
    hide Acknowledge, MarkSACKed;
  }

  lemma MarkKeeps(c: Conn, sack: seq<Block>)
    ensures var d := Mark(c, sack); d == c.(snd := c.snd.(sacked := d.snd.sacked))
  {
    hide Keep;
  }

  /** A flush that sends times its first segment, unless something is timed already. */
  lemma {:induction false} FlushTiming(c: Conn, e: Env)
    ensures c.timing.Some? ==> Flush(c, e).c.timing == c.timing
    ensures c.timing.None? ==> Flush(c, e).c.timing == if Flush(c, e).segs == [] then None else Some(c.snd.nxt)
    decreases if Pending(c.snd) > 0 then Pending(c.snd) else 0
  {
    hide Quota, Build;
    if Quota(c, e) > 0 {
      FirstSegment(c, e);
      FlushTiming(OneSegmentIn(c, Quota(c, e)), e);
    }
  }

  // ------------------------------------------------------------------ timestamps and writes

  /** An old duplicate, by the timestamp: half the number space or more behind the last one kept. */
  lemma StaleExactly(c: Conn, seg: Seg)
    ensures Stale(c, seg) <==>
      c.cfg.tsOK && seg.opts.stamp.Some? && c.tsRecent != 0 && Wrap(seg.opts.stamp.value.val - c.tsRecent) >= TWO31
  {
  }

  /** The timestamp of every segment that passes is kept. */
  lemma StampKept(c: Conn, seg: Seg, e: Env)
    requires !Stale(c, seg)
    ensures HandleData(c, seg, e).c.tsRecent ==
            if c.cfg.tsOK && seg.opts.stamp.Some? then seg.opts.stamp.value.val else c.tsRecent
  {
    hide ProcessACK, Absorb, AckSeg, Stale, TakeWindow;
    var c0 := UpdateStamp(c, seg);
    ProcessACKFrame(c0, seg.ack, seg.opts.sack, e);
    var c1 := ProcessACK(c0, seg.ack, seg.opts.sack, e).c;
    TakeWindowFrame(c1, seg);
    E.AbsorbFrame(TakeWindow(c1, seg), seg);
  }

  /** A write takes all it is given, or fills the buffer; it never overfills it. */
  lemma WriteFills(s: Send, p: seq<byte>)
    ensures var t := Write(s, p);
            && s.buf <= t.buf <= s.buf + p
            && (t.buf == s.buf + p || |t.buf| >= s.cap)
            && (|s.buf| <= s.cap ==> |t.buf| <= s.cap)
  {
  }

  /** Writes are taken in ESTABLISHED and CLOSE-WAIT, until Close; anything else leaves them. */
  lemma WritesExactly(c: Conn, p: seq<byte>, e: Env)
    ensures var d := Apply(c, Buffer(p), e).c;
            var open := !c.closed && (c.state == Established || c.state == CloseWait);
            && d == c.(snd := d.snd) && d.snd == c.snd.(buf := d.snd.buf)
            && (open ==>
                  c.snd.buf <= d.snd.buf <= c.snd.buf + p && (d.snd.buf == c.snd.buf + p || |d.snd.buf| >= c.snd.cap))
            && (!open ==> d == c) && Apply(c, Buffer(p), e).segs == []
            && Apply(c, Push, e) == if open then Flush(c, e) else Out(c, [])
  {
    hide Flush, HandleSegment;
    WriteFills(c.snd, p);
  }

  /** No segment of a flush is longer than the segment size. */
  lemma {:induction false} FlushSegmentSize(c: Conn, e: Env)
    ensures forall g :: g in Flush(c, e).segs ==>
              && 0 < |g.payload| <= c.cfg.mss && g.flags == ACK_PSH && g.ack == c.rcv.nxt
              && (c.cfg.tsOK ==> g.opts.stamp == Some(Stamp(e.now, c.tsRecent)))
    decreases if Pending(c.snd) > 0 then Pending(c.snd) else 0
  {
    hide RcvWindow, SACKBlocks;
    if Quota(c, e) > 0 { FlushSegmentSize(OneSegmentIn(c, Quota(c, e)), e); }
  }
}
