/**
 Karn's rule over whole runs (section 3 of RFC 6298): an RTT sample is taken only
 for sequence space that was sent exactly once. It holds except on simultaneous
 open, where the SYN-ACK repeats a SYN that is still being timed.
 */
module Karn {
  import opened SeqSpace
  import opened RecvModel
  import opened SendModel
  import opened ConnModel
  import opened ConnStates

  /** A segment occupies position q. */
  predicate Occupies(g: Seg, q: int) { g.pos <= q < g.pos + g.Len() }

  /** How often position q was transmitted. */
  function Count(log: seq<Seg>, q: int): nat {
    if log == [] then 0 else (if Occupies(log[0], q) then 1 else 0) + Count(log[1..], q)
  }

  lemma {:induction false} CountAppend(a: seq<Seg>, b: seq<Seg>, q: int)
    ensures Count(a + b, q) == Count(a, q) + Count(b, q)
  {
    if a == [] {
      assert a + b == b;
    } else {
      assert (a + b)[1..] == a[1..] + b;
      CountAppend(a[1..], b, q);
    }
  }

  lemma CountOne(log: seq<Seg>, g: Seg, q: int)
    ensures Count(log + [g], q) == Count(log, q) + if Occupies(g, q) then 1 else 0
  {
    CountAppend(log, [g], q);
    assert Count([g], q) == (if Occupies(g, q) then 1 else 0) + Count([], q);
  }

  /** Nothing at or above SND.NXT was ever sent. */
  ghost predicate Virgin(c: Conn, log: seq<Seg>) { forall q :: q >= c.snd.nxt ==> Count(log, q) == 0 }

  /** Everything from t up to SND.NXT was sent exactly once. */
  ghost predicate Once(c: Conn, log: seq<Seg>, t: int) { forall q :: t <= q < c.snd.nxt ==> Count(log, q) == 1 }

  /** The timed position is in flight; it and all after it were sent once, unless the timing is tainted. */
  ghost predicate Timed(c: Conn, log: seq<Seg>, tainted: bool) {
    && Virgin(c, log)
    && (c.timing.Some? ==>
          && c.timing.value < c.snd.nxt
          && if tainted then Count(log, c.timing.value) >= 2 else Once(c, log, c.timing.value))
  }

  /** A taint lasts as long as the timing it spoils. */
  predicate Taint(c: Conn, d: Conn, tainted: bool) { d.timing.Some? && d.timing == c.timing && tainted }

  /** A handler run from c: its result keeps Timed with what it sent logged. */
  ghost predicate TimedAfter(c: Conn, o: Out, log: seq<Seg>, tainted: bool) {
    Timed(o.c, log + o.segs, Taint(c, o.c, tainted))
  }

  // --------------------------------------------------------------- single sends

  /** A segment that takes no sequence space. */
  lemma SendNothing(c: Conn, log: seq<Seg>, tainted: bool, g: Seg)
    requires Timed(c, log, tainted) && g.Len() == 0
    ensures Timed(c, log + [g], tainted)
  {
    forall q ensures Count(log + [g], q) == Count(log, q) { CountOne(log, g, q); }
  }

  /** A segment at SND.NXT, which moves past it. */
  lemma SendFreshly(c: Conn, d: Conn, log: seq<Seg>, tainted: bool, g: Seg)
    requires Timed(c, log, tainted) && g.pos == c.snd.nxt && d.snd.nxt == c.snd.nxt + g.Len() && d.timing == c.timing
    ensures Timed(d, log + [g], tainted)
    ensures forall q :: c.snd.nxt <= q < d.snd.nxt ==> Count(log + [g], q) == 1
  {
    forall q ensures Count(log + [g], q) == Count(log, q) + if Occupies(g, q) then 1 else 0 { CountOne(log, g, q); }
  }

  /** Any segment below SND.NXT, with nothing being timed. */
  lemma SendAgain(c: Conn, log: seq<Seg>, tainted: bool, g: Seg)
    requires Timed(c, log, tainted) && c.timing == None && g.pos + g.Len() <= c.snd.nxt
    ensures Timed(c, log + [g], false)
  {
    forall q ensures Count(log + [g], q) == Count(log, q) + if Occupies(g, q) then 1 else 0 { CountOne(log, g, q); }
  }

  /** Dropping the timing is always fine. */
  lemma StopTiming(c: Conn, d: Conn, log: seq<Seg>, tainted: bool)
    requires Timed(c, log, tainted) && d.snd.nxt == c.snd.nxt && d.timing == None
    ensures Timed(d, log, false)
  {
  }

  /** Timed looks only at SND.NXT and the timing. */
  lemma TimedSame(c: Conn, d: Conn, log: seq<Seg>, tainted: bool)
    requires Timed(c, log, tainted) && d.snd.nxt == c.snd.nxt && d.timing == c.timing
    ensures Timed(d, log, tainted)
  {
  }

  // ------------------------------------------------------------------- handlers

  lemma {:induction false} FlushTimed(c: Conn, e: Env, log: seq<Seg>, tainted: bool)
    requires Timed(c, log, tainted)
    ensures TimedAfter(c, Flush(c, e), log, tainted)
    decreases if Pending(c.snd) > 0 then Pending(c.snd) else 0
  {
    hide Count, Timed, RcvWindow, Options;
    var n := Quota(c, e);
    if n == 0 {
      assert log + [] == log;
      Untimed(c, log, tainted);
    } else {
      var g := Build(c, e, c.snd.nxt, ACK_PSH, PeekUnsent(c.snd, n));
      var c1 := c.(snd := AdvanceSent(c.snd, n));
      var c2 := c1.(timing := StartTiming(c.timing, c.snd.nxt));
      SendFreshly(c, c1, log, tainted, g);
      StartFresh(c, c1, c2, log + [g], tainted);
      var t := Taint(c, c2, tainted);
      FlushTimed(c2, e, log + [g], t);
      TimingKept(c2, e);
      assert log + [g] + Flush(c2, e).segs == log + ([g] + Flush(c2, e).segs);
    }
  }

  /** A flush never changes a running timing. */
  lemma {:induction false} TimingKept(c: Conn, e: Env)
    ensures c.timing.Some? ==> Flush(c, e).c.timing == c.timing
    ensures c.timing.None? && Flush(c, e).c.timing.Some? ==> Flush(c, e).c.timing.value >= c.snd.nxt
    decreases if Pending(c.snd) > 0 then Pending(c.snd) else 0
  {
    hide Build;
    var n := Quota(c, e);
    if n > 0 { TimingKept(OneSegmentIn(c, n), e); }
  }

  lemma Untimed(c: Conn, log: seq<Seg>, tainted: bool)
    requires Timed(c, log, tainted)
    ensures Timed(c, log, c.timing.Some? && tainted)
  {
  }

  /** Timing starts at what was just sent for the first time. */
  lemma StartFresh(c: Conn, c1: Conn, c2: Conn, log: seq<Seg>, tainted: bool)
    requires Timed(c1, log, tainted) && c1.timing == c.timing && c.snd.nxt < c1.snd.nxt
    requires c2 == c1.(timing := StartTiming(c.timing, c.snd.nxt))
    requires forall q :: c.snd.nxt <= q < c1.snd.nxt ==> Count(log, q) == 1
    ensures Timed(c2, log, Taint(c, c2, tainted))
  {
  }

  lemma Silent(c: Conn, d: Conn, log: seq<Seg>, tainted: bool)
    requires Timed(c, log, tainted) && d.snd.nxt == c.snd.nxt && (d.timing == c.timing || d.timing == None)
    ensures TimedAfter(c, Out(d, []), log, tainted)
  {
    assert log + [] == log;
  }

  lemma Plain(c: Conn, d: Conn, log: seq<Seg>, tainted: bool, g: Seg)
    requires Timed(c, log, tainted) && d.snd.nxt == c.snd.nxt && (d.timing == c.timing || d.timing == None)
             && g.Len() == 0
    ensures TimedAfter(c, Out(d, [g]), log, tainted)
  {
    hide Count;
    Silent(c, d, log, tainted);
    assert log + [] == log;
    SendNothing(d, log, Taint(c, d, tainted), g);
  }

  lemma RetransmitTimed(c: Conn, e: Env, log: seq<Seg>, tainted: bool)
    requires Timed(c, log, tainted)
    ensures TimedAfter(c, Retransmit(c, e), log, tainted)
  {
    hide Count, Timed, RcvWindow, Options, RetransmitData;
    var data := RetransmitData(c.snd, c.cfg.mss);
    if data == [] { Silent(c, c, log, tainted); } else {
      var d := c.(timing := None);
      RetransmitShort(c.snd, c.cfg.mss);
      StopTiming(c, d, log, tainted);
      SendAgain(d, log, false, Build(c, e, c.snd.una, ACK_PSH, data));
    }
  }

  lemma RetransmitShort(s: Send, n: nat)
    ensures s.una + |RetransmitData(s, n)| <= s.nxt
  {
    hide Resume;
  }

  lemma FinTimed(c: Conn, e: Env, log: seq<Seg>, tainted: bool)
    requires Timed(c, log, tainted)
    ensures TimedAfter(c, QueueFin(c, e), log, tainted)
  {
    hide Count, Timed, RcvWindow, Options;
    SendFreshly(c, QueueFin(c, e).c, log, tainted, Build(c, e, c.snd.nxt, FIN_ACK, []));
    Untimed(QueueFin(c, e).c, log + QueueFin(c, e).segs, tainted);
  }

  /** First one handler, then another that leaves SND.NXT and the timing alone and sends nothing of length. */
  lemma Follow(c: Conn, o: Out, d: Conn, gs: seq<Seg>, log: seq<Seg>, tainted: bool)
    requires TimedAfter(c, o, log, tainted) && d.snd.nxt == o.c.snd.nxt && d.timing == o.c.timing
    requires |gs| <= 1 && forall g :: g in gs ==> g.Len() == 0
    ensures TimedAfter(c, Out(d, o.segs + gs), log, tainted)
  {
    hide Count, Timed;
    var t := Taint(c, o.c, tainted);
    TimedSame(o.c, d, log + o.segs, t);
    assert log + (o.segs + gs) == log + o.segs + gs;
    if |gs| == 1 {
      assert gs == [gs[0]];
      SendNothing(d, log + o.segs, t, gs[0]);
    } else {
      assert log + o.segs + gs == log + o.segs;
    }
  }

  lemma AckedTimed(c: Conn, ack: int, sack: seq<Block>, e: Env, log: seq<Seg>, tainted: bool)
    requires Timed(c, log, tainted) && c.snd.una < ack <= c.snd.nxt
    ensures TimedAfter(c, Flush(Acked(c, ack, sack), e), log, tainted)
  {
    hide Count, Timed, Flush, Mark, Acknowledge;
    MarkFrame(c.(snd := Acknowledge(c.snd, ack), retries := 0), sack);
    AckedFrame(c, ack, sack);
    var c1 := Acked(c, ack, sack);
    if c1.timing == None {
      StopTiming(c, c1, log, tainted);
      FlushTimed(c1, e, log, false);
      TimingKept(c1, e);
      NewTiming(c, c1, e, log, tainted);
    } else {
      TimedSame(c, c1, log, tainted);
      FlushTimed(c1, e, log, tainted);
      TimingKept(c1, e);
    }
  }

  /** A timing started by a flush is not the old one. */
  lemma NewTiming(c: Conn, c1: Conn, e: Env, log: seq<Seg>, tainted: bool)
    requires Timed(c, log, tainted) && c1.snd.nxt == c.snd.nxt && c1.timing == None
    ensures Taint(c, Flush(c1, e).c, tainted) == false
  {
    hide Flush, Count;
    TimingKept(c1, e);
  }

  lemma ProcessACKTimed(c: Conn, ack: int, sack: seq<Block>, e: Env, log: seq<Seg>, tainted: bool)
    requires Timed(c, log, tainted)
    ensures TimedAfter(c, ProcessACK(c, ack, sack, e), log, tainted)
  {
    hide Count, Timed, Retransmit, Mark, Acked, Flush;
    if ack <= c.snd.una {
      var o := if e.fast then Retransmit(c, e) else Out(c, []);
      if e.fast { RetransmitTimed(c, e, log, tainted); } else { Silent(c, c, log, tainted); }
      MarkFrame(o.c, sack);
      Follow(c, o, Mark(o.c, sack), [], log, tainted);
      assert o.segs + [] == o.segs;
    } else if ack > c.snd.nxt {
      AckSegEmpty(c, e);
      Plain(c, c, log, tainted, AckSeg(c, e));
    } else {
      AckedTimed(c, ack, sack, e, log, tainted);
    }
  }

  lemma AckSegEmpty(c: Conn, e: Env)
    ensures AckSeg(c, e).Len() == 0
  {
    hide RcvWindow, Options;
  }

  /** Timed, started from another connection with the same SND.NXT and timing. */
  lemma Rebase(c: Conn, c0: Conn, o: Out, log: seq<Seg>, tainted: bool)
    requires TimedAfter(c0, o, log, tainted) && c0.timing == c.timing
    ensures TimedAfter(c, o, log, tainted)
  {
    hide Timed;
  }

  lemma HandleDataTimed(c: Conn, seg: Seg, e: Env, log: seq<Seg>, tainted: bool)
    requires Timed(c, log, tainted)
    ensures TimedAfter(c, HandleData(c, seg, e), log, tainted)
  {
    hide Count, Timed, ProcessACK, Absorb, AckSeg, Stale, TakeWindow;
    if Stale(c, seg) {
      AckSegEmpty(c, e);
      Plain(c, c, log, tainted, AckSeg(c, e));
    } else {
      var c0 := UpdateStamp(c, seg);
      TimedSame(c, c0, log, tainted);
      ProcessACKTimed(c0, seg.ack, seg.opts.sack, e, log, tainted);
      var o := ProcessACK(c0, seg.ack, seg.opts.sack, e);
      Rebase(c, c0, o, log, tainted);
      TakeWindowFrame(o.c, seg);
      ReceiveFrame(TakeWindow(o.c, seg), seg);
      var d := Absorb(TakeWindow(o.c, seg), seg);
      AckSegEmpty(d, e);
      Follow(c, o, d, if seg.payload != [] || seg.flags.fin then [AckSeg(d, e)] else [], log, tainted);
    }
  }

  lemma ReceiveFrame(c: Conn, seg: Seg)
    ensures var d := Absorb(c, seg); d.snd == c.snd && d.timing == c.timing && d.hist.sampled == c.hist.sampled
  {
    hide Insert, ProcessData, ConsumeFin;
    ConsumeKeeps(c);
    DataKeeps(c, seg);
    ConsumeKeeps(ProcessData(c, seg));
  }

  lemma ConsumeKeeps(c: Conn)
    ensures var d := ConsumeFin(c); d.snd == c.snd && d.timing == c.timing && d.hist.sampled == c.hist.sampled
  {
  }

  lemma DataKeeps(c: Conn, seg: Seg)
    ensures var d := ProcessData(c, seg); d.snd == c.snd && d.timing == c.timing && d.hist.sampled == c.hist.sampled
  {
    hide Insert, ConsumeFin;
    ConsumeKeeps(c.(rcv := Insert(c.rcv, seg.pos, seg.payload), deferred := None));
  }

  /** During the handshake the SYN is in flight; in SYN-SENT it is what is timed. */
  ghost predicate SynInFlight(c: Conn) {
    && (c.state == SynSent || c.state == SynReceived ==> c.snd.una < c.snd.nxt && c.snd.buf == [])
    && (c.state == SynSent && c.timing.Some? ==> c.timing.value == c.snd.una)
  }

  lemma HandleSynReceivedTimed(c: Conn, seg: Seg, e: Env, log: seq<Seg>, tainted: bool)
    requires Timed(c, log, tainted)
    ensures TimedAfter(c, HandleSynReceived(c, seg, e), log, tainted)
  {
    hide Count, Timed, HandleData, Acknowledge, TakeWindow;
    if seg.ack != c.snd.nxt { Plain(c, c, log, tainted, RstSeg(seg.ack)); } else {
      var c1 := c.(snd := Acknowledge(c.snd, seg.ack), retries := 0, state := Established);
      AckEdge(c.snd, seg.ack);
      TakeWindowFrame(c1, seg);
      TimedSame(c, TakeWindow(c1, seg), log, tainted);
      HandleDataTimed(TakeWindow(c1, seg), seg, e, log, tainted);
      Rebase(c, TakeWindow(c1, seg), HandleData(TakeWindow(c1, seg), seg, e), log, tainted);
    }
  }

  lemma AckEdge(s: Send, ack: int)
    ensures Acknowledge(s, ack).nxt == s.nxt
  {
    hide Prune;
  }

  lemma SynchronizedTimed(c: Conn, seg: Seg, e: Env, log: seq<Seg>, tainted: bool)
    requires Timed(c, log, tainted)
    ensures TimedAfter(c, HandleSynchronized(c, seg, e), log, tainted)
  {
    hide Count, Timed, HandleData, HandleSynReceived, ProcessACK, AckSeg, HandleRst, Acceptable, SynRcvdOK, TakeWindow;
    AckSegEmpty(c, e);
    AckSegEmpty(EnterTimeWait(c), e);
    Silent(c, c, log, tainted);
    Silent(c, Shutdown(c), log, tainted);
    Plain(c, c, log, tainted, AckSeg(c, e));
    Plain(c, EnterTimeWait(c), log, tainted, AckSeg(EnterTimeWait(c), e));
    HandleRstTimed(c, seg, e, log, tainted);
    HandleSynReceivedTimed(c, seg, e, log, tainted);
    HandleDataTimed(c, seg, e, log, tainted);
    var o := ProcessACK(c, seg.ack, seg.opts.sack, e);
    ProcessACKTimed(c, seg.ack, seg.opts.sack, e, log, tainted);
    TakeWindowFrame(o.c, seg);
    Follow(c, o, TakeWindow(o.c, seg), [], log, tainted);
    assert o.segs + [] == o.segs;
  }

  lemma HandleRstTimed(c: Conn, seg: Seg, e: Env, log: seq<Seg>, tainted: bool)
    requires Timed(c, log, tainted)
    ensures TimedAfter(c, HandleRst(c, seg, e), log, tainted)
  {
    hide Count, Timed, AckSeg, Window;
    AckSegEmpty(c, e);
    Silent(c, c, log, tainted);
    Silent(c, Shutdown(c).(finRecvd := true), log, tainted);
    Plain(c, c, log, tainted, AckSeg(c, e));
  }

  /** A bare SYN in SYN-SENT is answered by a SYN-ACK that repeats ours. */
  predicate Repeats(c: Conn, a: Act) {
    c.state == SynSent && a.Deliver? && a.seg.flags.syn && !a.seg.flags.ack && !a.seg.flags.rst
  }

  lemma SynSentTimed(c: Conn, seg: Seg, e: Env, log: seq<Seg>, tainted: bool)
    requires Timed(c, log, tainted) && SynInFlight(c) && c.state == SynSent
    ensures TimedAfter(c, HandleSynSent(c, seg, e), log, tainted || Repeats(c, Deliver(seg)))
  {
    hide Count, Timed, AckSeg, Flush, Negotiate, TakeWindow, Synchronize, Acknowledge, SynOptions, RcvWindow;
    if Repeats(c, Deliver(seg)) {
      SimultaneousTimed(c, seg, e, log, tainted);
    } else {
      Silent(c, c, log, tainted);
      Silent(c, Shutdown(c).(finRecvd := true), log, tainted);
      Plain(c, c, log, tainted, RstSeg(seg.ack));
      if seg.flags.syn && !seg.flags.rst && c.snd.una < seg.ack <= c.snd.nxt {
        HandshakeTimed(c, seg, e, log, tainted);
      }
    }
  }

  lemma SyncFrame(c: Conn, seg: Seg)
    ensures var d := Synchronize(TakeWindow(Negotiate(c, seg.opts), seg), seg);
            d.snd == c.snd && d.timing == c.timing && d.hist.sampled == c.hist.sampled && d.state == c.state
  {
    hide Insert, ShiftLeft, ShiftRight;
  }

  lemma HandshakeTimed(c: Conn, seg: Seg, e: Env, log: seq<Seg>, tainted: bool)
    requires Timed(c, log, tainted)
    ensures var c1 := Synchronize(TakeWindow(Negotiate(c, seg.opts), seg), seg);
            var c2 := AckTiming(c1.(snd := Acknowledge(c1.snd, seg.ack), retries := 0, state := Established), seg.ack);
            var o := Flush(c2, e);
            TimedAfter(c, Out(o.c, [AckSeg(c2, e)] + o.segs), log, tainted)
  {
    hide Count, Timed, AckSeg, Flush, Negotiate, TakeWindow, Synchronize, Acknowledge;
    SyncFrame(c, seg);
    var c1 := Synchronize(TakeWindow(Negotiate(c, seg.opts), seg), seg);
    AckEdge(c1.snd, seg.ack);
    var c2 := AckTiming(c1.(snd := Acknowledge(c1.snd, seg.ack), retries := 0, state := Established), seg.ack);
    var g := AckSeg(c2, e);
    AckSegEmpty(c2, e);
    Plain(c, c2, log, tainted, g);
    var t := Taint(c, c2, tainted);
    FlushTimed(c2, e, log + [g], t);
    TimingKept(c2, e);
    NewTiming(c, c2.(timing := None), e, log, tainted);
    NewTimingKept(c, c2, e, log, tainted);
    assert log + [g] + Flush(c2, e).segs == log + ([g] + Flush(c2, e).segs);
  }

  lemma NewTimingKept(c: Conn, c2: Conn, e: Env, log: seq<Seg>, tainted: bool)
    requires Timed(c, log, tainted) && c2.snd.nxt == c.snd.nxt && (c2.timing == c.timing || c2.timing == None)
    ensures Taint(c, Flush(c2, e).c, tainted) == Taint(c2, Flush(c2, e).c, Taint(c, c2, tainted))
  {
    hide Flush, Count;
    TimingKept(c2, e);
  }

  lemma SimultaneousTimed(c: Conn, seg: Seg, e: Env, log: seq<Seg>, tainted: bool)
    requires Timed(c, log, tainted) && SynInFlight(c) && Repeats(c, Deliver(seg))
    ensures TimedAfter(c, HandleSynSent(c, seg, e), log, true)
  {
    hide AckSeg, Flush, Negotiate, TakeWindow, Synchronize, SynOptions, RcvWindow;
    SyncFrame(c, seg);
    var c2 := HandleSynSent(c, seg, e).c;
    var g := HandleSynSent(c, seg, e).segs[0];
    forall q ensures Count(log + [g], q) == Count(log, q) + if Occupies(g, q) then 1 else 0 { CountOne(log, g, q); }
  }

  // ----------------------------------------------------------------- all events

  lemma RetryTimed(c: Conn, e: Env, log: seq<Seg>, tainted: bool)
    requires Timed(c, log, tainted) && SynInFlight(c)
    ensures TimedAfter(c, OnRTO(c, e), log, tainted)
  {
    hide Count, Timed, Retransmit, QueueFin, RcvWindow, SynOptions;
    var c1 := c.(retries := c.retries + 1, timing := None);
    Silent(c, c, log, tainted);
    Silent(c, c1, log, tainted);
    Silent(c, Shutdown(c).(retries := c.retries + 1), log, tainted);
    StopTiming(c, c1, log, tainted);
    RetransmitTimed(c1, e, log, false);
    RetransmitFrame(c1, e);
    FinTimed(c1, e, log, false);
    FinFrame(c1, e);
    if c.state == SynSent { SendAgain(c1, log, false, SynSeg(c1, e)); }
    if c.state == SynReceived { SendAgain(c1, log, false, SynAckSeg(c1, e)); }
    StillUntimed(c, c1, e);
  }

  lemma StillUntimed(c: Conn, c1: Conn, e: Env)
    requires c1.timing == None
    ensures Retransmit(c1, e).c.timing == None && QueueFin(c1, e).c.timing == None
  {
    hide Build, RetransmitData;
  }

  lemma FinFrame(c: Conn, e: Env)
    ensures QueueFin(c, e).c.timing == c.timing
  {
    hide Build;
  }

  lemma CloseTimed(c: Conn, e: Env, log: seq<Seg>, tainted: bool)
    requires Timed(c, log, tainted)
    ensures TimedAfter(c, Close(c, e), log, tainted)
  {
    hide Count, Timed, Flush, QueueFin;
    Silent(c, c, log, tainted);
    Silent(c, Shutdown(c), log, tainted);
    if c.state == CloseWait {
      TimedSame(c, c.(state := LastAck), log, tainted);
      FinTimed(c.(state := LastAck), e, log, tainted);
      Rebase(c, c.(state := LastAck), QueueFin(c.(state := LastAck), e), log, tainted);
    } else if c.state == SynReceived {
      TimedSame(c, c.(state := FinWait1), log, tainted);
      FinTimed(c.(state := FinWait1), e, log, tainted);
      Rebase(c, c.(state := FinWait1), QueueFin(c.(state := FinWait1), e), log, tainted);
    } else if c.state == Established {
      FlushTimed(c, e, log, tainted);
      var o := Flush(c, e);
      var c1 := o.c.(state := FinWait1);
      var t := Taint(c, o.c, tainted);
      TimedSame(o.c, c1, log + o.segs, t);
      FinTimed(c1, e, log + o.segs, t);
      FinFrame(c1, e);
      assert log + o.segs + QueueFin(c1, e).segs == log + (o.segs + QueueFin(c1, e).segs);
    }
  }

  lemma PersistTimed(c: Conn, e: Env, log: seq<Seg>, tainted: bool)
    requires Timed(c, log, tainted)
    ensures TimedAfter(c, OnPersist(c, e), log, tainted)
  {
    hide Count, Timed, Flush, RcvWindow;
    Silent(c, c, log, tainted);
    FlushTimed(c, e, log, tainted);
    if c.sndWnd == 0 && Pending(c.snd) > 0 {
      var g := Seg(c.snd.nxt, c.rcv.nxt, ACK, RcvWindow(c), NO_OPTS, PeekUnsent(c.snd, 1));
      var d := c.(snd := AdvanceSent(c.snd, 1));
      SendFreshly(c, d, log, tainted, g);
      Untimed(d, log + [g], tainted);
    }
  }

  lemma OtherTimed(c: Conn, a: Act, e: Env, log: seq<Seg>, tainted: bool)
    requires Timed(c, log, tainted) && (a.Buffer? || a.Push? || a.Take? || a.Kill? || a.Expire? || a.Probe?)
    ensures TimedAfter(c, Apply(c, a, e), log, tainted)
  {
    hide Count, Timed, Flush, Read, RcvWindow, Options, WriteCount;
    Silent(c, c, log, tainted);
    Silent(c, Apply(c, Kill, e).c, log, tainted);
    FlushTimed(c, e, log, tainted);
    match a
    case Buffer(p) => Silent(c, c.(snd := Write(c.snd, p)), log, tainted);
    case Take(n) => Silent(c, c.(rcv := Read(c.rcv, n)), log, tainted);
    case Kill => Plain(c, Shutdown(c).(finRecvd := true), log, tainted, RstSeg(c.snd.nxt));
    case Expire => Silent(c, Shutdown(c).(timeWaitArmed := false), log, tainted);
    case Probe(_, _) =>
      Silent(c, Shutdown(c).(finRecvd := true), log, tainted);
      Plain(c, c, log, tainted, Build(c, e, c.snd.nxt - 1, ACK, []));
    case _ =>
  }

  lemma ClosedTimed(c: Conn, seg: Seg, log: seq<Seg>, tainted: bool)
    requires Timed(c, log, tainted)
    ensures TimedAfter(c, HandleClosed(c, seg), log, tainted)
  {
    hide Count, Timed;
    Silent(c, c, log, tainted);
    Plain(c, c, log, tainted, RstSeg(seg.ack));
    Plain(c, c, log, tainted, Seg(0, seg.pos + seg.Len(), RST_ACK, 0, NO_OPTS, []));
  }

  lemma EventTimed(c: Conn, a: Act, e: Env, log: seq<Seg>, tainted: bool)
    requires Timed(c, log, tainted) && SynInFlight(c) && !IsOpen(a)
    ensures TimedAfter(c, Apply(c, a, e), log, tainted || Repeats(c, a))
  {
    hide Timed, TimedAfter, HandleSynchronized, HandleSynSent, HandleClosed, Close, OnRTO, OnPersist, OnKeepalive,
        Abort, Flush, Read, Write;
    match a
    case Deliver(seg) =>
      if c.state == SynSent { SynSentTimed(c, seg, e, log, tainted); }
      else if c.state == Closed { ClosedTimed(c, seg, log, tainted); }
      else if c.state == Listen { Silent(c, c, log, tainted); }
      else { SynchronizedTimed(c, seg, e, log, tainted); }
    case Shut => CloseTimed(c, e, log, tainted);
    case Retry => RetryTimed(c, e, log, tainted);
    case Persist => PersistTimed(c, e, log, tainted);
    case _ => OtherTimed(c, a, e, log, tainted);
  }

  // ---------------------------------------------------------------------- samples

  lemma ProcessACKSamples(c: Conn, ack: int, sack: seq<Block>, e: Env)
    ensures Samples(c, ProcessACK(c, ack, sack, e).c)
  {
    hide Retransmit, Mark, Flush, Acknowledge;
    RetransmitFrame(c, e);
    MarkFrame(if e.fast then Retransmit(c, e).c else c, sack);
    MarkFrame(c.(snd := Acknowledge(c.snd, ack), retries := 0), sack);
    FlushFrame(Acked(c, ack, sack), e);
  }

  lemma HandleDataSamples(c: Conn, seg: Seg, e: Env)
    ensures Samples(c, HandleData(c, seg, e).c)
  {
    hide ProcessACK, Absorb, AckSeg, Stale, TakeWindow;
    var c0 := UpdateStamp(c, seg);
    ProcessACKSamples(c0, seg.ack, seg.opts.sack, e);
    ProcessACKFrame(c0, seg.ack, seg.opts.sack, e);
    var c1 := ProcessACK(c0, seg.ack, seg.opts.sack, e).c;
    TakeWindowFrame(c1, seg);
    ReceiveFrame(TakeWindow(c1, seg), seg);
  }

  /** Receiving never leads into the handshake states. */
  predicate NotIntoHandshake(s: State, t: State) { t == SynSent || t == SynReceived ==> s == t }

  lemma ConsumeStates(c: Conn)
    ensures NotIntoHandshake(c.state, ConsumeFin(c).state)
  {
  }

  lemma DataStates(c: Conn, seg: Seg)
    ensures NotIntoHandshake(c.state, ProcessData(c, seg).state)
  {
    hide Insert, ConsumeFin;
    ConsumeStates(c.(rcv := Insert(c.rcv, seg.pos, seg.payload), deferred := None));
  }

  lemma AbsorbStates(c: Conn, seg: Seg)
    ensures NotIntoHandshake(c.state, Absorb(c, seg).state)
  {
    hide ProcessData, ConsumeFin;
    DataStates(c, seg);
    ConsumeStates(if seg.payload != [] then ProcessData(c, seg) else c);
  }

  /** At most one sample, of what was being timed. */
  ghost predicate Samples(c: Conn, d: Conn) {
    d.hist.sampled == c.hist.sampled || (c.timing.Some? && d.hist.sampled == c.hist.sampled + [c.timing.value])
  }

  lemma SynReceivedSamples(c: Conn, seg: Seg, e: Env)
    ensures var d := HandleSynReceived(c, seg, e).c;
            Samples(c, d) && (d.state == SynReceived || d.state == SynSent ==> d == c)
  {
    hide HandleData, TakeWindow, Acknowledge;
    var c1 := c.(snd := Acknowledge(c.snd, seg.ack), retries := 0, state := Established);
    TakeWindowFrame(c1, seg);
    WindowTiming(c1, seg);
    HandleDataSamples(TakeWindow(c1, seg), seg, e);
    HandleDataStates(TakeWindow(c1, seg), seg, e);
  }

  lemma SynchronizedSamples(c: Conn, seg: Seg, e: Env)
    requires c.state != SynSent
    ensures var d := HandleSynchronized(c, seg, e).c;
            Samples(c, d) && (d.state == SynReceived || d.state == SynSent ==> d == c)
  {
    hide HandleData, HandleSynReceived, ProcessACK, AckSeg, HandleRst, Acceptable, SynRcvdOK, TakeWindow;
    HandleRstCoherent(c, seg, e);
    HandleDataSamples(c, seg, e);
    HandleDataStates(c, seg, e);
    SynReceivedSamples(c, seg, e);
    ProcessACKSamples(c, seg.ack, seg.opts.sack, e);
    ProcessACKFrame(c, seg.ack, seg.opts.sack, e);
    TakeWindowFrame(ProcessACK(c, seg.ack, seg.opts.sack, e).c, seg);
  }

  lemma WindowTiming(c: Conn, seg: Seg)
    ensures TakeWindow(c, seg).timing == c.timing
  {
    hide ShiftLeft, ShiftRight;
  }

  lemma HandleDataStates(c: Conn, seg: Seg, e: Env)
    ensures NotIntoHandshake(c.state, HandleData(c, seg, e).c.state)
  {
    hide ProcessACK, Absorb, AckSeg, Stale, TakeWindow;
    var c0 := UpdateStamp(c, seg);
    ProcessACKFrame(c0, seg.ack, seg.opts.sack, e);
    var c1 := ProcessACK(c0, seg.ack, seg.opts.sack, e).c;
    TakeWindowFrame(c1, seg);
    AbsorbStates(TakeWindow(c1, seg), seg);
  }

  lemma SynSentSamples(c: Conn, seg: Seg, e: Env)
    requires SynInFlight(c) && c.state == SynSent
    ensures var d := HandleSynSent(c, seg, e).c;
            Samples(c, d) && SynInFlight(d)
  {
    hide AckSeg, SynAckSeg, Flush, Negotiate, TakeWindow, Synchronize, Acknowledge;
    SyncFrame(c, seg);
    var c1 := Synchronize(TakeWindow(Negotiate(c, seg.opts), seg), seg);
    FlushFrame(AckTiming(c1.(snd := Acknowledge(c1.snd, seg.ack), retries := 0, state := Established), seg.ack), e);
  }

  lemma RetrySamples(c: Conn, e: Env)
    requires SynInFlight(c)
    ensures var d := OnRTO(c, e).c; d.hist.sampled == c.hist.sampled && SynInFlight(d)
  {
    hide Retransmit, Build, SynSeg, SynAckSeg;
    RetransmitFrame(c.(retries := c.retries + 1, timing := None), e);
  }

  lemma CloseSamples(c: Conn, e: Env)
    requires SynInFlight(c)
    ensures var d := Close(c, e).c; d.hist.sampled == c.hist.sampled && SynInFlight(d)
  {
    hide Flush, Build;
    FlushFrame(c, e);
  }

  lemma PersistSamples(c: Conn, e: Env)
    requires SynInFlight(c)
    ensures var d := OnPersist(c, e).c; d.hist.sampled == c.hist.sampled && SynInFlight(d)
  {
    hide Flush, RcvWindow, PeekUnsent;
    FlushFrame(c, e);
    if c.state == SynSent || c.state == SynReceived { FlushIdle(c, e); }
  }

  /** An event records at most one sample and keeps the SYN's place during the handshake. */
  lemma EventSamples(c: Conn, a: Act, e: Env)
    requires SynInFlight(c) && !IsOpen(a)
    ensures var d := Apply(c, a, e).c; Samples(c, d) && SynInFlight(d)
  {
    hide HandleSynchronized, HandleSynSent, Flush, Read, WriteCount, OnRTO, OnPersist, Close, Build;
    match a
    case Deliver(seg) => if c.state == SynSent { SynSentSamples(c, seg, e); } else { SynchronizedSamples(c, seg, e); }
    case Buffer(_) =>
    case Push => FlushFrame(c, e);
    case Shut => CloseSamples(c, e);
    case Retry => RetrySamples(c, e);
    case Persist => PersistSamples(c, e);
    case _ =>
  }

  // ------------------------------------------------------------------------- runs

  /** A connection with everything it ever sent, and whether what it times was sent again. */
  datatype Trace = Trace(c: Conn, log: seq<Seg>, tainted: bool)

  function TraceNext(tr: Trace, a: Act, e: Env): Trace {
    var o := Apply(tr.c, a, e);
    Trace(o.c, tr.log + o.segs, Taint(tr.c, o.c, tr.tainted || Repeats(tr.c, a)))
  }

  function TraceRun(tr: Trace, acts: seq<(Act, Env)>): Trace
    decreases acts
  {
    if acts == [] then tr else TraceRun(TraceNext(tr, acts[0].0, acts[0].1), acts[1..])
  }

  function TraceOpen(cfg: Config, open: Act, e: Env): Trace {
    var o := Apply(NewConn(cfg), open, e);
    Trace(o.c, o.segs, false)
  }

  ghost predicate GoodTrace(tr: Trace) { Timed(tr.c, tr.log, tr.tainted) && SynInFlight(tr.c) }

  lemma OpenTrace(cfg: Config, open: Act, e: Env)
    requires IsOpen(open)
    ensures GoodTrace(TraceOpen(cfg, open, e))
  {
    hide Insert, RcvWindow, SynOptions;
    var tr := TraceOpen(cfg, open, e);
    var g := tr.log[0];
    assert tr.log == [] + [g];
    forall q ensures Count(tr.log, q) == if Occupies(g, q) then 1 else 0 { CountOne([], g, q); }
  }

  lemma {:induction false} GoodRun(tr: Trace, acts: seq<(Act, Env)>)
    requires GoodTrace(tr) && NoOpens(acts)
    ensures GoodTrace(TraceRun(tr, acts))
    decreases acts
  {
    hide Apply, Timed, SynInFlight, Repeats;
    if acts != [] {
      StepsGood(tr, acts[0].0, acts[0].1);
      GoodRun(TraceNext(tr, acts[0].0, acts[0].1), acts[1..]);
    }
  }

  /**
   Karn's rule, exactly: over any life of a connection, an event takes an RTT sample of
   nothing but the timed position, and everything from there on was sent once if and only if
   no simultaneous open repeated the SYN being timed.
   */
  lemma KarnExactly(cfg: Config, open: Act, e0: Env, acts: seq<(Act, Env)>, a: Act, e: Env)
    requires IsOpen(open) && NoOpens(acts) && !IsOpen(a)
    ensures var tr := TraceRun(TraceOpen(cfg, open, e0), acts);
            var d := Apply(tr.c, a, e).c;
            || d.hist.sampled == tr.c.hist.sampled
            || (&& tr.c.timing.Some? && d.hist.sampled == tr.c.hist.sampled + [tr.c.timing.value]
                && tr.c.timing.value < tr.c.snd.nxt
                && (Once(tr.c, tr.log, tr.c.timing.value) <==> !tr.tainted))
  {
    hide Apply, SynInFlight, TraceOpen, TraceRun, Count;
    OpenTrace(cfg, open, e0);
    GoodRun(TraceOpen(cfg, open, e0), acts);
    EventSamples(TraceRun(TraceOpen(cfg, open, e0), acts).c, a, e);
  }

  /** Without a bare SYN delivered there is no taint: a client that never meets simultaneous open obeys the rule. */
  lemma {:induction false} NoTaint(tr: Trace, acts: seq<(Act, Env)>)
    requires !tr.tainted
    requires forall i :: 0 <= i < |acts| && acts[i].0.Deliver? ==> acts[i].0.seg.flags.ack || !acts[i].0.seg.flags.syn
    ensures !TraceRun(tr, acts).tainted
    decreases acts
  {
    hide Apply;
    if acts != [] { NoTaint(TraceNext(tr, acts[0].0, acts[0].1), acts[1..]); }
  }

  /** Meeting a bare SYN: SYN-RECEIVED, with the SYN still timed and now sent twice. */
  lemma MeetSyn(c: Conn, seg: Seg, e: Env)
    requires c.state == SynSent && seg.flags == SYN && seg.payload == [] && seg.opts == NO_OPTS
    ensures var d := HandleSynSent(c, seg, e).c;
            && d.state == SynReceived && d.snd == c.snd && d.timing == c.timing && d.hist.sampled == c.hist.sampled
            && d.rcv == NewRecv(seg.pos + 1, c.cfg.recvCap) && d.cfg == c.cfg && d.closed == c.closed
  {
    hide SynAckSeg, Insert, ShiftLeft, ShiftRight;
    InsertNothing(NewRecv(seg.pos + 1, c.cfg.recvCap), seg.pos + 1);
  }

  /** A plain ACK, in order, without data. */
  predicate PlainAck(c: Conn, seg: Seg) {
    seg.flags == ACK && seg.payload == [] && seg.opts == NO_OPTS && seg.pos == c.rcv.nxt && c.cfg.recvCap > 0
        && !c.cfg.tsOK
  }

  lemma PlainAckData(c: Conn, seg: Seg, e: Env)
    requires PlainAck(c, seg) && c.state == Established
    ensures var d := HandleData(c, seg, e).c;
            d == TakeWindow(ProcessACK(c, seg.ack, [], e).c, seg)
  {
    hide ProcessACK, TakeWindow;
    ProcessACKFrame(c, seg.ack, [], e);
    TakeWindowFrame(ProcessACK(c, seg.ack, [], e).c, seg);
  }

  /** The ACK of our SYN: ESTABLISHED, nothing sampled, the timing untouched. */
  lemma CompleteHandshake(c: Conn, seg: Seg, e: Env)
    requires c.state == SynReceived && PlainAck(c, seg) && seg.ack == c.snd.nxt && c.snd.una < c.snd.nxt && !e.fast
    ensures var d := HandleSegment(c, seg, e).c;
            && d.state == Established && d.timing == c.timing && d.hist.sampled == c.hist.sampled
            && d.snd.una == d.snd.nxt == c.snd.nxt
            && d.snd.buf == c.snd.buf[Min(c.snd.nxt - c.snd.una, |c.snd.buf|)..] && d.snd.cap == c.snd.cap
            && d.rcv == c.rcv && d.cfg == c.cfg && d.closed == c.closed
            && d.sndWnd == ShiftLeft(seg.wnd, c.cfg.sndShift)
  {
    hide AckSeg, ShiftLeft, ShiftRight, Prune, HandleData;
    var c1 := TakeWindow(c.(snd := Acknowledge(c.snd, seg.ack), retries := 0, state := Established), seg);
    PlainAckData(c1, seg, e);
    DupAck(c1, seg.ack, e);
  }

  lemma DupAck(c: Conn, ack: int, e: Env)
    requires ack <= c.snd.una && !e.fast
    ensures ProcessACK(c, ack, [], e).c == c
  {
  }

  /** An ACK past the timed position takes the sample. */
  lemma SampleTaken(c: Conn, seg: Seg, e: Env)
    requires c.state == Established && PlainAck(c, seg) && c.snd.una < seg.ack <= c.snd.nxt
    requires c.timing.Some? && c.timing.value < seg.ack
    ensures HandleSegment(c, seg, e).c.hist.sampled == c.hist.sampled + [c.timing.value]
  {
    hide AckSeg, ShiftLeft, ShiftRight, HandleData, ProcessACK, TakeWindow;
    PlainAckData(c, seg, e);
    SampledBy(c, seg.ack, e);
    TakeWindowFrame(ProcessACK(c, seg.ack, [], e).c, seg);
  }

  lemma SampledBy(c: Conn, ack: int, e: Env)
    requires c.snd.una < ack <= c.snd.nxt && c.timing.Some? && c.timing.value < ack
    ensures ProcessACK(c, ack, [], e).c.hist.sampled == c.hist.sampled + [c.timing.value]
  {
    hide Flush, Prune, Retransmit;
    FlushFrame(Acked(c, ack, []), e);
  }

  /** Writing a byte into an empty buffer and pushing it. */
  lemma PushByte(c: Conn, x: byte, e: Env)
    requires c.state == Established && !c.closed && c.snd.buf == [] && c.snd.una == c.snd.nxt && c.snd.cap > 0
    requires c.sndWnd > 0 && e.cwnd > 0 && c.cfg.mss > 0 && c.timing.Some?
    ensures var d := Apply(Apply(c, Buffer([x]), e).c, Push, e).c;
            && d == c.(snd := d.snd) && d.snd.una == c.snd.una && d.snd.nxt == c.snd.nxt + 1
  {
    hide Build, Flush;
    var c1 := c.(snd := Write(c.snd, [x]));
    assert c1.snd.buf == [x];
    FlushOne(c1, e);
  }

  lemma FlushOne(c: Conn, e: Env)
    requires |c.snd.buf| == 1 && c.snd.una == c.snd.nxt && c.sndWnd > 0 && e.cwnd > 0 && c.cfg.mss > 0 && c.timing.Some?
    ensures Flush(c, e).c == c.(snd := AdvanceSent(c.snd, 1))
  {
    hide Build;
    assert Quota(c, e) == 1;
    var c1 := c.(snd := AdvanceSent(c.snd, 1), timing := StartTiming(c.timing, c.snd.nxt));
    assert Quota(c1, e) == 0;
  }

  const SMALL := Config(10, 10, 10, 0, 0, false, false, false, false, false)

  /** Both sides connect, the peer's bare SYN and then its ACK arrive. */
  function Meeting(e: Env): Trace {
    var t0 := TraceOpen(SMALL, Opening(0), e);
    var t1 := TraceNext(t0, Deliver(Seg(100, 0, SYN, 10, NO_OPTS, [])), e);
    TraceNext(t1, Deliver(Seg(101, 1, ACK, 10, NO_OPTS, [])), e)
  }

  lemma MeetingIs(e: Env)
    requires !e.fast && e.cwnd > 0
    ensures var t2 := Meeting(e);
            && GoodTrace(t2) && t2.tainted && t2.c.timing == Some(0) && t2.c.hist.sampled == []
            && t2.c.state == Established && !t2.c.closed && t2.c.cfg == SMALL && t2.c.sndWnd > 0 && t2.c.rcv.nxt == 101
            && t2.c.snd.buf == [] && t2.c.snd.una == t2.c.snd.nxt == 1 && t2.c.snd.cap > 0
  {
    hide HandleSynSent, HandleSynchronized, Flush, RcvWindow, SynOptions, Count, GoodTrace;
    var g1, g2 := Seg(100, 0, SYN, 10, NO_OPTS, []), Seg(101, 1, ACK, 10, NO_OPTS, []);
    var t0 := TraceOpen(SMALL, Opening(0), e);
    OpenTrace(SMALL, Opening(0), e);
    MeetSyn(t0.c, g1, e);
    var t1 := TraceNext(t0, Deliver(g1), e);
    CompleteHandshake(t1.c, g2, e);
    StepsGood(t0, Deliver(g1), e);
    StepsGood(t1, Deliver(g2), e);
  }

  /**
   Simultaneous open breaks the rule. Both sides connect; the peer's bare SYN makes us repeat
   ours in a SYN-ACK; the first acknowledgement of data then samples the SYN, sent twice.
   */
  lemma SimultaneousOpenSamplesTwice(e: Env)
    requires !e.fast && e.cwnd > 0
    ensures var t4 := TraceNext(TraceNext(Meeting(e), Buffer([7]), e), Push, e);
            var d := Apply(t4.c, Deliver(Seg(101, 2, ACK, 10, NO_OPTS, [])), e).c;
            t4.c.hist.sampled == [] && d.hist.sampled == [0] && Count(t4.log, 0) >= 2
  {
    hide HandleSynSent, HandleSynchronized, Flush, RcvWindow, SynOptions, Count, Meeting;
    MeetingIs(e);
    var t2 := Meeting(e);
    var t3 := TraceNext(t2, Buffer([7]), e);
    var t4 := TraceNext(t3, Push, e);
    PushByte(t2.c, 7, e);
    SampleTaken(t4.c, Seg(101, 2, ACK, 10, NO_OPTS, []), e);
    StepsGood(t2, Buffer([7]), e);
    StepsGood(t3, Push, e);
  }

  lemma StepsGood(tr: Trace, a: Act, e: Env)
    requires GoodTrace(tr) && !IsOpen(a)
    ensures GoodTrace(TraceNext(tr, a, e))
  {
    hide Apply, Timed, SynInFlight, Repeats;
    EventTimed(tr.c, a, e, tr.log, tr.tainted);
    EventSamples(tr.c, a, e);
  }
}
