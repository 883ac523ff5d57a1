/**
 Timers: what a timeout resends, when the connection gives up, what the persist timer probes
 with, and why a lost FIN stays lost.
 */
module Recovery {
  import opened SeqSpace
  import opened RecvModel
  import opened SendModel
  import opened ConnModel
  import opened ConnStates
  import opened SegmentRules
  import opened Direction
  import opened Endpoint
  import opened Network
  import opened StreamTheorems
  import opened CloseTheorems

  // ---------------------------------------------------------------- what a timeout resends

  /** Where the buffered bytes in flight end. */
  function FlightEnd(s: Send): int { Min(s.nxt, s.una + |s.buf|) }

  /** A byte in flight that no kept block covers. */
  predicate Wanting(s: Send, q: int) { s.una <= q < FlightEnd(s) && !IsSACKed(s.sacked, q) }

  /** q is the first of them. */
  ghost predicate FirstWanting(s: Send, q: int) { Wanting(s, q) && forall p :: s.una <= p < q ==> !Wanting(s, p) }

  lemma ResumeIsFirst(s: Send)
    requires Short(s.sacked)
    ensures forall q :: Wanting(s, q) ==> Resume(s) <= q
    ensures Resume(s) < FlightEnd(s) <==> FirstWanting(s, Resume(s))
  {
    hide Skip;
    SkipStops(s.sacked, s.una);
    forall q | Wanting(s, q) ensures Resume(s) <= q {
      if q < Resume(s) { SkipIsFirst(s.sacked, s.una, q); }
    }
  }

  /** The bytes in flight from q on, up to n. */
  function Carried(s: Send, q: int, n: nat): seq<byte>
    requires Wanting(s, q)
  {
    s.buf[q - s.una..Min(FlightEnd(s) - s.una, q - s.una + n)]
  }

  /** What a retransmission carries: from the first byte wanting, as much as one segment and the flight hold. */
  lemma ResendExtent(s: Send, n: nat)
    requires Short(s.sacked) && n > 0
    ensures RetransmitData(s, n) != [] <==> exists q :: Wanting(s, q)
    ensures forall q :: FirstWanting(s, q) ==> RetransmitData(s, n) == Carried(s, q, n)
  {
    hide Resume;
    ResumeIsFirst(s);
    assert Min(Unacked(s), |s.buf|) == FlightEnd(s) - s.una;
    forall q | FirstWanting(s, q) ensures q == Resume(s) { }
  }

  predicate Tries(c: Conn) { !c.closed && c.state != Closed && c.retries < 8 }

  /**
   In ESTABLISHED and CLOSE-WAIT a timeout resends exactly if some byte in flight is covered by no
   block: one segment, at SND.UNA, with the bytes from the first such one on.
   */
  lemma TimeoutResends(c: Conn, e: Env)
    requires Tries(c) && (c.state == Established || c.state == CloseWait) && c.cfg.mss > 0 && Short(c.snd.sacked)
    ensures var o := OnRTO(c, e);
            && o.c == c.(retries := c.retries + 1, timing := None)
            && (o.segs != [] <==> exists q :: Wanting(c.snd, q))
            && (o.segs != [] ==> |o.segs| == 1 && Resends(c, o.segs[0]))
  {
    hide Retransmit, Wanting, FirstWanting, Carried;
    Retried(c.(retries := c.retries + 1, timing := None), e);
    ResendExtent(c.snd, c.cfg.mss);
  }

  lemma Retried(c: Conn, e: Env)
    requires c.timing == None
    ensures var o, data := Retransmit(c, e), RetransmitData(c.snd, c.cfg.mss);
            && o.c == c && (o.segs == [] <==> data == []) && |o.segs| <= 1
            && (o.segs != [] ==>
                  var g := o.segs[0];
                  && g.pos == c.snd.una && g.ack == c.rcv.nxt && g.flags == Flags(false, true, false, false, true)
                  && g.payload == data)
  {
    hide RetransmitData, Build;
    BuildIs(c, e, c.snd.una, ACK_PSH, RetransmitData(c.snd, c.cfg.mss));
  }

  /** g resends: it stands at SND.UNA and carries the bytes from the first one wanting. */
  ghost predicate Resends(c: Conn, g: Seg) {
    && g.pos == c.snd.una && g.ack == c.rcv.nxt && g.flags == Flags(false, true, false, false, true) && g.payload != []
    && forall q :: FirstWanting(c.snd, q) ==> g.payload == Carried(c.snd, q, c.cfg.mss)
  }

  lemma BuildIs(c: Conn, e: Env, pos: int, flags: Flags, payload: seq<byte>)
    ensures var g := Build(c, e, pos, flags, payload);
            g.pos == pos && g.flags == flags && g.payload == payload && g.ack == c.rcv.nxt
  {
    hide RcvWindow, Options;
  }

  /** In every run those are bytes that were written, from where the first one is wanting. */
  lemma TimeoutResendsWritten(cfgA: Config, cfgB: Config, iss: int, e: Env, evs: seq<Event>, side: bool, f: Env, q: int)
    requires Usable(cfgA) && Usable(cfgB)
    ensures var w := WorldAfter(cfgA, cfgB, iss, e, evs);
            var x, d := Me(w, side), Mine(w, side).out;
            w.accepted && Tries(x) && (x.state == Established || x.state == CloseWait) && x.cfg.mss > 0
            && Mine(w, side).peer.cfg.recvCap < TWO31 && FirstWanting(x.snd, q) ==>
              var o := OnRTO(x, f);
              && |o.segs| == 1 && o.segs[0].pos == x.snd.una
              && var n := Min(x.cfg.mss, FlightEnd(x.snd) - q);
                 n > 0 && d.base <= q && q + n <= d.base + |d.written| && o.segs[0].payload == Bytes(d, q, q + n)
  {
    hide WorldAfter, Inv, Dirs, Settled, Wanting, OnRTO, FlightEnd, Carried;
    AfterInv(cfgA, cfgB, iss, e, evs);
    var w := WorldAfter(cfgA, cfgB, iss, e, evs);
    var x, l := Me(w, side), Mine(w, side);
    if w.accepted && Tries(x) && (x.state == Established || x.state == CloseWait) && x.cfg.mss > 0
       && l.peer.cfg.recvCap < TWO31 && FirstWanting(x.snd, q) {
      MineDirs(w, side);
      BlocksShort(x, l);
      TimeoutResends(x, f);
      WantingWritten(x, l, q, x.cfg.mss);
    }
  }

  /** The peer never reports more than its buffer holds. */
  lemma BlocksShort(x: Conn, l: Link)
    requires Dirs(x, l) && l.peer.cfg.recvCap < TWO31
    ensures Short(x.snd.sacked)
  {
    hide SndOk, RcvOpen, RcvEnded, DataOk, AckOk, BlockHeld, Apart;
    forall i | 0 <= i < |x.snd.sacked| ensures x.snd.sacked[i].right - x.snd.sacked[i].left < TWO31 {
      assert x.snd.sacked[i] in x.snd.sacked;
    }
  }

  lemma WantingWritten(x: Conn, l: Link, q: int, n: nat)
    requires Dirs(x, l) && FirstWanting(x.snd, q) && n > 0
    ensures var k := Min(n, FlightEnd(x.snd) - q);
            && k > 0 && l.out.base <= q && q + k <= l.out.base + |l.out.written|
            && Carried(x.snd, q, n) == Bytes(l.out, q, q + k)
  {
    hide RcvOk, AcksOk, DataOk, AckOk;
    SliceWritten(l.out, x.snd, q, q + Min(n, FlightEnd(x.snd) - q));
  }

  lemma SliceWritten(d: Dir, s: Send, p: int, q: int)
    requires SndOk(d, s) && s.una <= p < q <= s.una + |s.buf|
    ensures d.base <= p && q <= d.base + |d.written| && s.buf[p - s.una..q - s.una] == Bytes(d, p, q)
  {
    if s.una > d.base { TailSlice(d.written, s.una - d.base, p - s.una, q - s.una); }
    else { assert p == d.base ==> d.written[0..q - d.base] == d.written[..q - d.base]; }
  }

  /** The other states repeat what they wait for: the SYN, the SYN-ACK, or a FIN; and nothing else. */
  lemma TimeoutRepeats(c: Conn, e: Env)
    requires Tries(c) && c.state != Established && c.state != CloseWait
    ensures var o := OnRTO(c, e);
            && o.c.state == c.state && o.c.retries == c.retries + 1 && o.c.timing == None
            && (c.state in {SynSent, SynReceived, FinWait1, LastAck} <==> o.segs != []) && |o.segs| <= 1
            && (c.state == SynSent ==>
                  o.segs[0].flags == Flags(true, false, false, false, false) && o.segs[0].pos == c.snd.una)
            && (c.state == SynReceived ==>
                  o.segs[0].flags == Flags(true, true, false, false, false) && o.segs[0].pos == c.snd.una
                  && o.segs[0].ack == c.rcv.nxt)
            && (c.state in {FinWait1, LastAck} ==>
                  o.segs[0].flags == Flags(false, true, true, false, false) && o.segs[0].pos == c.snd.nxt
                  && o.segs[0].payload == [] && o.c.snd == c.snd.(nxt := c.snd.nxt + 1))
            && (o.segs != [] ==> o.segs[0].payload == [])
  {
    hide RcvWindow, Options, SynOptions;
  }

  // ------------------------------------------------------------------------ giving up

  /** An event that shows the peer is there: SND.UNA moves, or the handshake goes on. */
  ghost predicate Progress(c: Conn, a: Act, d: Conn) {
    a.Deliver? && (d.snd.una != c.snd.una
        || (c.state in {SynSent, SynReceived} && d.state != c.state && d.state != Closed))
  }

  /** Timeouts since the last progress. */
  ghost function Unanswered(c: Conn, acts: seq<(Act, Env)>, n: nat): nat
    decreases acts
  {
    if acts == [] then n
    else
      var a, d := acts[0].0, Apply(c, acts[0].0, acts[0].1).c;
      Unanswered(d, acts[1..], if Progress(c, a, d) then 0 else if a.Retry? && c.state != Closed then n + 1 else n)
  }

  /** The flag and the state agree, an open connection has not used up its retries, and TIME-WAIT has its timer. */
  ghost predicate Counted(c: Conn) {
    && (c.closed <==> c.state == Closed) && (c.state != Closed ==> c.retries <= 8)
    && (c.state == TimeWait ==> c.timeWaitArmed)
  }

  lemma DataRetries(c: Conn, seg: Seg, e: Env)
    ensures var d := HandleData(c, seg, e).c;
            && d.closed == c.closed && (d.state == Closed <==> c.state == Closed)
            && (d.state == Listen <==> c.state == Listen)
            && (c.state != TimeWait && d.state == TimeWait ==> d.timeWaitArmed)
            && d.retries == if d.snd.una != c.snd.una then 0 else c.retries
  {
    hide ProcessACK, Absorb, AckSeg, Stale, TakeWindow;
    var c0 := UpdateStamp(c, seg);
    ProcessACKFrame(c0, seg.ack, seg.opts.sack, e);
    ACKRetries(c0, seg.ack, seg.opts.sack, e);
    var c1 := ProcessACK(c0, seg.ack, seg.opts.sack, e).c;
    TakeWindowFrame(c1, seg);
    AbsorbFrame(TakeWindow(c1, seg), seg);
    AbsorbOpen(TakeWindow(c1, seg), seg);
  }

  lemma AbsorbOpen(c: Conn, seg: Seg)
    ensures Absorb(c, seg).state == Closed <==> c.state == Closed
    ensures Absorb(c, seg).state == Listen <==> c.state == Listen
    ensures c.state != TimeWait && Absorb(c, seg).state == TimeWait ==> Absorb(c, seg).timeWaitArmed
  {
    hide Insert, ConsumeFin;
    var c1 := c.(rcv := Insert(c.rcv, seg.pos, seg.payload));
    FinConsumedState(c1.(deferred := None));
    FinConsumedState(if seg.payload != [] then ProcessData(c, seg) else c);
  }

  lemma ACKRetries(c: Conn, ack: int, sack: seq<Block>, e: Env)
    ensures var d := ProcessACK(c, ack, sack, e).c; d.retries == if d.snd.una != c.snd.una then 0 else c.retries
  {
    hide Retransmit, Mark, Acked, Flush, AckSeg;
    ProcessACKFrame(c, ack, sack, e);
    if c.snd.una < ack <= c.snd.nxt {
      AckedFrame(c, ack, sack);
      FlushFrame(Acked(c, ack, sack), e);
    } else if ack <= c.snd.una {
      RetransmitFrame(c, e);
      MarkFrame(if e.fast then Retransmit(c, e).c else c, sack);
    }
  }

  lemma HandshakeRetries(c: Conn, seg: Seg, e: Env)
    requires c.state == SynReceived && Counted(c)
    ensures var d := HandleSynReceived(c, seg, e).c;
            && !d.closed && d.state in {SynReceived, Established, CloseWait}
            && (d.state == SynReceived ==> d == c) && (d.state != SynReceived ==> d.retries == 0)
  {
    hide HandleData, TakeWindow, Acknowledge;
    var c1 := c.(snd := Acknowledge(c.snd, seg.ack), retries := 0, state := Established);
    TakeWindowFrame(c1, seg);
    DataRetries(TakeWindow(c1, seg), seg, e);
    HandleDataState(TakeWindow(c1, seg), seg, e);
  }

  lemma SynchronizedRetries(c: Conn, seg: Seg, e: Env)
    requires c.state !in {Closed, Listen, SynSent} && Counted(c)
    ensures var d := HandleSynchronized(c, seg, e).c;
            && (d.closed <==> d.state == Closed)
            && d.retries == (if Progress(c, Deliver(seg), d) then 0 else c.retries) && d.state != Listen
            && (d.state == TimeWait ==> d.timeWaitArmed)
  {
    hide ProcessACK, HandleData, HandleSynReceived, AckSeg, HandleRst, Acceptable, SynRcvdOK, TakeWindow;
    HandleRstCoherent(c, seg, e);
    if c.state == SynReceived { HandshakeRetries(c, seg, e); }
    else if c.state == CloseWait {
      ACKRetries(c, seg.ack, seg.opts.sack, e);
      ProcessACKFrame(c, seg.ack, seg.opts.sack, e);
      TakeWindowFrame(ProcessACK(c, seg.ack, seg.opts.sack, e).c, seg);
    } else if c.state in {Established, FinWait1, FinWait2} { DataRetries(c, seg, e); }
  }

  lemma SynSentRetries(c: Conn, seg: Seg, e: Env)
    requires c.state == SynSent && Counted(c)
    ensures var d := HandleSynSent(c, seg, e).c;
            && (d.closed <==> d.state == Closed)
            && d.retries == (if Progress(c, Deliver(seg), d) then 0 else c.retries) && d.state != Listen
            && d.state != TimeWait
  {
    hide AckSeg, SynAckSeg, Flush, TakeWindow, Acknowledge, Insert, Negotiate;
    NegotiateFrame(c, seg.opts);
    TakeWindowFrame(Negotiate(c, seg.opts), seg);
    var c1 := Synchronize(TakeWindow(Negotiate(c, seg.opts), seg), seg);
    FlushFrame(AckTiming(c1.(snd := Acknowledge(c1.snd, seg.ack), retries := 0, state := Established), seg.ack), e);
  }

  /** Each event: progress forgets the count, a timeout of an open connection adds one, anything else keeps it. */
  lemma EventCounted(c: Conn, a: Act, e: Env)
    requires Counted(c) && !IsOpen(a) && c.state != Listen
    ensures var d := Apply(c, a, e).c;
            && Counted(d) && d.state != Listen
            && d.retries == (if Progress(c, a, d) then 0
                             else if a.Retry? && c.state != Closed then c.retries + 1 else c.retries)
            && (a.Retry? && c.state != Closed ==> (d.state == Closed <==> c.retries == 8))
  {
    hide Flush, Retransmit, HandleSynchronized, HandleSynSent, Read, Write, Build, SynSeg, SynAckSeg, RcvWindow,
        PeekUnsent;
    FlushFrame(c, e);
    RetransmitFrame(c.(retries := c.retries + 1, timing := None), e);
    if a.Deliver? {
      if c.state == SynSent { SynSentRetries(c, a.seg, e); }
      else if c.state != Closed { SynchronizedRetries(c, a.seg, e); }
    }
  }

  lemma {:induction false} RunCounted(c: Conn, acts: seq<(Act, Env)>)
    requires Counted(c) && c.state != Listen && NoOpens(acts)
    ensures var d := Run(c, acts); Counted(d) && d.state != Listen && d.retries == Unanswered(c, acts, c.retries)
    decreases acts
  {
    hide Apply, Counted, Progress;
    if acts != [] {
      EventCounted(c, acts[0].0, acts[0].1);
      RunCounted(Apply(c, acts[0].0, acts[0].1).c, acts[1..]);
    }
  }

  lemma OpenCounted(cfg: Config, open: Act, e: Env)
    requires IsOpen(open)
    ensures var c := Apply(NewConn(cfg), open, e).c;
            Counted(c) && c.state != Listen && c.state != Closed && c.retries == 0
  {
    hide RcvWindow, SynOptions, Insert;
  }

  /**
   Over every life: an open connection has had at most eight timeouts since the peer was last heard
   of, and one more closes it exactly if it has had eight.
   */
  lemma GivesUpExactly(cfg: Config, open: Act, e0: Env, acts: seq<(Act, Env)>, e: Env)
    requires IsOpen(open) && NoOpens(acts)
    ensures var c0 := Apply(NewConn(cfg), open, e0).c;
            var c := Run(NewConn(cfg), [(open, e0)] + acts);
            var n := Unanswered(c0, acts, 0);
            && (c.closed <==> c.state == Closed) && c.retries == n && (c.state == TimeWait ==> c.timeWaitArmed)
            && (c.state != Closed ==> n <= 8 && (OnRTO(c, e).c.state == Closed <==> n == 8))
  {
    hide Apply, OnRTO;
    OpenCounted(cfg, open, e0);
    assert ([(open, e0)] + acts)[1..] == acts;
    RunCounted(Apply(NewConn(cfg), open, e0).c, acts);
    RetryCloses(Run(NewConn(cfg), [(open, e0)] + acts), e);
  }

  lemma RetryCloses(c: Conn, e: Env)
    requires Counted(c) && c.state != Listen
    ensures c.state != Closed ==> (OnRTO(c, e).c.state == Closed <==> c.retries == 8)
  {
    hide Apply, OnRTO, HandleSegment;
    EventCounted(c, Retry, e);
    assert Apply(c, Retry, e) == OnRTO(c, e) by { RetryIs(c, e); }
  }

  lemma RetryIs(c: Conn, e: Env)
    ensures Apply(c, Retry, e) == OnRTO(c, e)
  {
    hide OnRTO, HandleSegment, Flush, Close;
  }

  // -------------------------------------------------------------------- the persist timer

  /**
   With the window closed and data waiting, the persist timer sends exactly the next byte; with the
   window open it flushes; otherwise it does nothing.
   */
  lemma PersistExactly(c: Conn, e: Env)
    requires !c.closed && c.state != Closed
    ensures var o := OnPersist(c, e);
            && (c.sndWnd == 0 && Pending(c.snd) > 0 ==>
                  && o.c == c.(snd := c.snd.(nxt := c.snd.nxt + 1)) && |o.segs| == 1
                  && var g := o.segs[0];
                     g.pos == c.snd.nxt && g.ack == c.rcv.nxt && g.payload == [c.snd.buf[Unacked(c.snd)]]
                     && g.flags == Flags(false, true, false, false, false))
            && (c.sndWnd == 0 && Pending(c.snd) <= 0 ==> o == Out(c, []))
            && (c.sndWnd > 0 ==> o == Flush(c, e))
  {
    hide RcvWindow, Flush;
  }

  // ---------------------------------------------------------------------- a lost FIN

  /** No FIN of number f reaches the endpoint on the given side. */
  ghost predicate FinNeverArrives(evs: seq<Event>, side: bool, f: int) {
    forall i :: 0 <= i < |evs| ==> !BringsFin(evs[i], side, f)
  }

  predicate BringsFin(ev: Event, side: bool, f: int) {
    match ev
    case AtA(Deliver(g), _) => side && g.flags.fin && g.pos == f
    case AtB(Deliver(g), _) => !side && g.flags.fin && g.pos == f
    case _ => false
  }

  /** The peer has consumed no FIN and defers none of number f. */
  ghost predicate Unaware(p: Conn, f: int) { p.hist.finsIn == 0 && p.deferred != Some(f) }

  /** One segment makes a connection consume number f only if it, or one deferred, is that FIN. */
  lemma AbsorbUnaware(c: Conn, seg: Seg, f: int)
    requires Unaware(c, f) && !(seg.flags.fin && seg.End() == f)
    ensures var d := Absorb(c, seg);
            d.deferred != Some(f) && (d.hist.finsIn == 0 || d.hist.finsIn == 2 || d.rcv.nxt - 1 != f)
  {
    hide Insert, ConsumeFin;
    var c1 := c.(rcv := Insert(c.rcv, seg.pos, seg.payload));
    ConsumeKeeps(c1.(deferred := None));
    ConsumeKeeps(if seg.payload != [] then ProcessData(c, seg) else c);
  }

  lemma ConsumeKeeps(c: Conn)
    ensures var d := ConsumeFin(c);
            d.deferred == c.deferred && d.hist.finsIn == c.hist.finsIn + 1 && d.rcv.nxt == c.rcv.nxt + 1
  {
  }

  /** d, reached by an event that is not that FIN, does not know of number f either, unless it consumed another FIN. */
  ghost predicate StillUnaware(d: Conn, f: int) {
    d.deferred != Some(f) && (d.hist.finsIn == 0 || d.hist.finsIn == 2 || d.rcv.nxt - 1 != f)
  }

  lemma DataUnaware(c: Conn, seg: Seg, e: Env, f: int)
    requires Unaware(c, f) && !(seg.flags.fin && seg.End() == f)
    ensures StillUnaware(HandleData(c, seg, e).c, f)
  {
    hide ProcessACK, Absorb, AckSeg, Stale, TakeWindow;
    var c0 := UpdateStamp(c, seg);
    ProcessACKFrame(c0, seg.ack, seg.opts.sack, e);
    var c1 := ProcessACK(c0, seg.ack, seg.opts.sack, e).c;
    TakeWindowFrame(c1, seg);
    AbsorbUnaware(TakeWindow(c1, seg), seg, f);
  }

  lemma SynchronizedUnaware(c: Conn, seg: Seg, e: Env, f: int)
    requires Unaware(c, f) && !(seg.flags.fin && seg.End() == f)
    ensures StillUnaware(HandleSynchronized(c, seg, e).c, f)
  {
    hide ProcessACK, HandleData, AckSeg, HandleRst, Acceptable, SynRcvdOK, TakeWindow, Acknowledge;
    HandleRstCoherent(c, seg, e);
    DataUnaware(c, seg, e, f);
    ProcessACKFrame(c, seg.ack, seg.opts.sack, e);
    TakeWindowFrame(ProcessACK(c, seg.ack, seg.opts.sack, e).c, seg);
    var c1 := c.(snd := Acknowledge(c.snd, seg.ack), retries := 0, state := Established);
    TakeWindowFrame(c1, seg);
    DataUnaware(TakeWindow(c1, seg), seg, e, f);
  }

  lemma SynSentUnaware(c: Conn, seg: Seg, e: Env, f: int)
    requires Unaware(c, f)
    ensures Unaware(HandleSynSent(c, seg, e).c, f)
  {
    hide AckSeg, SynAckSeg, Flush, TakeWindow, Acknowledge, Insert, Negotiate;
    NegotiateFrame(c, seg.opts);
    TakeWindowFrame(Negotiate(c, seg.opts), seg);
    var c1 := Synchronize(TakeWindow(Negotiate(c, seg.opts), seg), seg);
    FlushFrame(AckTiming(c1.(snd := Acknowledge(c1.snd, seg.ack), retries := 0, state := Established), seg.ack), e);
  }

  lemma EventUnaware(c: Conn, a: Act, e: Env, f: int)
    requires Unaware(c, f) && !IsOpen(a) && (a.Deliver? ==> !(a.seg.flags.fin && a.seg.End() == f))
    ensures StillUnaware(Apply(c, a, e).c, f)
  {
    hide Flush, Retransmit, HandleSynchronized, HandleSynSent, Read, Write, Build, SynSeg, SynAckSeg, RcvWindow,
        PeekUnsent;
    FlushFrame(c, e);
    RetransmitFrame(c.(retries := c.retries + 1, timing := None), e);
    if a.Deliver? {
      SynchronizedUnaware(c, a.seg, e, f);
      SynSentUnaware(c, a.seg, e, f);
    }
  }

  /** After a clean close the only FIN that can be consumed is the first. */
  lemma OnlyTheFirst(x: Conn, l: Link)
    requires Dirs(x, l) && ClosedShort(x, l.out, 0) && l.peer.hist.finsIn > 0
    ensures l.peer.hist.finsIn == 1 && l.peer.rcv.nxt - 1 == x.hist.finOut.value
  {
    hide SndOk, AcksOk, DataOk, AckOk, RcvOpen, Parked;
  }

  lemma FinSegment(x: Conn, l: Link, g: Seg)
    requires Dirs(x, l) && l.peer.hist.finsIn == 0 && g in l.xs && g.flags.fin
    ensures g.End() == g.pos
  {
    hide SndOk, RcvOk, AcksOk, AckOk;
    assert DataOk(l.out, x.snd.nxt, g);
  }

  lemma NextUnaware(w: World, side: bool, ev: Event, f: int)
    requires Inv(w) && w.accepted && ClosedShort(Me(w, side), Mine(w, side).out, 0)
    requires f == Me(w, side).hist.finOut.value && Unaware(Me(w, !side), f) && !BringsFin(ev, !side, f)
    ensures var v := Next(w, ev); Inv(v) && v.accepted && Unaware(Me(v, !side), f)
  {
    hide Apply, Inv, Dirs, Settled, Emit, Noted;
    NextInv(w, ev);
    ShortStays(w, side, ev, 0);
    MineDirs(w, side);
    match ev
    case AtA(a, e) => if Possible(a, w.ba) { StepUnaware(w, side, true, a, e, f); }
    case AtB(a, e) => if Possible(a, w.ab) { StepUnaware(w, side, false, a, e, f); }
    case Accept(_, _, _) =>
  }

  lemma StepUnaware(w: World, side: bool, at: bool, a: Act, e: Env, f: int)
    requires Inv(w) && w.accepted && ClosedShort(Me(w, side), Mine(w, side).out, 0) && Possible(a, Mine(w, at).ps)
    requires f == Me(w, side).hist.finOut.value && Unaware(Me(w, !side), f) && !BringsFin(Happens(at, a, e), !side, f)
    ensures Unaware(Me(Next(w, Happens(at, a, e)), !side), f)
  {
    hide Apply, Inv, Dirs, Settled, Emit, Noted, Next;
    var v := Next(w, Happens(at, a, e));
    StepIs(w, at, a, e);
    NextInv(w, Happens(at, a, e));
    ShortStays(w, side, Happens(at, a, e), 0);
    if at != side {
      MineDirs(w, side);
      MineDirs(v, side);
      if a.Deliver? && a.seg.flags.fin { FinSegment(Me(w, side), Mine(w, side), a.seg); }
      EventUnaware(Me(w, at), a, e, f);
      if Me(v, at).hist.finsIn > 0 {
        OnlyTheFirst(Me(v, side), Mine(v, side));
        FirstFinStays(w, side, Happens(at, a, e));
      }
    }
  }

  lemma FirstFinStays(w: World, side: bool, ev: Event)
    requires Inv(w) && w.accepted && Me(w, side).hist.finOut.Some?
    ensures Me(Next(w, ev), side).hist.finOut == Me(w, side).hist.finOut
  {
    hide Apply, Emit, Dirs, Settled, Noted;
    match ev
    case AtA(a, e) => if Possible(a, w.ba) { EventCaps(w.a, a, e); }
    case AtB(a, e) => if Possible(a, w.ab) { EventCaps(w.b, a, e); }
    case Accept(_, _, _) =>
  }

  lemma {:induction false} RunUnaware(w: World, side: bool, evs: seq<Event>, f: int)
    requires Inv(w) && w.accepted && ClosedShort(Me(w, side), Mine(w, side).out, 0)
    requires f == Me(w, side).hist.finOut.value && Unaware(Me(w, !side), f) && FinNeverArrives(evs, !side, f)
    ensures Unaware(Me(Exec(w, evs), !side), f)
    decreases evs
  {
    hide Next, Inv, Me, Mine, Unaware, BringsFin;
    if evs != [] {
      ShortStays(w, side, evs[0], 0);
      NextUnaware(w, side, evs[0], f);
      FirstFinStays(w, side, evs[0]);
      RunUnaware(Next(w, evs[0]), side, evs[1..], f);
    }
  }

  /** Before our FIN the peer knows of none. */
  lemma NoFinKnown(x: Conn, l: Link)
    requires Dirs(x, l) && l.out.fins == {}
    ensures l.peer.hist.finsIn == 0 && l.peer.deferred == None
  {
    hide SndOk, AcksOk, DataOk, AckOk, Parked, ValidRecv, HoldsWritten;
  }

  /**
   A lost FIN stays lost: after a close that leaves nothing behind, in every run in which the FIN that
   Close queued does not arrive, the peer never consumes one, however often timeouts repeat it, for
   each repetition takes a new number.
   */
  lemma LostFinStaysLost(cfgA: Config, cfgB: Config, iss: int, e: Env, evs: seq<Event>, side: bool, f: Env,
                         later: seq<Event>)
    requires Usable(cfgA) && Usable(cfgB)
    requires var w := WorldAfter(cfgA, cfgB, iss, e, evs);
             && w.accepted && Closable(Me(w, side)) && AllGoesOut(Me(w, side), f)
             && FinNeverArrives(later, !side, FinOf(Me(w, side), f).pos)
    ensures Mine(AfterClose(WorldAfter(cfgA, cfgB, iss, e, evs), side, f, later), side).peer.hist.finsIn == 0
  {
    hide WorldAfter, Inv, Dirs, Settled, LeftBehind, AllGoesOut, Closable, FinOf, Next, SndOk, FinNeverArrives,
        SameStream;
    var w := WorldAfter(cfgA, cfgB, iss, e, evs);
    var x, shut := Me(w, side), Happens(side, Shut, f);
    AfterInv(cfgA, cfgB, iss, e, evs);
    MineDirs(w, side);
    WriterSnd(x, Mine(w, side));
    NoFinKnown(x, Mine(w, side));
    AfterCloseIs(cfgA, cfgB, iss, e, evs, side, f, []);
    FinPlace(cfgA, cfgB, iss, e, evs, side, f);
    var w1 := Next(w, shut);
    PeerWaits(w, side, f);
    RunUnaware(w1, side, later, FinOf(x, f).pos);
  }

  lemma PeerWaits(w: World, side: bool, f: Env)
    ensures Me(Next(w, Happens(side, Shut, f)), !side) == Me(w, !side)
    ensures forall v, s :: Mine(v, s).peer == Me(v, !s)
  {
    hide Close, Emit;
  }
}
