/**
 Safety of the state machine over every run of a connection: which event moves
 it along which edge, that the peer's FIN ends the receive side, and that
 TIME-WAIT is reached only with both FINs accounted for.
 */
module ConnStates {
  import opened SeqSpace
  import opened RecvModel
  import opened SendModel
  import opened ConnModel

  // -------------------------------------------------- what the send side touches

  lemma {:induction false} FlushFrame(c: Conn, e: Env)
    ensures var d := Flush(c, e).c;
            d == c.(snd := d.snd, timing := d.timing) && d.snd == c.snd.(nxt := d.snd.nxt) && c.snd.nxt <= d.snd.nxt
    decreases if Pending(c.snd) > 0 then Pending(c.snd) else 0
  {
    var n := Quota(c, e);
    if n > 0 {
      FlushFrame(OneSegmentIn(c, n), e);
    }
  }

  lemma FlushIdle(c: Conn, e: Env)
    requires Quota(c, e) == 0
    ensures Flush(c, e) == Out(c, [])
  {
    hide Build;
  }

  lemma TakeWindowFrame(c: Conn, seg: Seg)
    ensures TakeWindow(c, seg) == c.(sndWnd := TakeWindow(c, seg).sndWnd)
  {
    hide ShiftLeft, ShiftRight;
  }

  lemma RetransmitFrame(c: Conn, e: Env)
    ensures Retransmit(c, e).c == c.(timing := Retransmit(c, e).c.timing)
  {
    hide Build, RetransmitData;
  }

  lemma MarkFrame(c: Conn, sack: seq<Block>)
    ensures var d := Mark(c, sack); d == c.(snd := d.snd) && d.snd == c.snd.(sacked := d.snd.sacked)
  {
    hide Keep;
  }

  lemma AckedFrame(c: Conn, ack: int, sack: seq<Block>)
    requires c.snd.una < ack <= c.snd.nxt
    ensures var d := Acked(c, ack, sack);
            && d == c.(snd := d.snd, retries := 0, timing := d.timing, hist := c.hist.(sampled := d.hist.sampled))
            && d.snd.una == ack && d.snd.nxt == c.snd.nxt
  {
    hide Keep, Prune, Mark;
    MarkFrame(c.(snd := Acknowledge(c.snd, ack), retries := 0), sack);
  }

  /** An ACK changes only the send side; SND.UNA moves exactly to an ACK of something in flight. */
  lemma ProcessACKFrame(c: Conn, ack: int, sack: seq<Block>, e: Env)
    ensures var d := ProcessACK(c, ack, sack, e).c;
            && d == c.(snd := d.snd, retries := d.retries, timing := d.timing,
                hist := c.hist.(sampled := d.hist.sampled))
            && d.snd.una == (if c.snd.una < ack <= c.snd.nxt then ack else c.snd.una)
            && c.snd.nxt <= d.snd.nxt
            && (ack > c.snd.nxt ==> d == c)
  {
    hide Retransmit, Mark, Acked, Flush, AckSeg;
    if ack <= c.snd.una {
      RetransmitFrame(c, e);
      MarkFrame(if e.fast then Retransmit(c, e).c else c, sack);
    } else if ack <= c.snd.nxt {
      AckedFrame(c, ack, sack);
      FlushFrame(Acked(c, ack, sack), e);
    }
  }

  // ------------------------------------------------------------------ the diagram

  /** One arrow of figure 5 of RFC 9293 taken on an arriving segment. */
  predicate SegmentEdge(s: State, t: State) {
    || (s == SynSent && (t == Established || t == SynReceived))
    || (s == SynReceived && t == Established)
    || (s == Established && t == CloseWait)
    || (s == FinWait1 && (t == FinWait2 || t == Closing))
    || (s == FinWait2 && t == TimeWait)
    || (s == Closing && t == TimeWait)
    || (s == LastAck && t == Closed)
  }

  /** Two arrows in one call: the handshake ACK carrying a FIN, and a FIN whose segment also acknowledges ours. */
  predicate DoubleEdge(s: State, t: State) {
    (s == SynReceived && t == CloseWait) || (s == FinWait1 && t == TimeWait)
  }

  predicate IsOpen(a: Act) { a.Opening? || a.Accepting? || a.AcceptingCookie? }

  /** The moves an event may cause; everything not listed leaves the state alone. */
  predicate Move(s: State, a: Act, t: State) {
    || s == t
    || match a
       case Opening(_) => s == Closed && t == SynSent
       case Accepting(_, _) => (s == Closed || s == Listen) && t == SynReceived
       case AcceptingCookie(_, _, _, _) => (s == Closed || s == Listen) && t == Established
       case Deliver(seg) =>
         if seg.flags.rst then t == Closed
         else (seg.flags.ack || seg.flags.syn) && (SegmentEdge(s, t) || DoubleEdge(s, t))
       case Shut =>
         || ((s == Established || s == SynReceived) && t == FinWait1)
         || (s == CloseWait && t == LastAck)
         || (s !in {Established, SynReceived, CloseWait, FinWait1, FinWait2} && t == Closed)
       case Kill => t == Closed
       case Retry => t == Closed
       case Expire => t == Closed
       case Probe(idle, exhausted) => idle && exhausted && (s == Established || s == CloseWait) && t == Closed
       case _ => false
  }

  /** States in which the peer's FIN has not been consumed, and in which ours has not been queued. */
  predicate BeforePeerFin(s: State) { s in {SynSent, SynReceived, Established, FinWait1, FinWait2} }
  predicate AfterPeerFin(s: State) { s in {CloseWait, Closing, LastAck, TimeWait} }
  predicate BeforeOurFin(s: State) { s in {SynSent, SynReceived, Established, CloseWait} }
  predicate AfterOurFin(s: State) { s in {FinWait1, FinWait2, Closing, LastAck, TimeWait} }

  /** The state name tells the truth about both FINs. */
  ghost predicate Coherent(c: Conn) {
    && (BeforePeerFin(c.state) ==> c.hist.finsIn == 0 && ValidRecv(c.rcv) && c.rcv.wnd == c.cfg.recvCap > 0)
    && (BeforePeerFin(c.state) && c.deferred.Some? ==> c.deferred.value != c.rcv.nxt)
    && (c.state == SynSent ==> c.deferred == None)
    && (AfterPeerFin(c.state) ==> c.hist.finsIn >= 1)
    && (BeforeOurFin(c.state) ==> c.hist.finOut == None)
    && (AfterOurFin(c.state) ==> c.hist.finOut.Some? && c.hist.finOut.value < c.snd.nxt)
    && (c.state == FinWait2 ==> c.hist.finOut.value < c.snd.una)
  }

  /**
   The one way a segment makes RCV.NXT step over two FINs: a FIN was deferred to exactly
   the right edge of the window, and a segment reaching one byte past it also carries a FIN.
   */
  predicate DoubleFin(c: Conn, seg: Seg) {
    && c.deferred == Some(c.rcv.nxt + c.cfg.recvCap)
    && seg.flags.fin && seg.pos <= c.rcv.nxt && seg.End() == c.rcv.nxt + c.cfg.recvCap + 1
  }

  /** Segments that reach the data handler. */
  predicate TakesData(c: Conn, seg: Seg) {
    && c.state in {SynReceived, Established, FinWait1, FinWait2}
    && (Acceptable(c, seg) || SynRcvdOK(c, seg)) && !seg.flags.rst && seg.flags.ack
    && (seg.flags.syn ==> c.state == SynReceived)
    && (c.state == SynReceived ==> seg.ack == c.snd.nxt)
    && !Stale(c, seg)
  }

  /** Coherence does not depend on the send side beyond its edges moving forward. */
  lemma SendSideCoherent(c: Conn, d: Conn)
    requires Coherent(c)
    requires d == c.(snd := d.snd, sndWnd := d.sndWnd, tsRecent := d.tsRecent, retries := d.retries,
                     timing := d.timing, hist := c.hist.(sampled := d.hist.sampled))
    requires c.snd.una <= d.snd.una && c.snd.nxt <= d.snd.nxt
    ensures Coherent(d)
  {
    hide ValidRecv;
  }

  lemma InsertReach(r: Recv, p: int, data: seq<byte>)
    requires ValidRecv(r) && r.wnd > 0
    ensures r.nxt <= Insert(r, p, data).nxt <= r.nxt + r.wnd
    ensures p > r.nxt ==> Insert(r, p, data).nxt == r.nxt
    ensures p <= r.nxt ==> Insert(r, p, data).nxt >= Min(p + |data|, r.nxt + r.wnd)
  {
    match Clip(r, p, data)
    case None =>
    case Some(n) =>
      if n.pos == r.nxt {
        var r1 := r.(buf := r.buf + n.data, nxt := n.End());
        MergeValid(r1, r.nxt + 1);
        if Merge(r1).nxt != r1.nxt {
          var x :| x in r1.ooo && x.End() == Merge(r1).nxt;
          assert x in r.ooo;
        }
      }
  }

  /** Where a connection may go when the peer's FIN is consumed. */
  predicate FinEdge(s: State, t: State) {
    (SegmentEdge(s, t) && AfterPeerFin(t)) || (s == FinWait1 && t == TimeWait)
  }

  /** Consuming the first FIN leaves the data states for good; a further one changes no state. */
  lemma ConsumeFinCoherent(c: Conn)
    requires Coherent(c) && (c.state in {Established, FinWait1, FinWait2} || AfterPeerFin(c.state))
    ensures var d := ConsumeFin(c);
            && Coherent(d) && d.snd == c.snd && d.hist == c.hist.(finsIn := c.hist.finsIn + 1)
            && d.rcv.nxt == c.rcv.nxt + 1
            && AfterPeerFin(d.state) && (if AfterPeerFin(c.state) then d.state == c.state
                else FinEdge(c.state, d.state))
            && (BeforePeerFin(c.state) && d.state == TimeWait ==> d.hist.finOut.value < d.snd.una)
  {
    hide ValidRecv;
  }

  lemma ProcessDataCoherent(c: Conn, seg: Seg)
    requires c.state in {Established, FinWait1, FinWait2} && Coherent(c)
    ensures var d := ProcessData(c, seg);
            && Coherent(d) && d.snd == c.snd
            && (if c.deferred == Some(Insert(c.rcv, seg.pos, seg.payload).nxt)
                then d.hist.finsIn == 1 && d.rcv.nxt == Insert(c.rcv, seg.pos, seg.payload).nxt + 1
                    && FinEdge(c.state, d.state)
                else d == c.(rcv := Insert(c.rcv, seg.pos, seg.payload)))
            && (d.state == TimeWait ==> d.hist.finOut.value < d.snd.una)
  {
    hide Insert, ConsumeFin, ValidRecv;
    InsertValid(c.rcv, seg.pos, seg.payload);
    var c1 := c.(rcv := Insert(c.rcv, seg.pos, seg.payload), deferred := None);
    if c.deferred == Some(c1.rcv.nxt) { ConsumeFinCoherent(c1); }
  }

  /** Two FINs in one segment exactly in the corner case. */
  lemma DoubleFinExact(c: Conn, seg: Seg)
    requires c.state in {Established, FinWait1, FinWait2} && Coherent(c)
    ensures DoubleFin(c, seg) <==>
            seg.flags.fin && c.deferred == Some(Insert(c.rcv, seg.pos, seg.payload).nxt)
            && seg.End() == Insert(c.rcv, seg.pos, seg.payload).nxt + 1
  {
    hide Insert;
    InsertReach(c.rcv, seg.pos, seg.payload);
  }

  /** What a data segment may do: a truthful state, at most two edges, TIME-WAIT only with our FIN acknowledged. */
  ghost predicate DataStep(c: Conn, d: Conn) {
    && Coherent(d) && d.hist.finsIn <= 2
    && (d.state == c.state || SegmentEdge(c.state, d.state) || DoubleEdge(c.state, d.state))
    && (d.state == TimeWait ==> d.hist.finOut.value < d.snd.una)
  }

  /** The FIN flag, after the payload was inserted without consuming a FIN. */
  lemma FinishEarly(c: Conn, seg: Seg)
    requires c.state in {Established, FinWait1, FinWait2} && Coherent(c)
    requires seg.ack == c.snd.nxt ==> c.snd.una == c.snd.nxt
    ensures DataStep(c, Finish(c, seg)) && Finish(c, seg).hist.finsIn <= 1 && Finish(c, seg).snd == c.snd
  {
    hide ConsumeFin, ValidRecv;
    if seg.flags.fin && seg.End() == c.rcv.nxt { ConsumeFinCoherent(c); }
  }

  /** The FIN flag, after inserting the payload consumed a deferred FIN. */
  lemma FinishLate(c: Conn, seg: Seg)
    requires AfterPeerFin(c.state) && Coherent(c) && c.hist.finsIn == 1
    ensures var d := Finish(c, seg);
            && Coherent(d) && d.state == c.state && d.snd == c.snd && d.hist.finOut == c.hist.finOut
            && d.hist.finsIn == (if seg.flags.fin && seg.End() == c.rcv.nxt then 2 else 1)
  {
    hide ConsumeFin, ValidRecv;
    if seg.flags.fin && seg.End() == c.rcv.nxt { ConsumeFinCoherent(c); }
  }

  /** Absorbing a segment's data and FIN from a coherent connection. */
  lemma AbsorbCoherent(c: Conn, seg: Seg)
    requires c.state in {Established, FinWait1, FinWait2} && Coherent(c)
    requires seg.ack == c.snd.nxt ==> c.snd.una == c.snd.nxt
    ensures DataStep(c, Absorb(c, seg))
    ensures Absorb(c, seg).hist.finsIn == 2 <==> DoubleFin(c, seg)
  {
    hide Insert, ProcessData, Finish, DoubleFin, ValidRecv;
    DoubleFinExact(c, seg);
    var c1 := if seg.payload != [] then ProcessData(c, seg) else c;
    if seg.payload != [] { ProcessDataCoherent(c, seg); } else { InsertNothing(c.rcv, seg.pos); }
    if c1.hist.finsIn == 0 { FinishEarly(c1, seg); } else { FinishLate(c1, seg); }
  }

  lemma InsertNothing(r: Recv, p: int)
    ensures Insert(r, p, []) == r
  {
    hide Merge, InsertOOO, Clip;
    ClipNothing(r, p, []);
  }

  lemma ClipNothing(r: Recv, p: int, data: seq<byte>)
    requires |data| == 0
    ensures Clip(r, p, data) == None
  {
  }

  lemma DataStatesFinless(c: Conn)
    requires BeforePeerFin(c.state) && Coherent(c)
    ensures c.hist.finsIn == 0
  {
  }

  lemma HandleDataCoherent(c: Conn, seg: Seg, e: Env)
    requires c.state in {Established, FinWait1, FinWait2} && Coherent(c)
    ensures DataStep(c, HandleData(c, seg, e).c)
    ensures HandleData(c, seg, e).c.hist.finsIn == 2 <==> DoubleFin(c, seg) && !Stale(c, seg)
  {
    hide ProcessACK, Absorb, AckSeg, Coherent, Int32, Sub32, ShiftLeft, ShiftRight;
    if !Stale(c, seg) {
      ProcessACKFrame(UpdateStamp(c, seg), seg.ack, seg.opts.sack, e);
      var c1 := TakeWindow(ProcessACK(UpdateStamp(c, seg), seg.ack, seg.opts.sack, e).c, seg);
      SendSideCoherent(c, c1);
      AbsorbCoherent(c1, seg);
    } else {
      assert c.hist.finsIn == 0 by { DataStatesFinless(c); }
    }
  }

  lemma HandleSynReceivedCoherent(c: Conn, seg: Seg, e: Env)
    requires c.state == SynReceived && Coherent(c)
    ensures var d := HandleSynReceived(c, seg, e).c;
            && Coherent(d) && d.state in {SynReceived, Established, CloseWait} && d.hist.finsIn <= 2
            && (d.hist.finsIn == 2 <==> seg.ack == c.snd.nxt && DoubleFin(c, seg) && !Stale(c, seg))
  {
    hide HandleData, ValidRecv, Int32, Sub32, Prune;
    var c1 := TakeWindow(c.(snd := Acknowledge(c.snd, seg.ack), retries := 0, state := Established), seg);
    HandleDataCoherent(c1, seg, e);
  }

  /** Once the peer's FIN is consumed a segment only moves the send side and the close handshake. */
  lemma LateSegment(c: Conn, seg: Seg, e: Env)
    requires Coherent(c) && AfterPeerFin(c.state)
    ensures var d := HandleSynchronized(c, seg, e).c;
            && Coherent(d) && Move(c.state, Deliver(seg), d.state) && d.rcv == c.rcv
            && (c.state != TimeWait && d.state == TimeWait ==> d.hist.finOut.value < seg.ack == d.snd.nxt)
  {
    hide AckSeg, HandleRst, Acceptable, ProcessACK, ValidRecv, ShiftLeft, ShiftRight;
    HandleRstCoherent(c, seg, e);
    if c.state == CloseWait { ProcessACKFrame(c, seg.ack, seg.opts.sack, e); }
  }

  lemma EarlySegment(c: Conn, seg: Seg, e: Env)
    requires Coherent(c) && BeforePeerFin(c.state) && c.state != SynSent
    ensures var d := HandleSynchronized(c, seg, e).c;
            && Coherent(d) && Move(c.state, Deliver(seg), d.state)
            && (d.state == TimeWait ==> d.hist.finOut.value < d.snd.una)
  {
    hide HandleData, HandleSynReceived, AckSeg, HandleRst, Acceptable, ValidRecv, SynRcvdOK;
    HandleRstCoherent(c, seg, e);
    if c.state == SynReceived { HandleSynReceivedCoherent(c, seg, e); } else { HandleDataCoherent(c, seg, e); }
  }

  /** The peer's FIN is consumed twice by one segment exactly in the corner case. */
  lemma FinTwiceExactly(c: Conn, seg: Seg, e: Env)
    requires Coherent(c) && BeforePeerFin(c.state) && c.state != SynSent
    ensures HandleSegment(c, seg, e).c.hist.finsIn <= 2
    ensures HandleSegment(c, seg, e).c.hist.finsIn == 2 <==> TakesData(c, seg) && DoubleFin(c, seg)
  {
    hide HandleData, HandleSynReceived, AckSeg, HandleRst, Acceptable, ValidRecv, SynRcvdOK, DoubleFin, Stale;
    HandleRstCoherent(c, seg, e);
    if c.state == SynReceived { HandleSynReceivedCoherent(c, seg, e); } else { HandleDataCoherent(c, seg, e); }
  }

  lemma HandleRstCoherent(c: Conn, seg: Seg, e: Env)
    ensures HandleRst(c, seg, e).c == c || HandleRst(c, seg, e).c == Shutdown(c).(finRecvd := true)
  {
    hide AckSeg, Window;
  }

  lemma NegotiateFrame(c: Conn, o: Opts)
    ensures var d := Negotiate(c, o);
            d == c.(cfg := d.cfg, tsRecent := d.tsRecent) && d.cfg.recvCap == c.cfg.recvCap
  {
  }

  lemma SynSentCoherent(c: Conn, seg: Seg, e: Env)
    requires Coherent(c) && c.state == SynSent
    ensures Coherent(HandleSynSent(c, seg, e).c) && Move(SynSent, Deliver(seg), HandleSynSent(c, seg, e).c.state)
    ensures HandleSynSent(c, seg, e).c.state != TimeWait
  {
    hide AckSeg, SynAckSeg, Insert, ValidRecv, Flush, Prune, Negotiate;
    NegotiateFrame(c, seg.opts);
    FreshValid(seg.pos + 1, c.cfg.recvCap, seg.payload);
    var c1 := Synchronize(TakeWindow(Negotiate(c, seg.opts), seg), seg);
    FlushFrame(AckTiming(c1.(snd := Acknowledge(c1.snd, seg.ack), retries := 0, state := Established), seg.ack), e);
  }

  lemma FreshValid(p: int, wnd: int, data: seq<byte>)
    ensures ValidRecv(Insert(NewRecv(p, wnd), p, data)) && Insert(NewRecv(p, wnd), p, data).wnd == wnd
  {
    InsertValid(NewRecv(p, wnd), p, data);
  }

  lemma CloseCoherent(c: Conn, e: Env)
    requires Coherent(c)
    ensures Coherent(Close(c, e).c) && Move(c.state, Shut, Close(c, e).c.state) && Close(c, e).c.rcv == c.rcv
  {
    hide Build, Flush, ValidRecv;
    FlushFrame(c, e);
  }

  lemma RetryCoherent(c: Conn, e: Env)
    requires Coherent(c)
    ensures var d := OnRTO(c, e).c; Coherent(d) && Move(c.state, Retry, d.state) && d.rcv == c.rcv
  {
    hide Build, Retransmit, ValidRecv, SynSeg, SynAckSeg;
    RetransmitFrame(c.(retries := c.retries + 1, timing := None), e);
  }

  lemma PersistCoherent(c: Conn, e: Env)
    requires Coherent(c)
    ensures var d := OnPersist(c, e).c; Coherent(d) && d.state == c.state && d.rcv == c.rcv
  {
    hide Flush, Coherent, RcvWindow, PeekUnsent;
    FlushFrame(c, e);
    SendSideCoherent(c, OnPersist(c, e).c);
  }

  lemma TimerCoherent(c: Conn, a: Act, e: Env)
    requires Coherent(c) && (a.Retry? || a.Persist? || a.Expire? || a.Probe? || a.Kill?)
    ensures var d := Apply(c, a, e).c; Coherent(d) && Move(c.state, a, d.state) && d.rcv == c.rcv
  {
    hide Build, OnRTO, OnPersist, OnTimeWait, OnKeepalive, Abort, Coherent, ValidRecv;
    RetryCoherent(c, e);
    PersistCoherent(c, e);
    EndCoherent(c);
    match a
    case Probe(idle, exhausted) => KeepaliveCoherent(c, idle, exhausted, e);
    case _ =>
  }

  lemma EndCoherent(c: Conn)
    requires Coherent(c)
    ensures Coherent(Abort(c).c) && Abort(c).c.rcv == c.rcv && (Abort(c).c.state == Closed)
    ensures var d := OnTimeWait(c).c; Coherent(d) && d.rcv == c.rcv && (d.state == c.state || d.state == Closed)
  {
    hide ValidRecv;
  }

  lemma KeepaliveCoherent(c: Conn, idle: bool, exhausted: bool, e: Env)
    requires Coherent(c)
    ensures var d := OnKeepalive(c, idle, exhausted, e).c;
            Coherent(d) && Move(c.state, Probe(idle, exhausted), d.state) && d.rcv == c.rcv
  {
    hide Build, ValidRecv;
  }

  lemma ReadCoherent(c: Conn, n: nat)
    requires Coherent(c)
    ensures Coherent(c.(rcv := Read(c.rcv, n)))
  {
  }

  /** Data arriving after the peer's FIN was consumed is not taken; only Read touches the buffer then. */
  ghost predicate ReceiveEnded(c: Conn, a: Act, d: Conn) {
    !BeforePeerFin(c.state) ==> d.rcv == if a.Take? then Read(c.rcv, a.count) else c.rcv
  }

  /** TIME-WAIT is entered by a segment, the peer's FIN consumed and ours acknowledged. */
  ghost predicate TimeWaitEarned(c: Conn, a: Act, d: Conn) {
    c.state != TimeWait && d.state == TimeWait ==>
      && a.Deliver? && d.hist.finsIn >= 1 && d.hist.finOut.Some?
      && (d.hist.finOut.value < d.snd.una || d.hist.finOut.value < a.seg.ack <= d.snd.nxt)
  }

  /** One event of a connection's life. */
  lemma StepSafe(c: Conn, a: Act, e: Env)
    requires Coherent(c) && !IsOpen(a)
    ensures var d := Apply(c, a, e).c;
            Coherent(d) && Move(c.state, a, d.state) && ReceiveEnded(c, a, d) && TimeWaitEarned(c, a, d)
  {
    hide Close, Flush, HandleSynchronized, HandleSynSent, OnRTO, OnPersist, OnKeepalive, OnTimeWait, Abort,
        ValidRecv, Read;
    match a
    case Deliver(seg) =>
      if c.state == SynSent { SynSentCoherent(c, seg, e); }
      else if AfterPeerFin(c.state) { LateSegment(c, seg, e); }
      else if BeforePeerFin(c.state) { EarlySegment(c, seg, e); }
    case Buffer(p) =>
    case Push => FlushFrame(c, e);
    case Take(n) => ReadCoherent(c, n);
    case Shut => CloseCoherent(c, e);
    case _ => TimerCoherent(c, a, e);
  }

  /** Opening a fresh connection, by whichever side, gives a coherent one. */
  lemma OpenCoherent(cfg: Config, a: Act, e: Env)
    requires cfg.recvCap > 0 && IsOpen(a)
    ensures var d := Apply(NewConn(cfg), a, e).c; Coherent(d) && Move(Closed, a, d.state)
  {
    hide SynSeg, SynAckSeg, Insert, ValidRecv, RcvWindow, Negotiate;
    var c := NewConn(cfg);
    match a
    case Opening(iss) => FreshValid(0, cfg.recvCap, []); InsertNothing(NewRecv(0, cfg.recvCap), 0);
    case Accepting(syn, iss) => FreshValid(syn.pos + 1, cfg.recvCap, syn.payload); NegotiateFrame(c, syn.opts);
    case AcceptingCookie(p, iss, mss, data) => FreshValid(p, cfg.recvCap, data);
  }

  ghost predicate NoOpens(acts: seq<(Act, Env)>) { forall i :: 0 <= i < |acts| ==> !IsOpen(acts[i].0) }

  lemma {:induction false} RunCoherent(c: Conn, acts: seq<(Act, Env)>)
    requires Coherent(c) && NoOpens(acts)
    ensures Coherent(Run(c, acts))
    decreases acts
  {
    if acts != [] {
      hide Apply, Coherent;
      StepSafe(c, acts[0].0, acts[0].1);
      RunCoherent(Apply(c, acts[0].0, acts[0].1).c, acts[1..]);
    }
  }

  lemma {:induction false} RunSplit(c: Conn, acts: seq<(Act, Env)>, a: Act, e: Env)
    ensures Run(c, acts + [(a, e)]) == Apply(Run(c, acts), a, e).c
    decreases acts
  {
    hide Apply;
    if acts == [] {
      assert Run(c, [(a, e)]) == Run(Apply(c, a, e).c, []);
    } else {
      RunSplit(Apply(c, acts[0].0, acts[0].1).c, acts[1..], a, e);
      assert (acts + [(a, e)])[1..] == acts[1..] + [(a, e)];
    }
  }

  /**
   The life of a connection: created, opened, then any events in any order. Every event
   moves it along the diagram or aborts it, after the peer's FIN nothing more is received,
   and TIME-WAIT is entered only when both FINs are accounted for.
   */
  lemma LifeSafe(cfg: Config, open: Act, e0: Env, acts: seq<(Act, Env)>, a: Act, e: Env)
    requires cfg.recvCap > 0 && IsOpen(open) && NoOpens(acts) && !IsOpen(a)
    ensures var c := Run(NewConn(cfg), [(open, e0)] + acts);
            var d := Run(NewConn(cfg), [(open, e0)] + acts + [(a, e)]);
            && Coherent(c) && Coherent(d)
            && Move(c.state, a, d.state) && ReceiveEnded(c, a, d) && TimeWaitEarned(c, a, d)
  {
    hide Apply, Coherent, Move, ReceiveEnded, TimeWaitEarned;
    OpenCoherent(cfg, open, e0);
    assert ([(open, e0)] + acts)[1..] == acts;
    RunCoherent(Apply(NewConn(cfg), open, e0).c, acts);
    RunSplit(NewConn(cfg), [(open, e0)] + acts, a, e);
    StepSafe(Run(NewConn(cfg), [(open, e0)] + acts), a, e);
  }

  // ------------------------------------------------------ FINs consumed over a life

  /** The event is a segment that steps over two FINs. */
  predicate StepsTwice(c: Conn, a: Act) { a.Deliver? && TakesData(c, a.seg) && DoubleFin(c, a.seg) }

  /** Some event of the run is one. */
  predicate TwiceIn(c: Conn, acts: seq<(Act, Env)>)
    decreases acts
  {
    acts != [] && (StepsTwice(c, acts[0].0) || TwiceIn(Apply(c, acts[0].0, acts[0].1).c, acts[1..]))
  }

  /** What each event does to the number of FINs consumed. */
  ghost predicate FinsStep(c: Conn, a: Act, d: Conn) {
    && (c.hist.finsIn > 0 ==> d.hist.finsIn == c.hist.finsIn && !StepsTwice(c, a))
    && (c.hist.finsIn == 0 ==> d.hist.finsIn <= 2 && (d.hist.finsIn == 2 <==> StepsTwice(c, a)))
  }

  lemma QuietFins(c: Conn, a: Act, e: Env)
    requires !IsOpen(a) && !a.Deliver?
    ensures Apply(c, a, e).c.hist.finsIn == c.hist.finsIn
  {
    hide Flush, Retransmit, Read, Write, Build, SynSeg, SynAckSeg, RcvWindow, PeekUnsent;
    FlushFrame(c, e);
    RetransmitFrame(c.(retries := c.retries + 1, timing := None), e);
  }

  lemma SynSentFins(c: Conn, seg: Seg, e: Env)
    ensures HandleSynSent(c, seg, e).c.hist.finsIn == c.hist.finsIn
  {
    hide AckSeg, SynAckSeg, Flush, TakeWindow, Acknowledge, Insert;
    var c1 := Synchronize(TakeWindow(Negotiate(c, seg.opts), seg), seg);
    TakeWindowFrame(Negotiate(c, seg.opts), seg);
    FlushFrame(AckTiming(c1.(snd := Acknowledge(c1.snd, seg.ack), retries := 0, state := Established), seg.ack), e);
  }

  lemma LateFins(c: Conn, seg: Seg, e: Env)
    requires AfterPeerFin(c.state)
    ensures HandleSynchronized(c, seg, e).c.hist.finsIn == c.hist.finsIn
  {
    hide AckSeg, HandleRst, Acceptable, ProcessACK, ShiftLeft;
    HandleRstCoherent(c, seg, e);
    ProcessACKFrame(c, seg.ack, seg.opts.sack, e);
  }

  lemma EventFins(c: Conn, a: Act, e: Env)
    requires Coherent(c) && !IsOpen(a)
    ensures FinsStep(c, a, Apply(c, a, e).c)
  {
    hide HandleSynchronized, HandleSynSent, DoubleFin, TakesData, ValidRecv;
    if a.Deliver? {
      if c.state == SynSent { SynSentFins(c, a.seg, e); NotTaken(c, a.seg); }
      else if BeforePeerFin(c.state) { FinTwiceExactly(c, a.seg, e); }
      else { NotTaken(c, a.seg); if AfterPeerFin(c.state) { LateFins(c, a.seg, e); } }
    } else {
      QuietFins(c, a, e);
    }
  }

  lemma NotTaken(c: Conn, seg: Seg)
    requires !BeforePeerFin(c.state) || c.state == SynSent
    ensures !TakesData(c, seg)
  {
  }

  lemma {:induction false} RunFins(c: Conn, acts: seq<(Act, Env)>)
    requires Coherent(c) && NoOpens(acts)
    ensures var d := Run(c, acts);
            && (c.hist.finsIn > 0 ==> d.hist.finsIn == c.hist.finsIn && !TwiceIn(c, acts))
            && (c.hist.finsIn == 0 ==> d.hist.finsIn <= 2 && (d.hist.finsIn == 2 <==> TwiceIn(c, acts)))
    decreases acts
  {
    hide Apply, Coherent, StepsTwice;
    if acts != [] {
      StepSafe(c, acts[0].0, acts[0].1);
      EventFins(c, acts[0].0, acts[0].1);
      RunFins(Apply(c, acts[0].0, acts[0].1).c, acts[1..]);
    }
  }

  /**
   Over any life at most two FINs are consumed, and two exactly when some segment of it found a
   FIN deferred to the right edge of the window and reached one byte past it with another.
   */
  lemma LifeFinsExactly(cfg: Config, open: Act, e0: Env, acts: seq<(Act, Env)>)
    requires cfg.recvCap > 0 && IsOpen(open) && NoOpens(acts)
    ensures var c := Apply(NewConn(cfg), open, e0).c;
            var d := Run(NewConn(cfg), [(open, e0)] + acts);
            d.hist.finsIn <= 2 && (d.hist.finsIn == 2 <==> TwiceIn(c, acts))
  {
    hide Apply, Coherent, TwiceIn;
    OpenCoherent(cfg, open, e0);
    OpenFinless(cfg, open, e0);
    assert ([(open, e0)] + acts)[1..] == acts;
    RunFins(Apply(NewConn(cfg), open, e0).c, acts);
  }

  lemma OpenFinless(cfg: Config, open: Act, e: Env)
    requires IsOpen(open)
    ensures Apply(NewConn(cfg), open, e).c.hist.finsIn == 0
  {
    hide RcvWindow, SynOptions, Insert;
  }

  /**
   A peer can make RCV.NXT step over two FINs. Window of two bytes: one byte and a FIN
   arrive early, then a segment one byte too long that also carries a FIN.
   */
  lemma FinTwiceExample(e: Env)
    ensures var cfg := Config(1, 2, 1, 0, 0, false, false, false, false, false);
            var open := AcceptingCookie(0, 0, 1, []);
            var early := Deliver(Seg(1, 1, FIN_ACK, 0, NO_OPTS, [7]));
            var long := Deliver(Seg(0, 1, FIN_ACK, 0, NO_OPTS, [6, 7, 8]));
            Run(NewConn(cfg), [(open, e), (early, e), (long, e)]).hist.finsIn == 2
  {
    hide HandleSynchronized, Run, Coherent, DoubleFin, TakesData;
    var cfg := Config(1, 2, 1, 0, 0, false, false, false, false, false);
    var open := AcceptingCookie(0, 0, 1, []);
    var early, long := Seg(1, 1, FIN_ACK, 0, NO_OPTS, [7]), Seg(0, 1, FIN_ACK, 0, NO_OPTS, [6, 7, 8]);
    var c1 := Apply(NewConn(cfg), open, e).c;
    var c2 := HandleSegment(c1, early, e).c;
    OpenCoherent(cfg, open, e);
    StepSafe(c1, Deliver(early), e);
    EarlyFin(c1, early, e);
    assert TakesData(c2, long) && DoubleFin(c2, long) by { CornerCase(c2, long); }
    FinTwiceExactly(c2, long, e);
    ThreeSteps(NewConn(cfg), (open, e), (Deliver(early), e), (Deliver(long), e));
  }

  lemma CornerCase(c: Conn, seg: Seg)
    requires c.state == Established && c.deferred == Some(c.rcv.nxt + c.cfg.recvCap) && !c.cfg.tsOK && c.cfg.recvCap > 0
    requires seg.flags == FIN_ACK && seg.pos == c.rcv.nxt && |seg.payload| == c.cfg.recvCap + 1
    ensures TakesData(c, seg) && DoubleFin(c, seg)
  {
  }

  lemma ThreeSteps(c: Conn, a: (Act, Env), b: (Act, Env), d: (Act, Env))
    ensures Run(c, [a, b, d]) == Apply(Apply(Apply(c, a.0, a.1).c, b.0, b.1).c, d.0, d.1).c
  {
    hide Apply;
    RunSplit(c, [], a.0, a.1);
    RunSplit(c, [a], b.0, b.1);
    RunSplit(c, [a, b], d.0, d.1);
    assert [] + [a] == [a] && [a] + [b] == [a, b] && [a, b] + [d] == [a, b, d];
  }

  /** An early segment with a FIN is held, and its FIN deferred. */
  lemma EarlyFin(c: Conn, seg: Seg, e: Env)
    requires Coherent(c) && c.state == Established && c.deferred == None && !c.cfg.tsOK
    requires seg.flags == FIN_ACK && c.rcv.nxt < seg.pos < c.rcv.nxt + c.cfg.recvCap && seg.payload != []
    ensures var d := HandleSegment(c, seg, e).c;
            && d.state == Established && d.cfg == c.cfg && d.deferred == Some(seg.End()) && d.rcv.nxt == c.rcv.nxt
  {
    hide Insert, ProcessACK, AckSeg, ValidRecv, ShiftLeft, ShiftRight, Int32, Sub32;
    InsertReach(c.rcv, seg.pos, seg.payload);
    ProcessACKFrame(UpdateStamp(c, seg), seg.ack, seg.opts.sack, e);
  }
}
