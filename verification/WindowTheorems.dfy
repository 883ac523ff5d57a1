/**
 Flow control over whole runs: data sent for the first time ends within the peer's
 receive buffer, and so is never cut on the right, however late it arrives.
 */
module WindowTheorems {
  import opened SeqSpace
  import opened RecvModel
  import opened SendModel
  import opened ConnModel
  import opened ConnStates
  import opened Direction
  import opened Endpoint
  import opened Network
  import opened StreamTheorems

  /** g carries data x had not sent before. */
  predicate Fresh(x: Conn, g: Seg) { g.payload != [] && x.snd.nxt <= g.pos }

  /** g ends within the peer's buffer, counted from where the peer's RCV.NXT stands. */
  ghost predicate Fits(l: Link, g: Seg) { g.End() <= Eff(l.out, RH(l.peer)).nxt + l.peer.cfg.recvCap }

  /** The persist timer's one-byte probe of a closed window, which disregards that window. */
  predicate ZeroWindowProbe(x: Conn, a: Act) { a.Persist? && x.sndWnd == 0 }

  // ------------------------------------------------------------------ what one event sends

  /** No segment of a flush reaches past the smaller window counted from SND.UNA. */
  lemma {:induction false} FlushReach(c: Conn, e: Env)
    ensures forall g :: g in Flush(c, e).segs ==> g.End() <= c.snd.una + Min(c.sndWnd, e.cwnd)
    ensures Flush(c, e).segs != [] ==> Pending(c.snd) > 0
    decreases if Pending(c.snd) > 0 then Pending(c.snd) else 0
  {
    hide RcvWindow, Options;
    var n := Quota(c, e);
    if n > 0 {
      FlushReach(OneSegmentIn(c, n), e);
      assert Build(c, e, c.snd.nxt, ACK_PSH, PeekUnsent(c.snd, n)).End() <= c.snd.una + Min(c.sndWnd, e.cwnd);
    }
  }

  lemma PendingFits(d: Dir, s: SHalf, r: RHalf, sr: set<Seg>, rs: set<Seg>)
    requires DirInv(d, s, r, sr, rs) && Pending(s.snd) > 0
    ensures s.sndWnd <= r.recvCap && s.snd.una <= Eff(d, r).nxt
  {
    hide RcvOk, AcksOk, DataOk, AckOk;
  }

  lemma FlushFits(x: Conn, l: Link, e: Env, g: Seg)
    requires Dirs(x, l) && g in Flush(x, e).segs
    ensures Fits(l, g)
  {
    hide DirInv, Flush;
    FlushReach(x, e);
    PendingFits(l.out, SH(x), RH(l.peer), l.xs, l.ps);
  }

  /** What is resent starts below SND.NXT. */
  lemma ResentIsOld(x: Conn, e: Env, g: Seg)
    requires g in Retransmit(x, e).segs
    ensures !Fresh(x, g)
  {
    hide Build, Resume;
    BuildShape(x, e, x.snd.una, ACK_PSH, RetransmitData(x.snd, x.cfg.mss));
  }

  /** The flush inside an acknowledgement runs before the new window is taken. */
  lemma ACKFits(x: Conn, l: Link, ack: int, sack: seq<Block>, e: Env, g: Seg)
    requires Dirs(x, l) && FromPeer(l, ack, sack) && g in ProcessACK(x, ack, sack, e).segs && Fresh(x, g)
    ensures Fits(l, g)
  {
    hide Dirs, Retransmit, Mark, Acked, Flush, Build, Fits, FromPeer;
    if ack <= x.snd.una {
      ResentIsOld(x, e, g);
    } else if ack > x.snd.nxt {
      BuildShape(x, e, x.snd.nxt, ACK, []);
    } else {
      AckedDirs(x, l, ack, sack);
      FlushFits(Acked(x, ack, sack), l, e, g);
    }
  }

  lemma HandleDataFits(x: Conn, l: Link, seg: Seg, e: Env, g: Seg)
    requires Dirs(x, l) && seg in l.ps && Answers(seg) && g in HandleData(x, seg, e).segs && Fresh(x, g)
    ensures Fits(l, g)
  {
    hide Dirs, ProcessACK, Absorb, Build, Stale, TakeWindow, Fits;
    var x0 := UpdateStamp(x, seg);
    DirsSame(x, x0, l);
    PeerAnswers(x0, l, seg);
    var o := ProcessACK(x0, seg.ack, seg.opts.sack, e);
    var x1 := Absorb(TakeWindow(o.c, seg), seg);
    BuildShape(x, e, x.snd.nxt, ACK, []);
    BuildShape(x1, e, x1.snd.nxt, ACK, []);
    if g in o.segs { ACKFits(x0, l, seg.ack, seg.opts.sack, e, g); }
  }

  /** Data that acknowledges nothing new queues nothing new. */
  lemma HandleDataOld(x: Conn, seg: Seg, e: Env, g: Seg)
    requires seg.ack <= x.snd.una && g in HandleData(x, seg, e).segs
    ensures !Fresh(x, g)
  {
    hide Absorb, Build, Stale, TakeWindow, Retransmit, Mark;
    var x0 := UpdateStamp(x, seg);
    var x1 := Absorb(TakeWindow(ProcessACK(x0, seg.ack, seg.opts.sack, e).c, seg), seg);
    BuildShape(x, e, x.snd.nxt, ACK, []);
    BuildShape(x1, e, x1.snd.nxt, ACK, []);
    if g in Retransmit(x0, e).segs { ResentIsOld(x0, e, g); }
  }

  /** SYN-RECEIVED has nothing to send yet. */
  lemma SynReceivedOld(x: Conn, seg: Seg, e: Env, g: Seg)
    requires g in HandleSynReceived(x, seg, e).segs
    ensures !Fresh(x, g)
  {
    hide HandleData, TakeWindow, Prune;
    if seg.ack == x.snd.nxt {
      var x1 := x.(snd := Acknowledge(x.snd, seg.ack), retries := 0, state := Established);
      TakeWindowFrame(x1, seg);
      HandleDataOld(TakeWindow(x1, seg), seg, e, g);
    }
  }

  lemma SynchronizedFits(x: Conn, l: Link, seg: Seg, e: Env, g: Seg)
    requires Dirs(x, l) && Settled(x, l) && x.state !in {Closed, Listen, SynSent} && seg in l.ps
    requires g in HandleSynchronized(x, seg, e).segs && Fresh(x, g)
    ensures Fits(l, g)
  {
    hide Dirs, Settled, Fits, Acceptable, HandleData, HandleSynReceived, ProcessACK, TakeWindow, SynRcvdOK, Build,
        Window;
    BuildShape(x, e, x.snd.nxt, ACK, []);
    BuildShape(EnterTimeWait(x), e, x.snd.nxt, ACK, []);
    if Answers(seg) {
      PeerAnswers(x, l, seg);
      if x.state == SynReceived { if g in HandleSynReceived(x, seg, e).segs { SynReceivedOld(x, seg, e, g); } }
      else if x.state == CloseWait {
        if g in ProcessACK(x, seg.ack, seg.opts.sack, e).segs { ACKFits(x, l, seg.ack, seg.opts.sack, e, g); }
      } else if x.state in {Established, FinWait1, FinWait2} {
        if g in HandleData(x, seg, e).segs { HandleDataFits(x, l, seg, e, g); }
      }
    }
  }

  /** Nor has SYN-SENT: the flush that completes the handshake finds nothing written. */
  lemma SynSentOld(x: Conn, l: Link, seg: Seg, e: Env, g: Seg)
    requires Dirs(x, l) && Settled(x, l) && SynAcksOnly(l) && x.state == SynSent && seg in l.ps
    requires g in HandleSynSent(x, seg, e).segs
    ensures !Fresh(x, g)
  {
    hide Dirs, Settled, Negotiate, TakeWindow, Synchronize, Acknowledge, AckTiming, Build, Flush, SynAckSeg;
    var x1 := Synchronize(TakeWindow(Negotiate(x, seg.opts), seg), seg);
    if seg.flags.syn && seg.flags.ack && !seg.flags.rst && x.snd.una < seg.ack <= x.snd.nxt {
      NothingWritten(x, l);
      SynchronizeSends(x, seg);
      var x2 := AckTiming(x1.(snd := Acknowledge(x1.snd, seg.ack), retries := 0, state := Established), seg.ack);
      NothingPending(x1, seg.ack, e);
      BuildShape(x2, e, x2.snd.nxt, ACK, []);
    }
  }

  lemma NothingWritten(x: Conn, l: Link)
    requires Dirs(x, l) && Settled(x, l) && x.state == SynSent
    ensures x.snd.buf == []
  {
    hide RcvOk, AcksOk, DataOk, AckOk, Coherent;
  }

  lemma SynchronizeSends(x: Conn, seg: Seg)
    ensures Synchronize(TakeWindow(Negotiate(x, seg.opts), seg), seg).snd == x.snd
  {
    hide Negotiate, TakeWindow, Insert;
    NegotiateFrame(x, seg.opts);
    TakeWindowFrame(Negotiate(x, seg.opts), seg);
  }

  lemma NothingPending(x: Conn, ack: int, e: Env)
    requires x.snd.buf == []
    ensures var y := AckTiming(x.(snd := Acknowledge(x.snd, ack), retries := 0, state := Established), ack);
            Flush(y, e).segs == []
  {
    hide Flush, Prune;
    FlushIdle(AckTiming(x.(snd := Acknowledge(x.snd, ack), retries := 0, state := Established), ack), e);
  }

  lemma CloseFits(x: Conn, l: Link, e: Env, g: Seg)
    requires Dirs(x, l) && g in Close(x, e).segs && g.payload != []
    ensures Fits(l, g)
  {
    hide Dirs, Fits, Flush, Build;
    var y := Flush(x, e).c.(state := FinWait1);
    BuildShape(y, e, y.snd.nxt, FIN_ACK, []);
    BuildShape(x.(state := LastAck), e, x.snd.nxt, FIN_ACK, []);
    BuildShape(x.(state := FinWait1), e, x.snd.nxt, FIN_ACK, []);
    FlushFits(x, l, e, g);
  }

  lemma RetryIsOld(x: Conn, e: Env, g: Seg)
    requires g in OnRTO(x, e).segs
    ensures !Fresh(x, g)
  {
    hide Retransmit, Build, RcvWindow, SynOptions;
    var x1 := x.(retries := x.retries + 1, timing := None);
    BuildShape(x1, e, x1.snd.nxt, FIN_ACK, []);
    if g in Retransmit(x1, e).segs { ResentIsOld(x1, e, g); }
  }

  /** Whatever happens at an endpoint, except a zero-window probe, new data fits. */
  lemma EventFits(x: Conn, l: Link, a: Act, e: Env, g: Seg)
    requires Dirs(x, l) && Settled(x, l) && !IsOpen(a) && !ZeroWindowProbe(x, a)
    requires a.Deliver? ==> a.seg in l.ps
    requires x.state == SynSent ==> SynAcksOnly(l)
    requires g in Apply(x, a, e).segs && Fresh(x, g)
    ensures Fits(l, g)
  {
    hide Dirs, Settled, Fits, Flush, HandleSynchronized, HandleSynSent, Close, OnRTO, Build, SynAcksOnly;
    match a
    case Deliver(seg) =>
      if x.state == SynSent { SynSentOld(x, l, seg, e, g); }
      else if x.state != Closed && x.state != Listen { SynchronizedFits(x, l, seg, e, g); }
    case Push => FlushFits(x, l, e, g);
    case Shut => CloseFits(x, l, e, g);
    case Retry => RetryIsOld(x, e, g);
    case Persist => FlushFits(x, l, e, g);
    case Probe(_, _) => BuildShape(x, e, x.snd.nxt - 1, ACK, []);
    case _ =>
  }

  // ---------------------------------------------------------- RCV.NXT never goes back

  lemma AbsorbGrows(x: Conn, seg: Seg)
    requires ValidRecv(x.rcv)
    ensures x.rcv.nxt <= Absorb(x, seg).rcv.nxt && Absorb(x, seg).hist.synced == x.hist.synced
  {
    hide Insert, ValidRecv, ConsumeFin;
    InsertValid(x.rcv, seg.pos, seg.payload);
    var x1 := x.(rcv := Insert(x.rcv, seg.pos, seg.payload));
    ConsumeFinFrame(x1.(deferred := None));
    ConsumeFinFrame(if seg.payload != [] then ProcessData(x, seg) else x);
  }

  lemma HandleDataGrows(x: Conn, seg: Seg, e: Env)
    requires ValidRecv(x.rcv)
    ensures var y := HandleData(x, seg, e).c; x.rcv.nxt <= y.rcv.nxt && y.hist.synced == x.hist.synced
  {
    hide ProcessACK, Absorb, Build, Stale, TakeWindow, ValidRecv;
    var x0 := UpdateStamp(x, seg);
    ProcessACKFrame(x0, seg.ack, seg.opts.sack, e);
    var x1 := ProcessACK(x0, seg.ack, seg.opts.sack, e).c;
    TakeWindowFrame(x1, seg);
    AbsorbGrows(TakeWindow(x1, seg), seg);
  }

  lemma SynchronizedGrows(x: Conn, seg: Seg, e: Env)
    requires Coherent(x)
    ensures var y := HandleSynchronized(x, seg, e).c; x.rcv.nxt <= y.rcv.nxt && y.hist.synced == x.hist.synced
  {
    hide ProcessACK, HandleData, Build, HandleRst, Acceptable, SynRcvdOK, TakeWindow, Acknowledge, ValidRecv;
    HandleRstCoherent(x, seg, e);
    ProcessACKFrame(x, seg.ack, seg.opts.sack, e);
    TakeWindowFrame(ProcessACK(x, seg.ack, seg.opts.sack, e).c, seg);
    var x1 := x.(snd := Acknowledge(x.snd, seg.ack), retries := 0, state := Established);
    TakeWindowFrame(x1, seg);
    if BeforePeerFin(x.state) {
      HandleDataGrows(x, seg, e);
      HandleDataGrows(TakeWindow(x1, seg), seg, e);
    }
  }

  lemma EventGrows(x: Conn, a: Act, e: Env)
    requires Coherent(x) && !IsOpen(a) && x.state != SynSent
    ensures var y := Apply(x, a, e).c; x.rcv.nxt <= y.rcv.nxt && y.hist.synced == x.hist.synced
  {
    hide Flush, Retransmit, HandleSynchronized, Read, Write, Build, SynSeg, SynAckSeg, RcvWindow, PeekUnsent, Coherent;
    FlushFrame(x, e);
    RetransmitFrame(x.(retries := x.retries + 1, timing := None), e);
    if a.Take? { ReadValid(x.rcv, a.count); }
    if a.Deliver? { SynchronizedGrows(x, a.seg, e); }
  }

  /** The peer's RCV.NXT as the direction sees it. */
  function Reach(l: Link): int { Eff(l.out, RH(l.peer)).nxt }

  lemma ReachFloor(x: Conn, l: Link)
    requires Dirs(x, l)
    ensures l.out.base <= Reach(l) && Eff(l.out, RH(l.peer)).wnd == l.peer.cfg.recvCap
  {
    hide SndOk, AcksOk, DataOk, AckOk, ValidRecv, HoldsWritten, Tidy;
  }

  /** m follows l: the same stream and buffer, the peer no further back. */
  ghost predicate Onward(l: Link, m: Link) {
    m.out.base == l.out.base && m.peer.cfg.recvCap == l.peer.cfg.recvCap && Reach(l) <= Reach(m)
  }

  /** An event at the peer p of a link. */
  lemma PeerOnward(p: Conn, a: Act, e: Env, x: Conn, l: Link, m: Link)
    requires l.peer == p && Coherent(p) && (p.state == SynSent ==> !p.hist.synced) && !IsOpen(a)
    requires m.peer == Apply(p, a, e).c && m.out.base == l.out.base && Dirs(x, m)
    ensures Onward(l, m)
  {
    hide Apply, Dirs, Coherent;
    EventCaps(p, a, e);
    ReachFloor(x, m);
    if p.state != SynSent { EventGrows(p, a, e); }
  }

  lemma SettledFacts(x: Conn, l: Link)
    requires Settled(x, l)
    ensures Coherent(x) && (x.state == SynSent ==> !x.hist.synced)
  {
    hide Coherent;
  }

  lemma StepOnward(w: World, at: bool, a: Act, e: Env, side: bool)
    requires Inv(w) && w.accepted && Possible(a, Mine(w, at).ps)
    ensures Onward(Mine(w, side), Mine(Next(w, Happens(at, a, e)), side))
  {
    hide Apply, Emit, Dirs, Settled, Noted, Inv, Next;
    var v := Next(w, Happens(at, a, e));
    StepIs(w, at, a, e);
    NextInv(w, Happens(at, a, e));
    if side != at {
      MineDirs(w, at);
      MineDirs(v, side);
      SettledFacts(Me(w, at), Mine(w, at));
      PeerOnward(Me(w, at), a, e, Me(v, side), Mine(w, side), Mine(v, side));
    }
  }

  lemma NextOnward(w: World, side: bool, ev: Event)
    requires Inv(w) && w.accepted
    ensures Next(w, ev).accepted && Onward(Mine(w, side), Mine(Next(w, ev), side))
  {
    hide Apply, Emit, Noted, Inv;
    match ev
    case AtA(a, e) => if Possible(a, w.ba) { StepOnward(w, true, a, e, side); }
    case AtB(a, e) => if Possible(a, w.ab) { StepOnward(w, false, a, e, side); }
    case Accept(_, _, _) =>
  }

  /** Over any run the peer's RCV.NXT only moves forward. */
  lemma {:induction false} ExecOnward(w: World, side: bool, evs: seq<Event>)
    requires Inv(w) && w.accepted
    ensures var v := Exec(w, evs); Inv(v) && v.accepted && Onward(Mine(w, side), Mine(v, side))
    decreases evs
  {
    hide Next, Inv, Mine, Reach;
    if evs != [] {
      NextInv(w, evs[0]);
      NextOnward(w, side, evs[0]);
      ExecOnward(Next(w, evs[0]), side, evs[1..]);
    }
  }

  // ------------------------------------------------------------------ over whole runs

  /** In world w, event a with environment f can happen at the side, and sends g, which carries new data. */
  predicate Sends(w: World, side: bool, a: Act, f: Env, g: Seg) {
    && w.accepted && Possible(a, Mine(w, side).ps) && !ZeroWindowProbe(Me(w, side), a)
    && g in Apply(Me(w, side), a, f).segs && Fresh(Me(w, side), g)
  }

  lemma SendsFits(w: World, side: bool, a: Act, f: Env, g: Seg)
    requires Inv(w) && Sends(w, side, a, f, g)
    ensures Fits(Mine(w, side), g)
  {
    hide Apply, Dirs, Fits, Coherent;
    MineDirs(w, side);
    OpensOnSynAck(w, side);
    EventFits(Me(w, side), Mine(w, side), a, f, g);
  }

  lemma OpensOnSynAck(w: World, side: bool)
    requires Inv(w) && w.accepted
    ensures Me(w, side).state == SynSent ==> SynAcksOnly(Mine(w, side))
  {
    hide DirInv, Coherent;
  }

  /**
   In every run, at either endpoint and for every event - a write, a close, a timer, or a segment
   whose acknowledgement opens room before its window is read - new data ends within the peer's
   buffer, whatever windows were scaled, rounded, suppressed or delayed. Only the probe of a
   closed window is excepted.
   */
  lemma FreshDataFits(cfgA: Config, cfgB: Config, iss: int, e: Env, evs: seq<Event>, side: bool, a: Act, f: Env, g: Seg)
    requires Usable(cfgA) && Usable(cfgB)
    ensures var w := WorldAfter(cfgA, cfgB, iss, e, evs); Sends(w, side, a, f, g) ==> Fits(Mine(w, side), g)
  {
    hide WorldAfter, Inv, Sends, Fits;
    AfterInv(cfgA, cfgB, iss, e, evs);
    var w := WorldAfter(cfgA, cfgB, iss, e, evs);
    if Sends(w, side, a, f, g) { SendsFits(w, side, a, f, g); }
  }

  /**
   However the run goes on, whenever such a segment is delivered, the receive buffer keeps its
   right edge, or has all of it already.
   */
  lemma NeverCutRight(cfgA: Config, cfgB: Config, iss: int, e: Env, evs: seq<Event>, side: bool, a: Act, f: Env, g: Seg,
                      later: seq<Event>)
    requires Usable(cfgA) && Usable(cfgB)
    ensures var w := WorldAfter(cfgA, cfgB, iss, e, evs);
            var p := Mine(Exec(w, [Happens(side, a, f)] + later), side).peer;
            Sends(w, side, a, f, g) && p.hist.synced ==>
              match Clip(p.rcv, g.pos, g.payload)
              case None => g.End() <= p.rcv.nxt
              case Some(n) => n.End() == g.End()
  {
    hide WorldAfter, Inv, Sends, Exec, Dirs, Settled, Clip;
    AfterInv(cfgA, cfgB, iss, e, evs);
    var w := WorldAfter(cfgA, cfgB, iss, e, evs);
    var all := [Happens(side, a, f)] + later;
    if Sends(w, side, a, f, g) {
      SendsFits(w, side, a, f, g);
      SendsWhen(w, side, a, f, g);
      ExecOnward(w, side, all);
      var v := Exec(w, all);
      MineDirs(v, side);
      ReachFloor(Me(v, side), Mine(v, side));
      if Mine(v, side).peer.hist.synced { ClipKeepsEnd(Mine(v, side).peer.rcv, g); }
    }
  }

  lemma SendsWhen(w: World, side: bool, a: Act, f: Env, g: Seg)
    requires Sends(w, side, a, f, g)
    ensures w.accepted && g.payload != []
  {
    hide Apply;
  }

  lemma ClipKeepsEnd(r: Recv, g: Seg)
    requires g.End() <= r.nxt + r.wnd && g.payload != []
    ensures match Clip(r, g.pos, g.payload)
            case None => g.End() <= r.nxt
            case Some(n) => n.End() == g.End()
  {
  }
}
