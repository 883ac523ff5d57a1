/**
 An endpoint between its two directions. Dirs joins the invariants of the stream
 it sends and the stream it receives; every handler is shown to keep both, with
 the segments it queues added to the network.
 */
module Endpoint {
  import opened SeqSpace
  import opened RecvModel
  import opened SendModel
  import opened ConnModel
  import opened ConnStates
  import opened Direction

  function SegSet(segs: seq<Seg>): set<Seg> { set g | g in segs }

  predicate Answers(g: Seg) { g.flags.ack && !g.flags.rst }

  /** The outgoing direction's history after sending segs: FIN positions. */
  function Sent(d: Dir, segs: seq<Seg>): Dir {
    d.(fins := d.fins + set g | g in segs && g.flags.fin :: g.pos)
  }

  /** The incoming direction's history after sending segs: acknowledgements and blocks. */
  function Answered(d: Dir, segs: seq<Seg>): Dir {
    d.(acks := d.acks + (set g | g in segs && Answers(g) :: g.ack),
       blocks := d.blocks + (set g, b | g in segs && Answers(g) && b in g.opts.sack :: b))
  }

  /** Endpoint x: its directions, what it and its peer ever sent, and whether it is the side that connects. */
  datatype Link = Link(peer: Conn, out: Dir, inn: Dir, xs: set<Seg>, ps: set<Seg>, active: bool)

  function Emit(l: Link, segs: seq<Seg>): Link {
    l.(out := Sent(l.out, segs), inn := Answered(l.inn, segs), xs := l.xs + SegSet(segs))
  }

  /** Both directions are in order around endpoint x. */
  ghost predicate Dirs(x: Conn, l: Link) {
    && DirInv(l.out, SH(x), RH(l.peer), l.xs, l.ps)
    && DirInv(l.inn, SH(l.peer), RH(x), l.ps, l.xs)
    && FinsFrom(l.out.fins, x.hist.finOut)
    && SynForm(l.xs, x.cfg.rcvShift, l.active)
  }

  /** FIN positions are known exactly from the first one on. */
  ghost predicate FinsFrom(fins: set<int>, first: Option<int>) {
    match first
    case None => fins == {}
    case Some(f) => f in fins && forall x :: x in fins ==> f <= x
  }

  /** Every SYN offers the sender's shift, and only the side that connects sends a bare one. */
  ghost predicate SynForm(xs: set<Seg>, shift: nat, active: bool) {
    forall g :: g in xs && g.flags.syn ==> g.opts.wscale == Some(shift) && (g.flags.ack || active)
  }

  /** A handler's result, with what it queued put on the network. */
  ghost predicate After(o: Out, l: Link) { Dirs(o.c, Emit(l, o.segs)) }

  lemma EmitNone(l: Link)
    ensures Emit(l, []) == l
  {
    assert Sent(l.out, []) == l.out;
    assert Answered(l.inn, []) == l.inn;
    assert SegSet([]) == {};
  }

  lemma EmitTwice(l: Link, a: seq<Seg>, b: seq<Seg>)
    ensures Emit(Emit(l, a), b) == Emit(l, a + b)
  {
    assert Sent(Sent(l.out, a), b).fins == Sent(l.out, a + b).fins;
    assert Answered(Answered(l.inn, a), b).acks == Answered(l.inn, a + b).acks;
    assert Answered(Answered(l.inn, a), b).blocks == Answered(l.inn, a + b).blocks;
    assert SegSet(a) + SegSet(b) == SegSet(a + b);
  }

  lemma EmitOne(l: Link, g: Seg)
    ensures !g.flags.fin ==> Sent(l.out, [g]) == l.out
    ensures g.flags.fin ==> Sent(l.out, [g]) == l.out.(fins := l.out.fins + {g.pos})
    ensures Answers(g) ==> Answered(l.inn, [g]) == Heard(l.inn, g)
    ensures !Answers(g) ==> Answered(l.inn, [g]) == l.inn
    ensures SegSet([g]) == {g}
  {
    var f := set h | h in [g] && h.flags.fin :: h.pos;
    assert f == if g.flags.fin then {g.pos} else {};
    var a := set h | h in [g] && Answers(h) :: h.ack;
    assert a == if Answers(g) then {g.ack} else {};
    var b := set h, b | h in [g] && Answers(h) && b in h.opts.sack :: b;
    assert b == if Answers(g) then (set x | x in g.opts.sack) else {};
    assert l.out.fins + {} == l.out.fins && l.inn.acks + {} == l.inn.acks && l.inn.blocks + {} == l.inn.blocks;
  }

  // ------------------------------------------------------------- single segments

  /** x may acknowledge: it has synchronized and scales its window as the peer expects. */
  ghost predicate Ready(x: Conn) { x.hist.synced && x.cfg.wscaleOK }

  /** A segment whose acknowledgement part tells the truth about x. */
  ghost predicate Truthful(x: Conn, g: Seg) {
    && Answers(g) && !g.flags.syn && g.ack == x.rcv.nxt && g.wnd == RcvWindow(x)
    && (forall b :: b in g.opts.sack ==> b in SACKBlocks(x.rcv))
  }

  lemma BuildTruthful(x: Conn, e: Env, pos: int, flags: Flags, payload: seq<byte>)
    requires flags.ack && !flags.rst && !flags.syn
    ensures Truthful(x, Build(x, e, pos, flags, payload))
  {
    hide RcvWindow, SACKBlocks;
  }

  /** The acknowledgement side of sending g. */
  lemma AnswerStep(x: Conn, l: Link, g: Seg)
    requires Dirs(x, l) && Ready(x) && Truthful(x, g)
    ensures DirInv(Heard(l.inn, g), SH(l.peer), RH(x), l.ps, l.xs + {g})
  {
    hide DirInv, RcvWindow, SACKBlocks, ShiftLeft, ShiftRight;
    WindowOk(x, l);
    RecvAnswer(l.inn, SH(l.peer), RH(x), l.ps, l.xs, g);
  }

  lemma WindowOk(x: Conn, l: Link)
    requires Dirs(x, l) && Ready(x)
    ensures ShiftLeft(RcvWindow(x), x.cfg.rcvShift) <= x.cfg.recvCap
  {
    hide SndOk, AcksOk, RcvOpen, RcvEnded, DataOk, AckOk, RcvWindow, ShiftLeft, ShiftRight;
    WindowHonest(x);
  }

  /** A segment without data or FIN. */
  lemma SendPlain(x: Conn, l: Link, g: Seg)
    requires Dirs(x, l) && Ready(x) && Truthful(x, g) && g.payload == [] && !g.flags.fin && g.pos <= x.snd.nxt
    ensures After(Out(x, [g]), l)
  {
    hide DirInv, RcvWindow, SACKBlocks;
    EmitOne(l, g);
    AnswerStep(x, l, g);
    SendSeg(l.out, SH(x), RH(l.peer), l.xs, l.ps, g);
  }

  lemma SendPlainAck(x: Conn, l: Link, e: Env)
    requires Dirs(x, l) && Ready(x)
    ensures After(Out(x, [AckSeg(x, e)]), l)
  {
    hide DirInv, RcvWindow, SACKBlocks, Truthful, After;
    BuildTruthful(x, e, x.snd.nxt, ACK, []);
    SendPlain(x, l, AckSeg(x, e));
  }

  /** Mute segments: a bare SYN or a reset. */
  lemma SendMute(x: Conn, l: Link, g: Seg)
    requires Dirs(x, l) && !Answers(g) && g.payload == [] && !g.flags.fin
    requires g.flags.syn ==> g.pos == l.out.base - 1 && g.opts.wscale == Some(x.cfg.rcvShift) && l.active
    ensures After(Out(x, [g]), l)
  {
    hide SndOk, RcvOk, AcksOk, AckOk, DirInv;
    EmitOne(l, g);
    RecvMute(l.inn, SH(l.peer), RH(x), l.ps, l.xs, g);
    SendSeg(l.out, SH(x), RH(l.peer), l.xs, l.ps, g);
  }

  // ---------------------------------------------------------------- the send side

  /** Dirs depends on a connection only through its halves. */
  lemma DirsSame(x: Conn, y: Conn, l: Link)
    requires Dirs(x, l) && SH(x) == SH(y) && RH(x) == RH(y) && x.hist.finOut == y.hist.finOut
    ensures Dirs(y, l)
  {
    hide DirInv;
  }

  lemma SendFresh(x: Conn, l: Link, n: nat, g: Seg)
    requires Dirs(x, l) && Ready(x) && Truthful(x, g) && 0 < n <= Pending(x.snd)
    requires g.pos == x.snd.nxt && g.payload == PeekUnsent(x.snd, n) && !g.flags.fin
    ensures After(Out(x.(snd := AdvanceSent(x.snd, n)), [g]), l)
  {
    hide DirInv, RcvWindow, SACKBlocks;
    EmitOne(l, g);
    AnswerStep(x, l, g);
    SendData(l.out, SH(x), RH(l.peer), l.xs, l.ps, n, g);
    AdvancePeer(x, l, n, g);
  }

  /** The incoming direction does not look at our send half. */
  lemma AdvancePeer(x: Conn, l: Link, n: nat, g: Seg)
    requires DirInv(Heard(l.inn, g), SH(l.peer), RH(x), l.ps, l.xs + {g})
    ensures DirInv(Heard(l.inn, g), SH(l.peer), RH(x.(snd := AdvanceSent(x.snd, n))), l.ps, l.xs + {g})
  {
    hide DirInv;
  }

  lemma {:induction false} FlushAfter(x: Conn, l: Link, e: Env)
    requires Dirs(x, l) && Ready(x)
    ensures After(Flush(x, e), l)
    decreases if Pending(x.snd) > 0 then Pending(x.snd) else 0
  {
    hide DirInv, Dirs, Emit, Truthful, PeekUnsent, Build;
    var n := Quota(x, e);
    if n == 0 { EmitNone(l); } else {
      var g := Build(x, e, x.snd.nxt, ACK_PSH, PeekUnsent(x.snd, n));
      var x1 := x.(snd := AdvanceSent(x.snd, n));
      var x2 := x1.(timing := StartTiming(x.timing, x.snd.nxt));
      BuildTruthful(x, e, x.snd.nxt, ACK_PSH, PeekUnsent(x.snd, n));
      assert g.pos == x.snd.nxt && g.payload == PeekUnsent(x.snd, n) && !g.flags.fin by {
        BuildShape(x, e, x.snd.nxt, ACK_PSH, PeekUnsent(x.snd, n));
      }
      SendFresh(x, l, n, g);
      DirsSame(x1, x2, Emit(l, [g]));
      FlushAfter(x2, Emit(l, [g]), e);
      EmitTwice(l, [g], Flush(x2, e).segs);
    }
  }

  lemma BuildShape(x: Conn, e: Env, pos: int, flags: Flags, payload: seq<byte>)
    ensures var g := Build(x, e, pos, flags, payload); g.pos == pos && g.flags == flags && g.payload == payload
  {
  }

  lemma RetransmitAfter(x: Conn, l: Link, e: Env)
    requires Dirs(x, l) && Ready(x)
    ensures After(Retransmit(x, e), l)
  {
    hide DirInv, Truthful, RetransmitData, Build, RcvWindow, SACKBlocks;
    var data := RetransmitData(x.snd, x.cfg.mss);
    if data == [] { EmitNone(l); } else {
      var g := Build(x, e, x.snd.una, ACK_PSH, data);
      BuildTruthful(x, e, x.snd.una, ACK_PSH, data);
      BuildShape(x, e, x.snd.una, ACK_PSH, data);
      EmitOne(l, g);
      AnswerStep(x, l, g);
      if l.peer.hist.finsIn == 0 {
        ResendExact(l.out, SH(x), RH(l.peer), l.xs, l.ps, x.cfg.mss);
      }
      SendSeg(l.out, SH(x), RH(l.peer), l.xs, l.ps, g);
    }
  }

  lemma FinAfter(x: Conn, l: Link, e: Env)
    requires Dirs(x, l) && Ready(x)
    ensures After(QueueFin(x, e), l)
  {
    hide DirInv, Truthful, Build, RcvWindow, SACKBlocks;
    var g := Build(x, e, x.snd.nxt, FIN_ACK, []);
    BuildTruthful(x, e, x.snd.nxt, FIN_ACK, []);
    BuildShape(x, e, x.snd.nxt, FIN_ACK, []);
    EmitOne(l, g);
    AnswerStep(x, l, g);
    FinsBelow(x, l);
    SendFin(l.out, SH(x), RH(l.peer), l.xs, l.ps, g);
  }

  lemma FinsBelow(x: Conn, l: Link)
    requires Dirs(x, l)
    ensures forall f :: f in l.out.fins ==> f < x.snd.nxt
  {
    hide RcvOk, AcksOk, DataOk, AckOk;
  }

  /** An acknowledgement and SACK report that come from the network of the outgoing direction. */
  ghost predicate FromPeer(l: Link, ack: int, sack: seq<Block>) {
    ack in l.out.acks && forall b :: b in sack ==> b in l.out.blocks
  }

  lemma MarkDirs(x: Conn, l: Link, sack: seq<Block>)
    requires Dirs(x, l) && (forall b :: b in sack ==> b in l.out.blocks)
    ensures Dirs(Mark(x, sack), l)
  {
    hide DirInv, MarkSACKed;
    if x.cfg.sackOK { SendMarked(l.out, SH(x), RH(l.peer), l.xs, l.ps, sack); }
  }

  lemma AckedDirs(x: Conn, l: Link, ack: int, sack: seq<Block>)
    requires Dirs(x, l) && FromPeer(l, ack, sack)
    ensures Dirs(Acked(x, ack, sack), l)
  {
    hide DirInv, Mark, Acknowledge;
    SendAcked(l.out, SH(x), RH(l.peer), l.xs, l.ps, ack);
    var x1 := x.(snd := Acknowledge(x.snd, ack), retries := 0);
    MarkDirs(x1, l, sack);
    DirsSame(Mark(x1, sack), Acked(x, ack, sack), l);
  }

  lemma ProcessACKAfter(x: Conn, l: Link, ack: int, sack: seq<Block>, e: Env)
    requires Dirs(x, l) && Ready(x) && FromPeer(l, ack, sack)
    ensures After(ProcessACK(x, ack, sack, e), l)
  {
    hide Dirs, Retransmit, Mark, Acked, Flush, AckSeg, Emit;
    if ack <= x.snd.una {
      if e.fast { RetransmitAfter(x, l, e); } else { EmitNone(l); }
      var o := if e.fast then Retransmit(x, e) else Out(x, []);
      EmitBlocks(l, o.segs);
      MarkDirs(o.c, Emit(l, o.segs), sack);
    } else if ack > x.snd.nxt {
      SendPlainAck(x, l, e);
    } else {
      AckedDirs(x, l, ack, sack);
      AckedFrame(x, ack, sack);
      FlushAfter(Acked(x, ack, sack), l, e);
    }
  }

  lemma EmitBlocks(l: Link, segs: seq<Seg>)
    ensures Emit(l, segs).out.blocks == l.out.blocks && Emit(l, segs).out.acks == l.out.acks
    ensures Emit(l, segs).ps == l.ps && Emit(l, segs).peer == l.peer && Emit(l, segs).active == l.active
    ensures Emit(l, segs).out.base == l.out.base && Emit(l, segs).inn.base == l.inn.base
    ensures Emit(l, segs).inn.fins == l.inn.fins
  {
  }

  // ------------------------------------------------------------- the receive side

  /** The window a segment of the peer carries fits the peer's buffer. */
  lemma TakeWindowDirs(x: Conn, l: Link, seg: Seg)
    requires Dirs(x, l) && seg in l.ps && Answers(seg) && x.cfg.sndShift == l.peer.cfg.rcvShift
    ensures Dirs(TakeWindow(x, seg), l) && TakeWindow(x, seg).sndWnd <= l.peer.cfg.recvCap
  {
    hide SndOk, RcvOk, AcksOk, DataOk, ShiftLeft, ShiftRight;
    assert AckOk(l.out, RH(l.peer), seg);
  }

  /** x is in a state that takes data: synchronized, the peer's FIN not consumed. */
  ghost predicate Receiving(x: Conn) { x.hist.synced && x.hist.finsIn == 0 }

  lemma ConsumeDirs(x: Conn, l: Link, deferred: Option<int>)
    requires Dirs(x, l) && Receiving(x) && x.rcv.nxt in l.inn.fins
    requires deferred == None || deferred == x.deferred
    ensures Dirs(ConsumeFin(x.(deferred := deferred)), l)
  {
    hide DirInv;
    RecvFin(l.inn, SH(l.peer), RH(x), l.ps, l.xs, deferred);
  }

  lemma ProcessDataDirs(x: Conn, l: Link, seg: Seg)
    requires Dirs(x, l) && Receiving(x) && seg in l.ps
    ensures Dirs(ProcessData(x, seg), l)
  {
    hide Insert, DirInv, ConsumeFin;
    RecvInsert(l.inn, SH(l.peer), RH(x), l.ps, l.xs, seg);
    var x1 := x.(rcv := Insert(x.rcv, seg.pos, seg.payload));
    if x1.deferred == Some(x1.rcv.nxt) {
      DeferredIsFin(x1, l);
      ConsumeDirs(x1, l, None);
    }
  }

  lemma DeferredIsFin(x: Conn, l: Link)
    requires Dirs(x, l) && Receiving(x) && x.deferred.Some?
    ensures x.deferred.value in l.inn.fins
  {
    hide SndOk, AcksOk, DataOk, AckOk, HoldsWritten, ValidRecv;
  }

  lemma SegmentFin(x: Conn, l: Link, seg: Seg)
    requires Dirs(x, l) && Receiving(x) && seg in l.ps && seg.flags.fin
    ensures seg.payload == [] && seg.pos in l.inn.fins
  {
    hide SndOk, AcksOk, RcvOk, AckOk;
    assert DataOk(l.inn, l.peer.snd.nxt, seg);
  }

  lemma AbsorbDirs(x: Conn, l: Link, seg: Seg)
    requires Dirs(x, l) && Receiving(x) && seg in l.ps
    ensures Dirs(Absorb(x, seg), l)
  {
    hide DirInv, ProcessData, ConsumeFin;
    if seg.flags.fin {
      SegmentFin(x, l, seg);
      if seg.pos == x.rcv.nxt { ConsumeDirs(x, l, x.deferred); }
      else { RecvDefer(l.inn, SH(l.peer), RH(x), l.ps, l.xs, seg.pos); }
    } else if seg.payload != [] {
      ProcessDataDirs(x, l, seg);
    }
  }

  /** What the peer's segments acknowledge and report. */
  lemma PeerAnswers(x: Conn, l: Link, seg: Seg)
    requires Dirs(x, l) && seg in l.ps && Answers(seg)
    ensures FromPeer(l, seg.ack, seg.opts.sack)
  {
    hide SndOk, RcvOk, AcksOk, DataOk, ShiftLeft, ShiftRight;
    assert AckOk(l.out, RH(l.peer), seg);
  }

  /** Facts tied to the state name: the SYN is acknowledged, and the window known, once writes are taken. */
  ghost predicate Settled(x: Conn, l: Link) {
    && Coherent(x)
    && (x.state == Established || x.state == CloseWait ==> l.out.base <= x.snd.una && x.sndWnd <= l.peer.cfg.recvCap)
    && (x.state == SynReceived || !x.hist.synced ==> x.snd.una == l.out.base - 1)
    && (x.state != Closed && x.state != SynSent ==> x.hist.synced)
    && (x.state == SynSent ==> !x.hist.synced && l.active)
    && (!x.hist.synced ==> x.rcv.buf == [] && l.active)
    && (x.hist.synced ==> x.cfg.wscaleOK && x.cfg.sndShift == l.peer.cfg.rcvShift)
  }

  lemma HandleDataAfter(x: Conn, l: Link, seg: Seg, e: Env)
    requires Dirs(x, l) && Settled(x, l) && x.state in {Established, FinWait1, FinWait2}
    requires seg in l.ps && Answers(seg)
    ensures After(HandleData(x, seg, e), l)
  {
    hide Dirs, ProcessACK, Absorb, AckSeg, Emit, Coherent, Stale, TakeWindow;
    DataStatesFinless(x);
    if Stale(x, seg) { SendPlainAck(x, l, e); } else {
      var x0 := UpdateStamp(x, seg);
      DirsSame(x, x0, l);
      PeerAnswers(x0, l, seg);
      ProcessACKAfter(x0, l, seg.ack, seg.opts.sack, e);
      ProcessACKFrame(x0, seg.ack, seg.opts.sack, e);
      var o := ProcessACK(x0, seg.ack, seg.opts.sack, e);
      var l1 := Emit(l, o.segs);
      EmitBlocks(l, o.segs);
      TakeWindowDirs(o.c, l1, seg);
      TakeWindowFrame(o.c, seg);
      var x1 := TakeWindow(o.c, seg);
      AbsorbDirs(x1, l1, seg);
      AbsorbFrame(x1, seg);
      var x2 := Absorb(x1, seg);
      SendPlainAck(x2, l1, e);
      EmitTwice(l, o.segs, [AckSeg(x2, e)]);
      assert o.segs + [] == o.segs;
    }
  }

  /** y differs from x only on the receive side and in the state. */
  ghost predicate ReceiveOnly(x: Conn, y: Conn) {
    y == x.(state := y.state, finRecvd := y.finRecvd, timeWaitArmed := y.timeWaitArmed, rcv := y.rcv,
            deferred := y.deferred, hist := x.hist.(finsIn := y.hist.finsIn))
  }

  lemma ConsumeFinFrame(x: Conn)
    ensures ReceiveOnly(x, ConsumeFin(x))
    ensures ConsumeFin(x).hist.finsIn == x.hist.finsIn + 1 && ConsumeFin(x).rcv == x.rcv.(nxt := x.rcv.nxt + 1)
  {
  }

  lemma ProcessDataFrame(x: Conn, seg: Seg)
    ensures ReceiveOnly(x, ProcessData(x, seg))
  {
    hide Insert, ConsumeFin;
    var x1 := x.(rcv := Insert(x.rcv, seg.pos, seg.payload));
    ConsumeFinFrame(x1.(deferred := None));
  }

  lemma AbsorbFrame(x: Conn, seg: Seg)
    ensures ReceiveOnly(x, Absorb(x, seg))
  {
    hide ProcessData, ConsumeFin;
    ProcessDataFrame(x, seg);
    ConsumeFinFrame(if seg.payload != [] then ProcessData(x, seg) else x);
  }

  lemma HandleDataSettled(x: Conn, l: Link, seg: Seg, e: Env)
    requires Dirs(x, l) && Settled(x, l) && x.state in {Established, FinWait1, FinWait2}
    requires seg in l.ps && Answers(seg)
    ensures Settled(HandleData(x, seg, e).c, l)
  {
    hide Dirs, ProcessACK, Absorb, AckSeg, Coherent, Stale, TakeWindow;
    HandleDataCoherent(x, seg, e);
    if !Stale(x, seg) {
      var x0 := UpdateStamp(x, seg);
      ProcessACKFrame(x0, seg.ack, seg.opts.sack, e);
      var x1 := ProcessACK(x0, seg.ack, seg.opts.sack, e).c;
      TakeWindowFrame(x1, seg);
      WindowFits(x, l, seg);
      WindowSame(x, x1, seg);
      AbsorbFrame(TakeWindow(x1, seg), seg);
    }
  }

  lemma WindowFits(x: Conn, l: Link, seg: Seg)
    requires Dirs(x, l) && seg in l.ps && Answers(seg) && x.cfg.sndShift == l.peer.cfg.rcvShift
    ensures TakeWindow(x, seg).sndWnd <= l.peer.cfg.recvCap
  {
    hide Dirs, TakeWindow;
    TakeWindowDirs(x, l, seg);
  }

  lemma WindowSame(x: Conn, y: Conn, seg: Seg)
    requires x.cfg.sndShift == y.cfg.sndShift
    ensures TakeWindow(x, seg).sndWnd == TakeWindow(y, seg).sndWnd
  {
    hide ShiftLeft, ShiftRight;
  }

  // ------------------------------------------------------------------- handlers

  /** What every event keeps: both directions, and the facts tied to the state. */
  ghost predicate Kept(o: Out, l: Link) { After(o, l) && Settled(o.c, Emit(l, o.segs)) }

  lemma KeptIf(o: Out, l: Link)
    requires After(o, l) && Settled(o.c, l)
    ensures Kept(o, l)
  {
    hide After, Coherent;
    EmitBlocks(l, o.segs);
  }

  lemma KeptSilent(x: Conn, l: Link)
    requires Dirs(x, l) && Settled(x, l)
    ensures Kept(Out(x, []), l)
  {
    hide Dirs, Settled, Emit;
    EmitNone(l);
  }

  lemma KeptAck(x: Conn, l: Link, e: Env)
    requires Dirs(x, l) && Settled(x, l) && x.hist.synced
    ensures Kept(Out(x, [AckSeg(x, e)]), l)
  {
    hide Dirs, Emit, AckSeg, Kept, After, Coherent;
    SendPlainAck(x, l, e);
    KeptIf(Out(x, [AckSeg(x, e)]), l);
  }

  lemma KeptRst(x: Conn, l: Link, g: Seg)
    requires Dirs(x, l) && Settled(x, l) && g.flags.rst && g.payload == [] && !g.flags.fin && !g.flags.syn
    ensures Kept(Out(x, [g]), l)
  {
    hide Dirs, Emit, Kept, After, Settled;
    SendMute(x, l, g);
    KeptIf(Out(x, [g]), l);
  }

  lemma KeptClosed(x: Conn, y: Conn, l: Link)
    requires Dirs(x, l) && Settled(x, l) && y.state == Closed
    requires y == x.(state := Closed, closed := y.closed, finRecvd := y.finRecvd, timeWaitArmed := y.timeWaitArmed,
        retries := y.retries)
    ensures Dirs(y, l) && Settled(y, l)
  {
    hide Dirs;
    DirsSame(x, y, l);
  }

  lemma HandleRstKept(x: Conn, l: Link, seg: Seg, e: Env)
    requires Dirs(x, l) && Settled(x, l) && x.hist.synced
    ensures Kept(HandleRst(x, seg, e), l)
  {
    hide Dirs, Settled, Kept, AckSeg, Window;
    var y := Shutdown(x).(finRecvd := true);
    KeptClosed(x, y, l);
    KeptSilent(y, l);
    KeptSilent(x, l);
    KeptAck(x, l, e);
  }

  lemma HandleDataKept(x: Conn, l: Link, seg: Seg, e: Env)
    requires Dirs(x, l) && Settled(x, l) && x.state in {Established, FinWait1, FinWait2}
    requires seg in l.ps && Answers(seg)
    ensures Kept(HandleData(x, seg, e), l)
  {
    hide Dirs, Settled, After, HandleData;
    HandleDataAfter(x, l, seg, e);
    HandleDataSettled(x, l, seg, e);
    KeptIf(HandleData(x, seg, e), l);
  }

  lemma HandleSynReceivedKept(x: Conn, l: Link, seg: Seg, e: Env)
    requires Dirs(x, l) && Settled(x, l) && x.state == SynReceived
    requires seg in l.ps && Answers(seg)
    ensures Kept(HandleSynReceived(x, seg, e), l)
  {
    hide Dirs, Coherent, Kept, HandleData, Acknowledge, TakeWindow;
    if seg.ack != x.snd.nxt { KeptRst(x, l, RstSeg(seg.ack)); } else {
      PeerAnswers(x, l, seg);
      var x1 := x.(snd := Acknowledge(x.snd, seg.ack), retries := 0, state := Established);
      AcknowledgeDirs(x, x1, l, seg.ack);
      TakeWindowDirs(x1, l, seg);
      TakeWindowFrame(x1, seg);
      EstablishedCoherent(x, TakeWindow(x1, seg));
      HandleDataKept(TakeWindow(x1, seg), l, seg, e);
    }
  }

  /** Acknowledging everything sent, the SYN included. */
  lemma AcknowledgeDirs(x: Conn, y: Conn, l: Link, ack: int)
    requires Dirs(x, l) && ack in l.out.acks && ack == x.snd.nxt
    requires y == x.(snd := Acknowledge(x.snd, ack), retries := 0, state := Established)
    ensures Dirs(y, l) && l.out.base <= y.snd.una == y.snd.nxt == x.snd.nxt
  {
    hide SndOk, RcvOk, AcksOk, DataOk, AckOk, Prune;
    SndEdges(l.out, x.snd);
    SendAcked(l.out, SH(x), RH(l.peer), l.xs, l.ps, ack);
  }

  lemma EstablishedCoherent(x: Conn, y: Conn)
    requires Coherent(x) && x.state == SynReceived
    requires y == x.(snd := y.snd, sndWnd := y.sndWnd, retries := 0, state := Established)
    ensures Coherent(y)
  {
  }

  lemma CloseWaitKept(x: Conn, l: Link, seg: Seg, e: Env)
    requires Dirs(x, l) && Settled(x, l) && x.state == CloseWait
    requires seg in l.ps && Answers(seg)
    ensures var o := ProcessACK(x, seg.ack, seg.opts.sack, e); Kept(Out(TakeWindow(o.c, seg), o.segs), l)
  {
    hide Dirs, Coherent, Kept, Emit, ProcessACK, TakeWindow;
    PeerAnswers(x, l, seg);
    ProcessACKAfter(x, l, seg.ack, seg.opts.sack, e);
    ProcessACKFrame(x, seg.ack, seg.opts.sack, e);
    var o := ProcessACK(x, seg.ack, seg.opts.sack, e);
    EmitBlocks(l, o.segs);
    TakeWindowDirs(o.c, Emit(l, o.segs), seg);
    TakeWindowFrame(o.c, seg);
    SendSideCoherent(x, TakeWindow(o.c, seg));
    KeptIf(Out(TakeWindow(o.c, seg), o.segs), l);
  }

  lemma SynchronizedKept(x: Conn, l: Link, seg: Seg, e: Env)
    requires Dirs(x, l) && Settled(x, l) && x.state !in {Closed, Listen, SynSent} && seg in l.ps
    ensures Kept(HandleSynchronized(x, seg, e), l)
  {
    hide Dirs, Coherent, Kept, AckSeg, Acceptable, HandleRst, HandleData, HandleSynReceived, ProcessACK, TakeWindow,
        SynRcvdOK;
    KeptSilent(x, l);
    KeptAck(x, l, e);
    if seg.flags.rst { HandleRstKept(x, l, seg, e); }
    else if !seg.flags.ack {}
    else if x.state == SynReceived { HandleSynReceivedKept(x, l, seg, e); }
    else if x.state == CloseWait { CloseWaitKept(x, l, seg, e); }
    else if x.state in {Established, FinWait1, FinWait2} { HandleDataKept(x, l, seg, e); }
    else { EndingKept(x, l, seg, e); }
  }

  /** The states after both FINs are on their way. */
  lemma EndingKept(x: Conn, l: Link, seg: Seg, e: Env)
    requires Dirs(x, l) && Settled(x, l) && x.state in {Closing, LastAck, TimeWait}
    ensures Kept(Out(EnterTimeWait(x), [AckSeg(EnterTimeWait(x), e)]), l) || x.state != Closing
    ensures Kept(Out(Shutdown(x), []), l)
  {
    hide Dirs, Kept, AckSeg;
    KeptClosed(x, Shutdown(x), l);
    KeptSilent(Shutdown(x), l);
    if x.state == Closing {
      DirsSame(x, EnterTimeWait(x), l);
      KeptAck(EnterTimeWait(x), l, e);
    }
  }

  // ------------------------------------------------------------------ handshake

  /** The peer's SYNs all are SYN-ACKs that offer its shift. */
  ghost predicate SynAcksOnly(l: Link) { l.peer.cfg.rcvShift <= 14 && SynForm(l.ps, l.peer.cfg.rcvShift, false) }

  lemma PeerSyn(x: Conn, l: Link, seg: Seg)
    requires Dirs(x, l) && x.hist.finsIn == 0 && seg in l.ps && seg.flags.syn
    ensures seg.payload == [] && seg.pos == l.inn.base - 1
  {
    hide SndOk, AcksOk, RcvOk, AckOk;
    assert DataOk(l.inn, l.peer.snd.nxt, seg);
  }

  lemma SyncDirs(x: Conn, l: Link, seg: Seg)
    requires Dirs(x, l) && x.hist.finsIn == 0 && !x.hist.synced && seg in l.ps && seg.flags.syn
    ensures Dirs(Synchronize(x, seg), l)
    ensures Synchronize(x, seg) == x.(rcv := NewRecv(l.inn.base, x.cfg.recvCap), hist := x.hist.(synced := true))
  {
    hide DirInv, Insert;
    PeerSyn(x, l, seg);
    InsertNothing(NewRecv(seg.pos + 1, x.cfg.recvCap), seg.pos + 1);
    RecvSync(l.inn, SH(l.peer), RH(x), l.ps, l.xs);
  }

  /** Negotiation touches neither half except for the window shift. */
  lemma NegotiateDirs(x: Conn, l: Link, o: Opts)
    requires Dirs(x, l) && o.wscale == Some(l.peer.cfg.rcvShift) && l.peer.cfg.rcvShift <= 14
    ensures Dirs(Negotiate(x, o), l)
    ensures Negotiate(x, o).cfg.sndShift == l.peer.cfg.rcvShift && Negotiate(x, o).cfg.wscaleOK
  {
    hide SndOk, AcksOk, RcvOk, AckOk, DataOk;
  }

  /** The SYN-ACK arrives: x becomes ESTABLISHED. */
  lemma HandshakeDone(x: Conn, l: Link, seg: Seg)
    requires Dirs(x, l) && Settled(x, l) && SynAcksOnly(l) && x.state == SynSent
    requires seg in l.ps && seg.flags.syn && !seg.flags.rst && x.snd.una < seg.ack <= x.snd.nxt
    ensures var x1 := Synchronize(TakeWindow(Negotiate(x, seg.opts), seg), seg);
            var x2 := AckTiming(x1.(snd := Acknowledge(x1.snd, seg.ack), retries := 0, state := Established), seg.ack);
            Dirs(x2, l) && Settled(x2, l) && x2.state == Established
  {
    hide Dirs, Coherent, Negotiate, TakeWindow, Synchronize, Acknowledge;
    DataStatesFinless(x);
    NegotiateDirs(x, l, seg.opts);
    NegotiateFrame(x, seg.opts);
    var xn := Negotiate(x, seg.opts);
    TakeWindowDirs(xn, l, seg);
    TakeWindowFrame(xn, seg);
    SyncDirs(TakeWindow(xn, seg), l, seg);
    var x1 := Synchronize(TakeWindow(xn, seg), seg);
    PeerAnswers(x1, l, seg);
    var x2 := x1.(snd := Acknowledge(x1.snd, seg.ack), retries := 0, state := Established);
    AckInFlight(x1, x2, l, seg.ack);
    DirsSame(x2, AckTiming(x2, seg.ack), l);
    OpenedCoherent(x, AckTiming(x2, seg.ack), l.inn.base);
  }

  lemma AckInFlight(x: Conn, y: Conn, l: Link, ack: int)
    requires Dirs(x, l) && ack in l.out.acks && x.snd.una < ack <= x.snd.nxt
    requires y == x.(snd := Acknowledge(x.snd, ack), retries := 0, state := Established)
    ensures Dirs(y, l) && y.snd.una == ack
  {
    hide DirInv, Prune;
    SendAcked(l.out, SH(x), RH(l.peer), l.xs, l.ps, ack);
  }

  lemma OpenedCoherent(x: Conn, y: Conn, base: int)
    requires Coherent(x) && x.state == SynSent && y.state == Established
    requires y.cfg.recvCap == x.cfg.recvCap && y.rcv == NewRecv(base, y.cfg.recvCap) && y.deferred == x.deferred
    requires y.hist.finsIn == x.hist.finsIn && y.hist.finOut == x.hist.finOut
    ensures Coherent(y)
  {
  }

  lemma SynSentKept(x: Conn, l: Link, seg: Seg, e: Env)
    requires Dirs(x, l) && Settled(x, l) && SynAcksOnly(l) && x.state == SynSent && seg in l.ps
    ensures Kept(HandleSynSent(x, seg, e), l)
  {
    hide Dirs, Settled, Kept, Emit, Negotiate, TakeWindow, Synchronize, Acknowledge, AckTiming, AckSeg, Flush;
    KeptSilent(x, l);
    var y := Shutdown(x).(finRecvd := true);
    KeptClosed(x, y, l);
    KeptSilent(y, l);
    KeptRst(x, l, RstSeg(seg.ack));
    if seg.flags.syn && seg.flags.ack && !seg.flags.rst && x.snd.una < seg.ack <= x.snd.nxt {
      HandshakeDone(x, l, seg);
      var x1 := Synchronize(TakeWindow(Negotiate(x, seg.opts), seg), seg);
      var x2 := AckTiming(x1.(snd := Acknowledge(x1.snd, seg.ack), retries := 0, state := Established), seg.ack);
      AckThenFlush(x2, l, e);
    }
  }

  lemma AckThenFlush(x: Conn, l: Link, e: Env)
    requires Dirs(x, l) && Settled(x, l) && x.state == Established
    ensures Kept(Out(Flush(x, e).c, [AckSeg(x, e)] + Flush(x, e).segs), l)
  {
    hide Dirs, Kept, Emit, AckSeg, Flush, Coherent;
    SendPlainAck(x, l, e);
    FlushAfter(x, Emit(l, [AckSeg(x, e)]), e);
    EmitTwice(l, [AckSeg(x, e)], Flush(x, e).segs);
    FlushSettled(x, l, e);
    KeptIf(Out(Flush(x, e).c, [AckSeg(x, e)] + Flush(x, e).segs), l);
  }

  lemma FlushSettled(x: Conn, l: Link, e: Env)
    requires Settled(x, l)
    ensures Settled(Flush(x, e).c, l)
  {
    hide Flush, Coherent;
    FlushFrame(x, e);
    SendSideCoherent(x, Flush(x, e).c);
  }

  lemma FlushKept(x: Conn, l: Link, e: Env)
    requires Dirs(x, l) && Settled(x, l)
    ensures Kept(Flush(x, e), l)
  {
    hide Dirs, Kept, Flush, Coherent;
    if x.hist.synced {
      FlushAfter(x, l, e);
      FlushSettled(x, l, e);
      KeptIf(Flush(x, e), l);
    } else {
      NothingToFlush(x, l, e);
      KeptSilent(x, l);
    }
  }

  /** Before the handshake nothing was written. */
  lemma NothingToFlush(x: Conn, l: Link, e: Env)
    requires Dirs(x, l) && Settled(x, l) && !x.hist.synced
    ensures Pending(x.snd) <= 0 && Flush(x, e) == Out(x, [])
  {
    hide RcvOk, AcksOk, DataOk, AckOk, Coherent, Build, PeekUnsent;
  }

  // ---------------------------------------------------- application and timers

  lemma SynAckKept(x: Conn, l: Link, e: Env)
    requires Dirs(x, l) && Settled(x, l) && x.state == SynReceived
    ensures Kept(Out(x, [SynAckSeg(x, e)]), l)
  {
    hide DirInv, RcvWindow, ShiftLeft, ShiftRight, Kept, Coherent, SynOptions;
    var g := SynAckSeg(x, e);
    SynOptionsPlain(x, e);
    EmitOne(l, g);
    WindowOk(x, l);
    RecvAnswer(l.inn, SH(l.peer), RH(x), l.ps, l.xs, g);
    SendSeg(l.out, SH(x), RH(l.peer), l.xs, l.ps, g);
    KeptIf(Out(x, [g]), l);
  }

  lemma SynOptionsPlain(x: Conn, e: Env)
    ensures SynOptions(x, e).sack == [] && SynOptions(x, e).wscale == Some(x.cfg.rcvShift)
  {
  }

  lemma SynKept(x: Conn, l: Link, e: Env)
    requires Dirs(x, l) && Settled(x, l) && x.state == SynSent
    ensures Kept(Out(x, [SynSeg(x, e)]), l)
  {
    hide Dirs, RcvWindow, Kept, After, Coherent, SynOptions;
    SynOptionsPlain(x, e);
    SendMute(x, l, SynSeg(x, e));
    KeptIf(Out(x, [SynSeg(x, e)]), l);
  }

  lemma RetransmitKept(x: Conn, l: Link, e: Env)
    requires Dirs(x, l) && Settled(x, l) && x.hist.synced
    ensures Kept(Retransmit(x, e), l)
  {
    hide Dirs, After, Kept, Retransmit, Coherent;
    RetransmitAfter(x, l, e);
    RetransmitFrame(x, e);
    SendSideCoherent(x, Retransmit(x, e).c);
    KeptIf(Retransmit(x, e), l);
  }

  /** Queueing a FIN from x after it moved to a state that has one out. */
  lemma FinKept(x: Conn, y: Conn, l: Link, e: Env)
    requires Dirs(x, l) && Settled(x, l) && y == x.(state := y.state, retries := y.retries, timing := y.timing)
    requires x.hist.synced
    requires y.state == FinWait1 || y.state == LastAck
    requires Coherent(QueueFin(y, e).c)
    ensures Kept(QueueFin(y, e), l)
  {
    hide Dirs, After, Kept, Coherent, Build;
    DirsSame(x, y, l);
    FinAfter(y, l, e);
    KeptIf(QueueFin(y, e), l);
  }

  lemma CloseKept(x: Conn, l: Link, e: Env)
    requires Dirs(x, l) && Settled(x, l)
    ensures Kept(Close(x, e), l)
  {
    hide Dirs, Kept, Coherent, Emit, Build, Flush, QueueFin;
    CloseCoherent(x, e);
    KeptSilent(x, l);
    KeptClosed(x, Shutdown(x), l);
    KeptSilent(Shutdown(x), l);
    if !x.closed {
      match x.state
      case Established => CloseFlushKept(x, l, e);
      case CloseWait => FinKept(x, x.(state := LastAck), l, e);
      case SynReceived => FinKept(x, x.(state := FinWait1), l, e);
      case _ =>
    }
  }

  lemma CloseFlushKept(x: Conn, l: Link, e: Env)
    requires Dirs(x, l) && Settled(x, l) && x.state == Established
    requires Coherent(QueueFin(Flush(x, e).c.(state := FinWait1), e).c)
    ensures var o := Flush(x, e); var f := QueueFin(o.c.(state := FinWait1), e); Kept(Out(f.c, o.segs + f.segs), l)
  {
    hide Dirs, Settled, Emit, Flush, QueueFin, Coherent;
    var o := Flush(x, e);
    FlushKept(x, l, e);
    FlushFrame(x, e);
    SyncedWhen(x, l);
    var l1 := Emit(l, o.segs);
    var f := QueueFin(o.c.(state := FinWait1), e);
    FinKept(o.c, o.c.(state := FinWait1), l1, e);
    EmitTwice(l, o.segs, f.segs);
  }

  lemma SyncedWhen(x: Conn, l: Link)
    requires Settled(x, l) && x.state != Closed && x.state != SynSent
    ensures x.hist.synced
  {
  }

  lemma RetryKept(x: Conn, l: Link, e: Env)
    requires Dirs(x, l) && Settled(x, l)
    ensures Kept(OnRTO(x, e), l)
  {
    hide Dirs, Kept, Coherent, Build, Retransmit, QueueFin, SynSeg, SynAckSeg;
    RetryCoherent(x, e);
    KeptSilent(x, l);
    var y := Shutdown(x).(retries := x.retries + 1);
    KeptClosed(x, y, l);
    KeptSilent(y, l);
    var x1 := x.(retries := x.retries + 1, timing := None);
    DirsSame(x, x1, l);
    SendSideCoherent(x, x1);
    KeptSilent(x1, l);
    match x.state
    case SynSent => SynKept(x1, l, e);
    case SynReceived => SynAckKept(x1, l, e);
    case Established => RetransmitKept(x1, l, e);
    case CloseWait => RetransmitKept(x1, l, e);
    case FinWait1 => if !x.closed && x.retries + 1 <= MAX_RETRIES { FinKept(x, x1, l, e); }
    case LastAck => if !x.closed && x.retries + 1 <= MAX_RETRIES { FinKept(x, x1, l, e); }
    case _ =>
  }

  lemma PersistKept(x: Conn, l: Link, e: Env)
    requires Dirs(x, l) && Settled(x, l)
    ensures Kept(OnPersist(x, e), l)
  {
    hide Dirs, Kept, Flush, Coherent, RcvWindow, PeekUnsent, After;
    KeptSilent(x, l);
    FlushKept(x, l, e);
    if x.sndWnd == 0 && Pending(x.snd) > 0 {
      if !x.hist.synced { NothingToFlush(x, l, e); }
      var g := Seg(x.snd.nxt, x.rcv.nxt, ACK, RcvWindow(x), NO_OPTS, PeekUnsent(x.snd, 1));
      var y := x.(snd := AdvanceSent(x.snd, 1));
      SendFresh(x, l, 1, g);
      SendSideCoherent(x, y);
      KeptIf(Out(y, [g]), l);
    }
  }

  lemma ProbeKept(x: Conn, l: Link, idle: bool, exhausted: bool, e: Env)
    requires Dirs(x, l) && Settled(x, l)
    ensures Kept(OnKeepalive(x, idle, exhausted, e), l)
  {
    hide Dirs, Kept, Coherent, Build, After, Truthful;
    KeptSilent(x, l);
    var y := Shutdown(x).(finRecvd := true);
    KeptClosed(x, y, l);
    KeptSilent(y, l);
    if x.state == Established || x.state == CloseWait {
      var g := Build(x, e, x.snd.nxt - 1, ACK, []);
      BuildTruthful(x, e, x.snd.nxt - 1, ACK, []);
      BuildShape(x, e, x.snd.nxt - 1, ACK, []);
      SendPlain(x, l, g);
      KeptIf(Out(x, [g]), l);
    }
  }

  lemma AbortKept(x: Conn, l: Link)
    requires Dirs(x, l) && Settled(x, l)
    ensures Kept(Abort(x), l)
  {
    hide Dirs, Kept, Settled;
    KeptSilent(x, l);
    var y := Shutdown(x).(finRecvd := true);
    KeptClosed(x, y, l);
    KeptSilent(y, l);
    KeptRst(y, l, RstSeg(x.snd.nxt));
  }

  // ----------------------------------------------------------------- any event

  /** The histories also note what the application writes and reads. */
  function Noted(x: Conn, l: Link, a: Act): Link {
    match a
    case Buffer(p) => if CanWrite(x) then l.(out := l.out.(written := l.out.written + p[..WriteCount(x.snd, p)])) else l
    case Take(n) => l.(inn := l.inn.(read := l.inn.read + x.rcv.buf[..Min(n, |x.rcv.buf|)]))
    case _ => l
  }

  lemma BufferKept(x: Conn, l: Link, p: seq<byte>)
    requires Dirs(x, l) && Settled(x, l) && CanWrite(x)
    ensures Kept(Out(x.(snd := Write(x.snd, p)), []), Noted(x, l, Buffer(p)))
  {
    hide DirInv, Write, WriteCount, Kept, Coherent;
    var y := x.(snd := Write(x.snd, p));
    WriterFinless(x);
    SendWrite(l.out, SH(x), RH(l.peer), l.xs, l.ps, p);
    WriteEdges(x.snd, p);
    SendSideCoherent(x, y);
    KeptSilent(y, Noted(x, l, Buffer(p)));
  }

  lemma WriteEdges(s: Send, p: seq<byte>)
    ensures Write(s, p).una == s.una && Write(s, p).nxt == s.nxt
  {
  }

  lemma WriterFinless(x: Conn)
    requires Coherent(x) && CanWrite(x)
    ensures x.hist.finOut == None
  {
  }

  lemma TakeKept(x: Conn, l: Link, n: nat)
    requires Dirs(x, l) && Settled(x, l)
    ensures Kept(Out(x.(rcv := Read(x.rcv, n)), []), Noted(x, l, Take(n)))
  {
    hide DirInv, Kept, Coherent, Read;
    var y := x.(rcv := Read(x.rcv, n));
    ReadCoherent(x, n);
    if x.hist.synced { RecvRead(l.inn, SH(l.peer), RH(x), l.ps, l.xs, n); }
    else {
      ReadEmpty(x.rcv, n);
      assert l.inn.read + [] == l.inn.read;
    }
    KeptSilent(y, Noted(x, l, Take(n)));
  }

  lemma ReadEmpty(r: Recv, n: nat)
    requires r.buf == []
    ensures Read(r, n) == r
  {
  }

  /** Every event at an endpoint keeps both directions and the facts tied to its state. */
  lemma EventKept(x: Conn, l: Link, a: Act, e: Env)
    requires Dirs(x, l) && Settled(x, l) && !IsOpen(a)
    requires a.Deliver? ==> a.seg in l.ps
    requires x.state == SynSent ==> SynAcksOnly(l)
    ensures Kept(Apply(x, a, e), Noted(x, l, a))
  {
    hide Dirs, Settled, Kept, Flush, HandleSynchronized, HandleSynSent, Close, Abort, OnRTO, OnPersist, OnKeepalive,
        Read, Write;
    KeptSilent(x, l);
    match a
    case Deliver(seg) =>
      if x.state == SynSent { SynSentKept(x, l, seg, e); }
      else if x.state == Closed { ClosedKept(x, l, seg); }
      else if x.state != Listen { SynchronizedKept(x, l, seg, e); }
    case Buffer(p) => if CanWrite(x) { BufferKept(x, l, p); }
    case Push => FlushKept(x, l, e);
    case Take(n) => TakeKept(x, l, n);
    case Shut => CloseKept(x, l, e);
    case Kill => AbortKept(x, l);
    case Retry => RetryKept(x, l, e);
    case Persist => PersistKept(x, l, e);
    case Expire => var y := Shutdown(x).(timeWaitArmed := false); KeptClosed(x, y, l); KeptSilent(y, l);
    case Probe(idle, exhausted) => ProbeKept(x, l, idle, exhausted, e);
  }

  lemma ClosedKept(x: Conn, l: Link, seg: Seg)
    requires Dirs(x, l) && Settled(x, l)
    ensures Kept(HandleClosed(x, seg), l)
  {
    hide Dirs, Settled, Kept;
    KeptSilent(x, l);
    KeptRst(x, l, RstSeg(seg.ack));
    KeptRst(x, l, Seg(0, seg.pos + seg.Len(), RST_ACK, 0, NO_OPTS, []));
  }

  // ------------------------------------------------ configuration never changes

  /** Buffer size and shift are fixed, and so is the first FIN once there is one. */
  ghost predicate SameCaps(x: Conn, y: Conn) {
    && y.cfg.recvCap == x.cfg.recvCap && y.cfg.rcvShift == x.cfg.rcvShift
    && (x.hist.finOut.Some? ==> y.hist.finOut == x.hist.finOut)
  }

  lemma HandleDataCaps(x: Conn, seg: Seg, e: Env)
    ensures SameCaps(x, HandleData(x, seg, e).c)
  {
    hide ProcessACK, Absorb, AckSeg, Stale, TakeWindow;
    var x0 := UpdateStamp(x, seg);
    ProcessACKFrame(x0, seg.ack, seg.opts.sack, e);
    var x1 := ProcessACK(x0, seg.ack, seg.opts.sack, e).c;
    TakeWindowFrame(x1, seg);
    AbsorbFrame(TakeWindow(x1, seg), seg);
  }

  lemma SynchronizedCaps(x: Conn, seg: Seg, e: Env)
    ensures SameCaps(x, HandleSynchronized(x, seg, e).c)
  {
    hide ProcessACK, HandleData, AckSeg, HandleRst, Acceptable, SynRcvdOK, TakeWindow, Acknowledge;
    HandleRstCoherent(x, seg, e);
    HandleDataCaps(x, seg, e);
    ProcessACKFrame(x, seg.ack, seg.opts.sack, e);
    TakeWindowFrame(ProcessACK(x, seg.ack, seg.opts.sack, e).c, seg);
    var x1 := x.(snd := Acknowledge(x.snd, seg.ack), retries := 0, state := Established);
    TakeWindowFrame(x1, seg);
    HandleDataCaps(TakeWindow(x1, seg), seg, e);
  }

  lemma SynSentCaps(x: Conn, seg: Seg, e: Env)
    ensures SameCaps(x, HandleSynSent(x, seg, e).c)
  {
    hide AckSeg, SynAckSeg, Flush, TakeWindow, Acknowledge, Insert;
    var x0 := Negotiate(x, seg.opts);
    TakeWindowFrame(x0, seg);
    var x1 := Synchronize(TakeWindow(x0, seg), seg);
    FlushFrame(AckTiming(x1.(snd := Acknowledge(x1.snd, seg.ack), retries := 0, state := Established), seg.ack), e);
  }

  lemma EventCaps(x: Conn, a: Act, e: Env)
    requires !IsOpen(a)
    ensures SameCaps(x, Apply(x, a, e).c)
  {
    hide Flush, Retransmit, HandleSynchronized, HandleSynSent, Read, Write, Build, SynSeg, SynAckSeg, RcvWindow,
        PeekUnsent;
    FlushFrame(x, e);
    RetransmitFrame(x.(retries := x.retries + 1, timing := None), e);
    if a.Deliver? {
      SynchronizedCaps(x, a.seg, e);
      SynSentCaps(x, a.seg, e);
    }
  }
}
