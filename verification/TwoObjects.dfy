/**
 Two connection objects and the packets between them. Every call on either object is an
 event of the network model, so what that model promises holds of the bytes the objects
 take and hand out, as long as packets are timely: with less than half the sequence space
 in flight, an acknowledging one is unless something it names is half the space old.
 */
module TwoObjects {
  import opened SeqSpace
  import opened TcpOptions
  import opened TcpSegment
  import opened WireForm
  import opened RecvBuffer
  import opened SendBuffer
  import opened TcpConnection
  import R = RecvModel
  import M = SendModel
  import C = ConnModel
  import S = ConnStates
  import D = Direction
  import E = Endpoint
  import N = Network
  import T = StreamTheorems

  /** What may happen to an object: a packet, a call of the application, or a timer. */
  datatype Call =
    | Arrive(packet: seq<byte>)
    | Write(bytes: seq<byte>)
    | Flush
    | Read(count: nat)
    | Close
    | Abort
    | RetransmitTimer
    | PersistTimer
    | TimeWaitTimer
    | KeepaliveTimer(idle: bool, exhausted: bool)

  /** The event it is; g is the segment a packet carries. */
  ghost function ActOf(call: Call, g: C.Seg): C.Act {
    match call
    case Arrive(_) => C.Deliver(g)
    case Write(bytes) => C.Buffer(bytes)
    case Flush => C.Push
    case Read(n) => C.Take(n)
    case Close => C.Shut
    case Abort => C.Kill
    case RetransmitTimer => C.Retry
    case PersistTimer => C.Persist
    case TimeWaitTimer => C.Expire
    case KeepaliveTimer(idle, exhausted) => C.Probe(idle, exhausted)
  }

  /** A segment as the object reads it: without the ACK flag its number is not looked at. */
  ghost function AsRead(c: C.Conn, g: C.Seg): C.Seg {
    if g.flags.ack then g else g.(ack := Lift(c.snd.una, Wrap(g.ack)))
  }

  /** The numbers of a packet lie within half the space of the object's own, and SND.NXT may take a step. */
  ghost predicate Timely(c: C.Conn, call: Call, g: C.Seg) {
    match call
    case Arrive(_) => c.state == C.Closed || c.state == C.Listen || InSpan(c, AsRead(c, g))
    case Close => M.Unacked(c.snd) + 1 < TWO31
    case RetransmitTimer => M.Unacked(c.snd) + 1 < TWO31
    case PersistTimer => M.Unacked(c.snd) + 1 < TWO31
    case _ => true
  }

  /** The bytes a call moves between the application and the object. */
  ghost function Moved(c: C.Conn, call: Call): seq<byte> {
    match call
    case Write(bytes) => if C.CanWrite(c) then bytes[..M.WriteCount(c.snd, bytes)] else []
    case Read(n) => c.rcv.buf[..Min(n, |c.rcv.buf|)]
    case _ => []
  }

  lemma AckIgnored(c: C.Conn, g: C.Seg, p: int, e: C.Env)
    requires !g.flags.ack
    ensures C.HandleSegment(c, g, e) == C.HandleSegment(c, g.(ack := p), e)
  {
    hide C.Negotiate, C.TakeWindow, C.AckSeg, C.SynAckSeg, C.HandleData, C.HandleSynReceived, R.Insert, R.Window;
    assert C.Acceptable(c, g) == C.Acceptable(c, g.(ack := p));
    WindowOnly(C.Negotiate(c, g.opts), g, p);
  }

  lemma WindowOnly(c: C.Conn, g: C.Seg, p: int)
    ensures C.TakeWindow(c, g) == C.TakeWindow(c, g.(ack := p))
  {
  }

  lemma AsReadSame(c: C.Conn, w: Segment, g: C.Seg, e: C.Env)
    requires Same(w, g)
    ensures Same(w, AsRead(c, g)) && C.HandleSegment(c, g, e) == C.HandleSegment(c, AsRead(c, g), e)
  {
    hide C.HandleSegment, SameFlags, SameOpts, Wrap;
    if !g.flags.ack { AckIgnored(c, g, Lift(c.snd.una, Wrap(g.ack)), e); }
  }

  /** A packet is parsed and handled. */
  method Receive(x: TcpConn, packet: seq<byte>, e: C.Env, ghost g: C.Seg)
    requires x.Valid() && (x.m.state == C.Closed || x.m.state == C.Listen || InSpan(x.m, AsRead(x.m, g)))
    requires Fits(g) && packet == Marshalled(WireSeg(x.remotePort, x.localPort, g))
    modifies x, x.sendBuf, x.recvBuf
    ensures x.Valid() && x.sendBuf == old(x.sendBuf) && (x.recvBuf == old(x.recvBuf) || fresh(x.recvBuf))
    ensures x.m == C.HandleSegment(old(x.m), g, e).c
    ensures x.outgoing == old(x.outgoing) + Wires(x.localPort, x.remotePort, C.HandleSegment(old(x.m), g, e).segs)
  {
    hide Sane, C.HandleSegment, Wires, InSpan, AsRead, Fits, Parsed, Marshalled, WireSeg, Same;
    FittingSame(x.remotePort, x.localPort, g);
    var r := ParseSegment(packet);
    AsReadSame(x.m, r.value, g, e);
    x.HandleSegment(r.value, e, AsRead(x.m, g));
  }

  method Elapse(x: TcpConn, call: Call, e: C.Env, ghost g: C.Seg)
    requires x.Valid() && Timely(x.m, call, g)
    requires call.RetransmitTimer? || call.PersistTimer? || call.TimeWaitTimer? || call.KeepaliveTimer?
    modifies x, x.sendBuf, x.recvBuf
    ensures x.Valid() && x.sendBuf == old(x.sendBuf) && x.recvBuf == old(x.recvBuf)
    ensures x.m == C.Apply(old(x.m), ActOf(call, g), e).c
    ensures x.outgoing == old(x.outgoing) + Wires(x.localPort, x.remotePort, C.Apply(old(x.m), ActOf(call, g), e).segs)
  {
    hide Sane, SendBuf.Valid, RecvBuf.Rep, C.OnRTO, C.OnPersist, C.OnKeepalive, C.HandleSegment, C.Flush, Wires;
    WiresNone(x.localPort, x.remotePort);
    match call
    case RetransmitTimer => x.OnRTOTimeout(e);
    case PersistTimer => x.OnPersistTimeout(e);
    case TimeWaitTimer => if x.timeWaitArmed { x.OnTimeWaitExpired(); }
    case KeepaliveTimer(idle, exhausted) => x.OnKeepalive(idle, exhausted, e);
  }

  /** One call on an object is one event of its model. */
  method Perform(x: TcpConn, call: Call, e: C.Env, ghost g: C.Seg) returns (moved: seq<byte>)
    requires x.Valid() && Timely(x.m, call, g)
    requires call.Arrive? ==> Fits(g) && call.packet == Marshalled(WireSeg(x.remotePort, x.localPort, g))
    modifies x, x.sendBuf, x.recvBuf
    ensures x.Valid() && x.sendBuf == old(x.sendBuf) && (x.recvBuf == old(x.recvBuf) || fresh(x.recvBuf))
    ensures x.m == C.Apply(old(x.m), ActOf(call, g), e).c && moved == Moved(old(x.m), call)
    ensures x.outgoing == old(x.outgoing) + Wires(x.localPort, x.remotePort, C.Apply(old(x.m), ActOf(call, g), e).segs)
  {
    hide Sane, SendBuf.Valid, RecvBuf.Rep, C.HandleSegment, C.Flush, C.Close, C.Abort, Wires, InSpan, AsRead, Fits,
        Marshalled, WireSeg;
    moved := [];
    WiresNone(x.localPort, x.remotePort);
    match call
    case Arrive(packet) => Receive(x, packet, e, g);
    case Write(bytes) =>
      var n := x.WriteSome(bytes);
      moved := bytes[..n];
    case Flush => if !x.closed && (x.state == C.Established || x.state == C.CloseWait) { x.FlushSendQueue(e); }
    case Read(n) => moved := x.ReadSome(n);
    case Close => x.Close(e);
    case Abort => x.Abort();
    case _ => Elapse(x, call, e, g);
  }

  /** Less than half the sequence space is in flight each way, and a payload fits its length field. */
  ghost predicate Bounded(x: C.Conn, p: C.Conn, g: C.Seg) {
    && M.Unacked(x.snd) < TWO31 - 1 && M.Unacked(p.snd) < TWO31 && p.cfg.recvCap < TWO32 && |g.payload| < 65536
  }

  /** Nothing a segment names, and no FIN deferred earlier, is half the sequence space old. */
  ghost predicate Young(x: C.Conn, g: C.Seg) {
    && x.rcv.nxt - TWO31 < g.pos && x.snd.una - TWO31 <= g.ack
    && (forall b :: b in g.opts.sack ==> MarkAt(x, g.ack) - TWO31 <= b.right)
    && (x.deferred.Some? ==> x.rcv.nxt - TWO31 <= x.deferred.value)
  }

  /**
   Of what two endpoints send each other, any acknowledging segment that is young is timely: only age can make
   it late.
   */
  lemma OnlyAgeMatters(x: C.Conn, l: E.Link, packet: seq<byte>, g: C.Seg)
    requires E.Dirs(x, l) && E.Settled(x, l) && g in l.ps && E.Answers(g) && Bounded(x, l.peer, g) && Young(x, g)
    ensures Timely(x, Arrive(packet), g)
  {
    hide D.DirInv, S.Coherent;
    AckWithin(l.out, D.SH(x), D.RH(l.peer), l.xs, l.ps, g);
    if x.hist.synced { PosWithin(l.inn, D.SH(l.peer), D.RH(x), l.ps, l.xs, g); }
    if x.state == C.SynReceived { S.DataStatesFinless(x); }
  }

  /** The acknowledgement and every block end within what was sent. */
  lemma AckWithin(d: D.Dir, s: D.SHalf, r: D.RHalf, sr: set<C.Seg>, rs: set<C.Seg>, g: C.Seg)
    requires D.DirInv(d, s, r, sr, rs) && g in rs && E.Answers(g)
    ensures g.ack <= s.snd.nxt
    ensures forall b :: b in g.opts.sack ==> b.right <= s.snd.nxt && 0 < b.right - b.left <= r.recvCap
  {
    hide D.SndOk, D.RcvOpen, D.RcvEnded, D.DataOk, D.BlockHeld, D.Apart, C.ShiftLeft;
    assert D.AckOk(d, r, g);
  }

  /** The position, and a deferred FIN, lie within what was sent; a SYN right before the stream. */
  lemma PosWithin(d: D.Dir, s: D.SHalf, r: D.RHalf, sr: set<C.Seg>, rs: set<C.Seg>, g: C.Seg)
    requires D.DirInv(d, s, r, sr, rs) && g in sr && E.Answers(g) && r.synced
    ensures g.pos <= s.snd.nxt && s.snd.una <= r.rcv.nxt
    ensures r.deferred.Some? ==> r.deferred.value < s.snd.nxt
    ensures r.finsIn == 0 && g.flags.syn ==> g.payload == [] && g.pos < r.rcv.nxt
  {
    hide D.AcksOk, D.AckOk, R.ValidRecv, D.HoldsWritten;
    assert D.PosOk(s.snd.nxt, g);
    assert r.finsIn == 0 ==> D.DataOk(d, s.snd.nxt, g);
  }

  // --------------------------------------------------------------------- the pair

  function If(b: bool, s: seq<byte>): seq<byte> { if b then s else [] }

  /** What an event does to the histories of the network model. */
  lemma EventMoves(x: C.Conn, l: E.Link, call: Call, g: C.Seg, segs: seq<C.Seg>)
    ensures var k := E.Emit(E.Noted(x, l, ActOf(call, g)), segs);
            && k.xs == l.xs + E.SegSet(segs) && k.ps == l.ps
            && k.out.written == l.out.written + If(call.Write?, Moved(x, call)) && k.out.read == l.out.read
            && k.inn.read == l.inn.read + If(call.Read?, Moved(x, call)) && k.inn.written == l.inn.written
  {
    hide M.WriteCount;
    assert l.out.written + [] == l.out.written && l.inn.read + [] == l.inn.read;
  }

  ghost predicate AllFitting(log: seq<C.Seg>) { forall i :: 0 <= i < |log| ==> Fits(log[i]) }

  lemma QueuedFit(c: C.Conn, a: C.Act, e: C.Env, log: seq<C.Seg>)
    requires c.cfg.rcvShift <= 14 && AllFitting(log)
    ensures AllFitting(log + C.Apply(c, a, e).segs)
  {
    hide C.Apply, Fits;
    var segs := C.Apply(c, a, e).segs;
    forall i | 0 <= i < |segs| ensures Fits(segs[i]) { QueuedSurvives(c, a, e, 0, 0, segs[i]); }
  }

  lemma ConnectFit(cfg: C.Config, p: int, e: C.Env)
    requires cfg.rcvShift <= 14
    ensures AllFitting(C.Connect(C.NewConn(cfg), p, e).segs)
  {
    hide C.Connect, Fits;
    QueuedFit(C.NewConn(cfg), C.Opening(p), e, []);
    assert [] + C.Connect(C.NewConn(cfg), p, e).segs == C.Connect(C.NewConn(cfg), p, e).segs;
  }

  /** A connection that was never opened does not time anything. */
  lemma IdleTiming(b: C.Conn, a: C.Act, e: C.Env)
    requires b.state == C.Closed && !S.IsOpen(a)
    ensures C.Apply(b, a, e).c.timing == b.timing
  {
    hide C.HandleSynchronized, C.HandleSynSent, C.Flush, R.Read, M.Write;
  }

  lemma ShiftsFit(w: N.World)
    requires N.Inv(w)
    ensures w.a.cfg.rcvShift <= 14 && w.b.cfg.rcvShift <= 14
  {
    hide N.Joined, N.Unopened;
  }

  /** Before b accepts nothing moves. */
  lemma NothingYet(w: N.World, call: Call)
    requires N.Inv(w) && !w.accepted
    ensures Moved(w.a, call) == [] && Moved(w.b, call) == [] && w.b.state == C.Closed
  {
  }

  lemma StartMoves(cfgA: C.Config, cfgB: C.Config, p: int, e: C.Env)
    requires N.Usable(cfgA) && N.Usable(cfgB)
    ensures var w := N.Start(cfgA, cfgB, p, e);
            var o := C.Connect(C.NewConn(cfgA), p, e);
            && N.Inv(w) && !w.accepted && w.a == o.c && w.b == C.NewConn(cfgB) && w.b.timing == None
            && C.NewConn(cfgA).timing == None
            && w.ab == E.SegSet(o.segs) && w.ba == E.SegSet([]) && AllFitting(o.segs)
            && w.da.written == w.da.read == w.db.written == w.db.read == []
  {
    hide N.Inv, C.Connect, Fits;
    N.StartInv(cfgA, cfgB, p, e);
    ConnectFit(cfgA, p, e);
  }

  lemma AcceptMoves(w: N.World, g: C.Seg, p: int, e: C.Env, log: seq<C.Seg>)
    requires N.Inv(w) && !w.accepted && g in w.ab && g.flags.syn && E.SegSet(log) == w.ba && AllFitting(log)
    ensures g.payload == []
    ensures var v := N.Next(w, N.Accept(g, p, e));
            var o := C.AcceptSYN(w.b, g, p, e);
            && N.Inv(v) && v.accepted && v.a == w.a && v.b == o.c && v.ab == w.ab
            && E.SegSet(log + o.segs) == v.ba && AllFitting(log + o.segs)
            && v.da.written == w.da.written && v.da.read == w.da.read && v.db.written == v.db.read == []
  {
    hide C.AcceptSYN, C.Apply, N.Joined, Fits;
    N.NextInv(w, N.Accept(g, p, e));
    var segs := C.AcceptSYN(w.b, g, p, e).segs;
    AcceptFit(w.b, g, p, e, log);
    assert E.SegSet(log) + E.SegSet(segs) == E.SegSet(log + segs);
  }

  lemma AcceptFit(b: C.Conn, g: C.Seg, p: int, e: C.Env, log: seq<C.Seg>)
    requires b.cfg.rcvShift <= 14 && AllFitting(log)
    ensures AllFitting(log + C.AcceptSYN(b, g, p, e).segs)
  {
    hide C.AcceptSYN, Fits;
    QueuedFit(b, C.Accepting(g, p), e, log);
  }

  /** What one call does to the network model, with log holding all the side ever queued. */
  lemma WorldMoves(w: N.World, side: bool, call: Call, g: C.Seg, e: C.Env, log: seq<C.Seg>)
    requires N.Inv(w) && (call.Arrive? ==> g in T.Mine(w, side).ps) && E.SegSet(log) == T.Mine(w, side).xs
             && AllFitting(log)
    ensures var v := N.Next(w, T.Happens(side, ActOf(call, g), e));
            var x, l, k := T.Me(w, side), T.Mine(w, side), T.Mine(v, side);
            var o := C.Apply(x, ActOf(call, g), e);
            && N.Inv(v) && v.accepted == w.accepted && T.Me(v, side) == o.c && k.peer == l.peer
            && E.SegSet(log + o.segs) == k.xs && AllFitting(log + o.segs) && k.ps == l.ps
            && k.out.written == l.out.written + If(call.Write?, Moved(x, call)) && k.out.read == l.out.read
            && k.inn.read == l.inn.read + If(call.Read?, Moved(x, call)) && k.inn.written == l.inn.written
            && (!w.accepted ==> Moved(x, call) == [] && v.b.timing == w.b.timing)
  {
    hide N.Inv, C.Apply, E.Emit, E.Noted, Moved, Fits;
    var act := ActOf(call, g);
    var o := C.Apply(T.Me(w, side), act, e);
    N.NextInv(w, T.Happens(side, act, e));
    T.StepIs(w, side, act, e);
    EventMoves(T.Me(w, side), T.Mine(w, side), call, g, o.segs);
    ShiftsFit(w);
    QueuedFit(T.Me(w, side), act, e, log);
    assert E.SegSet(log) + E.SegSet(o.segs) == E.SegSet(log + o.segs);
    if !w.accepted {
      NothingYet(w, call);
      IdleTiming(w.b, act, e);
    }
  }

  /** Two objects, the packets each ever queued, and what the applications put in and got out. */
  class Pair {
    const a: TcpConn
    const b: TcpConn
    var putA: seq<byte>
    var gotA: seq<byte>
    var putB: seq<byte>
    var gotB: seq<byte>
    ghost var logA: seq<C.Seg>
    ghost var logB: seq<C.Seg>
    ghost var w: N.World

    ghost predicate Apart()
      reads this, a, b
    {
      && a != b && a.sendBuf != b.sendBuf && a.recvBuf != b.recvBuf
      && a.localPort == b.remotePort && a.remotePort == b.localPort
    }

    ghost predicate Objects()
      reads this, a, b, a.sendBuf, a.recvBuf, b.sendBuf, b.recvBuf
    {
      a.Valid() && b.Valid() && a.m == w.a && b.m == w.b
    }

    ghost predicate Packets()
      reads this, a, b
    {
      && a.outgoing == Wires(a.localPort, a.remotePort, logA) && E.SegSet(logA) == w.ab && AllFitting(logA)
      && b.outgoing == Wires(b.localPort, b.remotePort, logB) && E.SegSet(logB) == w.ba && AllFitting(logB)
    }

    ghost predicate Streams()
      reads this
    {
      && putA == w.da.written && gotB == w.da.read && putB == w.db.written && gotA == w.db.read
      && (!w.accepted ==> putB == [] && gotA == [] && w.b.timing == None)
    }

    ghost predicate Valid()
      reads this, a, b, a.sendBuf, a.recvBuf, b.sendBuf, b.recvBuf
    {
      Apart() && Objects() && Packets() && Streams() && N.Inv(w)
    }

    /** Two fresh objects, of which the first connects. */
    constructor (portA: u16, portB: u16, cfgA: C.Config, cfgB: C.Config, iss: u32, e: C.Env, ghost p: int)
      requires 0 < cfgA.recvCap < TWO30 && cfgA.rcvShift <= 14 && 0 < cfgB.recvCap < TWO30 && cfgB.rcvShift <= 14
      requires iss == Wrap(p)
      ensures Valid() && fresh(a) && fresh(b) && fresh(a.sendBuf) && fresh(a.recvBuf) && fresh(b.sendBuf)
      ensures fresh(b.recvBuf)
      ensures w == N.Start(cfgA, cfgB, p, e) && putA == gotA == putB == gotB == []
    {
      hide N.Inv, N.Start, Wires, Fits, C.Connect, C.NewConn, Sane, Wrap, TcpConn.Valid;
      StartMoves(cfgA, cfgB, p, e);
      var x := new TcpConn(portA, portB, cfgA);
      var y := new TcpConn(portB, portA, cfgB);
      x.Connect(iss, e, p);
      a, b := x, y;
      putA, gotA, putB, gotB := [], [], [], [];
      ghost var segs := C.Connect(C.NewConn(cfgA), p, e).segs;
      logA, logB, w := segs, [], N.Start(cfgA, cfgB, p, e);
      new;
      WiresNone(portB, portA);
      assert [] + Wires(portA, portB, segs) == Wires(portA, portB, segs);
    }

    /** Anything may happen at a. */
    method AtA(call: Call, e: C.Env, ghost g: C.Seg) returns (moved: seq<byte>)
      requires Valid() && Timely(w.a, call, g)
      requires call.Arrive? ==> g in logB && call.packet == Marshalled(WireSeg(b.localPort, b.remotePort, g))
      modifies this, a, a.sendBuf, a.recvBuf
      ensures Valid() && w == N.Next(old(w), N.AtA(ActOf(call, g), e))
      ensures putA == old(putA) + If(call.Write?, moved) && gotA == old(gotA) + If(call.Read?, moved)
      ensures putB == old(putB) && gotB == old(gotB)
    {
      hide N.Inv, N.Next, Wires, Timely, Fits, Marshalled, WireSeg, C.Apply, Moved, TcpConn.Valid;
      WorldMoves(w, true, call, g, e, logA);
      ghost var segs := C.Apply(w.a, ActOf(call, g), e).segs;
      WiresSum(a.localPort, a.remotePort, logA, segs);
      moved := Perform(a, call, e, g);
      if call.Write? { putA := putA + moved; }
      if call.Read? { gotA := gotA + moved; }
      logA, w := logA + segs, N.Next(w, N.AtA(ActOf(call, g), e));
    }

    /** Anything may happen at b, except that it opens. */
    method AtB(call: Call, e: C.Env, ghost g: C.Seg) returns (moved: seq<byte>)
      requires Valid() && Timely(w.b, call, g)
      requires call.Arrive? ==> g in logA && call.packet == Marshalled(WireSeg(a.localPort, a.remotePort, g))
      modifies this, b, b.sendBuf, b.recvBuf
      ensures Valid() && w == N.Next(old(w), N.AtB(ActOf(call, g), e))
      ensures putB == old(putB) + If(call.Write?, moved) && gotB == old(gotB) + If(call.Read?, moved)
      ensures putA == old(putA) && gotA == old(gotA)
    {
      hide N.Inv, N.Next, Wires, Timely, Fits, Marshalled, WireSeg, C.Apply, Moved, TcpConn.Valid;
      WorldMoves(w, false, call, g, e, logB);
      ghost var segs := C.Apply(w.b, ActOf(call, g), e).segs;
      WiresSum(b.localPort, b.remotePort, logB, segs);
      moved := Perform(b, call, e, g);
      if call.Write? { putB := putB + moved; }
      if call.Read? { gotB := gotB + moved; }
      logB, w := logB + segs, N.Next(w, N.AtB(ActOf(call, g), e));
    }

    /** b takes a SYN of a; before that it only answers with resets. */
    method Accept(packet: seq<byte>, iss: u32, e: C.Env, ghost g: C.Seg, ghost p: int)
      requires Valid() && !w.accepted && g in logA && g.flags.syn && iss == Wrap(p)
      requires packet == Marshalled(WireSeg(a.localPort, a.remotePort, g))
      modifies this, b
      ensures Valid() && w == N.Next(old(w), N.Accept(g, p, e))
      ensures putA == old(putA) && gotA == old(gotA) && putB == old(putB) && gotB == old(gotB)
    {
      hide N.Inv, N.Next, Wires, Fits, Parsed, Marshalled, WireSeg, Same, C.AcceptSYN, TcpConn.Valid, Wrap;
      AcceptMoves(w, g, p, e, logB);
      FittingSame(a.localPort, a.remotePort, g);
      ghost var segs := C.AcceptSYN(w.b, g, p, e).segs;
      WiresSum(b.localPort, b.remotePort, logB, segs);
      var r := ParseSegment(packet);
      SamePayload(r.value, g);
      b.AcceptSYN(r.value, iss, e, g, p);
      logB, w := logB + segs, N.Next(w, N.Accept(g, p, e));
    }

    /**
     Whatever was called: what each application got is a prefix of what the other put in, the buffered bytes
     included.
     */
    lemma EndToEnd()
      requires Valid()
      ensures gotB <= putA && gotA <= putB
      ensures w.accepted ==> gotB + b.m.rcv.buf <= putA && (a.m.hist.synced ==> gotA + a.m.rcv.buf <= putB)
    {
      hide Wires, Fits, TcpConn.Valid;
      WorldDelivers(w);
    }
  }

  lemma SamePayload(w: Segment, g: C.Seg)
    requires Same(w, g)
    ensures w.payload == g.payload
  {
  }

  lemma WorldDelivers(w: N.World)
    requires N.Inv(w)
    ensures w.accepted ==>
              && w.da.read + w.b.rcv.buf <= w.da.written && w.da.read <= w.da.written
              && (w.a.hist.synced ==> w.db.read + w.a.rcv.buf <= w.db.written) && w.db.read <= w.db.written
    ensures !w.accepted ==> w.da.read == []
  {
    hide D.DirInv, E.Settled;
    if w.accepted {
      T.BSynced(w);
      T.DirDelivers(w.da, D.SH(w.a), D.RH(w.b), w.ab, w.ba);
      if w.a.hist.synced {
        T.DirDelivers(w.db, D.SH(w.b), D.RH(w.a), w.ba, w.ab);
      } else {
        NotYetRead(w.db, D.SH(w.b), D.RH(w.a), w.ba, w.ab);
      }
    }
  }

  lemma NotYetRead(d: D.Dir, s: D.SHalf, r: D.RHalf, sr: set<C.Seg>, rs: set<C.Seg>)
    requires D.DirInv(d, s, r, sr, rs) && !r.synced
    ensures d.read == []
  {
    hide D.SndOk, D.AcksOk, D.DataOk, D.AckOk;
  }
}
