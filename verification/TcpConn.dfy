/**
 The connection as it runs: 32-bit sequence numbers, buffers and fields updated in place,
 segments queued in wire form. The ghost field m is the same connection on unwrapped
 positions; every handler is proved to take m, and the queue, to what the function of
 ConnModel gives, for every segment whose numbers lie within half the sequence space.
 */
module TcpConnection {
  import opened SeqSpace
  import opened TcpOptions
  import opened TcpSegment
  import opened RecvBuffer
  import opened SendBuffer
  import opened WireForm
  import R = RecvModel
  import M = SendModel
  import C = ConnModel
  import S = ConnStates
  import N = Sending
  import D = Direction

  const FIN: byte := 1
  const SYN: byte := 2
  const RST: byte := 4
  const PSH: byte := 8
  const ACK: byte := 16

  const TWO30: int := 0x4000_0000

  /** What every handler keeps true of the model: sizes that fit their words, timing near SND.UNA. */
  ghost predicate Sane(c: C.Conn) {
    && 0 < c.cfg.recvCap == c.rcv.wnd < TWO30 && c.cfg.sndShift <= 14 && c.cfg.rcvShift <= 14 && c.sndWnd < TWO30
    && (c.timing.Some? ==> c.snd.una - 1 <= c.timing.value < c.snd.nxt)
    && (Opening(c.state) ==>
          c.snd.buf == [] && c.snd.nxt == c.snd.una + 1 && (c.timing.Some? ==> c.timing.value == c.snd.una))
    && (Open(c.state) ==> R.ValidRecv(c.rcv))
  }

  /** The states in which the SYN is in flight. */
  predicate Opening(s: C.State) { s == C.SynSent || s == C.SynReceived }

  /** The states in which payload may still be inserted. */
  predicate Open(s: C.State) {
    s == C.SynSent || s == C.SynReceived || s == C.Established || s == C.FinWait1 || s == C.FinWait2
  }

  /** A segment on the wire and the same segment on positions. */
  ghost predicate Same(w: Segment, g: C.Seg) {
    && w.seqno == Wrap(g.pos) && w.ack == Wrap(g.ack) && w.window == g.wnd && w.payload == g.payload
    && SameFlags(w.flags, g.flags) && SameOpts(w.options, g.opts)
  }

  ghost predicate SameFlags(b: byte, f: C.Flags) {
    && (HasFlag(b, FIN) <==> f.fin) && (HasFlag(b, SYN) <==> f.syn) && (HasFlag(b, RST) <==> f.rst)
    && (HasFlag(b, PSH) <==> f.psh) && (HasFlag(b, ACK) <==> f.ack)
  }

  ghost predicate SameOpts(ws: seq<TcpOption>, o: C.Opts) {
    && GetMSS(ws) == (if o.mss.Some? then o.mss.value else 0)
    && o.wscale == (if GetWScale(ws).Some? then Some(GetWScale(ws).value as nat) else None)
    && o.sackPerm == HasSACKPerm(ws)
    && StampOf(o) == GetTimestamp(ws)
    && WireBlocks(o.sack) == GetSACKBlocks(ws)
  }

  /**
   The numbers of a segment are read as positions within half the sequence space of the
   connection's own, which for every segment is possible; beyond that, a deferred FIN is not half
   the space old, and neither is the SYN-ACK that SYN-RECEIVED takes outside the window.
   */
  ghost predicate InSpan(c: C.Conn, g: C.Seg) {
    && AckSpan(c, g.ack, g.opts.sack) && |g.payload| < 65536
    && (c.state != C.SynSent ==>
          Near(g.pos, c.rcv.nxt) && DeferredNear(c) && (C.SynRcvdOK(c, g) ==> PayloadNear(c, g)))
  }

  ghost predicate DeferredNear(c: C.Conn) { c.deferred.Some? ==> Near(c.deferred.value, c.rcv.nxt) }

  ghost predicate PayloadNear(c: C.Conn, g: C.Seg) {
    c.rcv.nxt - TWO31 < g.pos && g.pos + |g.payload| + 2 < c.rcv.nxt + TWO31
  }

  ghost predicate RecvSpan(c: C.Conn, g: C.Seg) { DeferredNear(c) && PayloadNear(c, g) }

  /** SND.UNA when the report of an ACK is looked at. */
  function MarkAt(c: C.Conn, p: int): int { if c.snd.una < p <= c.snd.nxt then p else c.snd.una }

  ghost predicate AckSpan(c: C.Conn, p: int, sack: seq<R.Block>) {
    c.snd.nxt - c.snd.una < TWO31 - 1 && Near(p, c.snd.una) && SackNear(MarkAt(c, p), sack)
  }

  /** Reported blocks end within half the space and are less than a lap long. */
  ghost predicate SackNear(una: int, sack: seq<R.Block>) {
    forall b :: b in sack ==> Near(b.right, una) && 0 <= b.right - b.left < TWO32
  }

  /** The positions a segment's numbers stand for, as this connection reads them. */
  function LiftSeg(c: C.Conn, w: Segment): C.Seg {
    var ack := Lift(c.snd.una, w.ack);
    var pairs := GetSACKBlocks(w.options);
    var blocks := seq(|pairs|, i requires 0 <= i < |pairs| => SACKBlock(pairs[i].0, pairs[i].1));
    var stamp := GetTimestamp(w.options);
    C.Seg(Lift(c.rcv.nxt, w.seqno), ack,
          C.Flags(HasFlag(w.flags, SYN), HasFlag(w.flags, ACK), HasFlag(w.flags, FIN), HasFlag(w.flags, RST),
              HasFlag(w.flags, PSH)),
          w.window,
          C.Opts(if GetMSS(w.options) > 0 then Some(GetMSS(w.options) as nat) else None,
                 if GetWScale(w.options).Some? then Some(GetWScale(w.options).value as nat) else None,
                 HasSACKPerm(w.options),
                 if stamp.Some? then Some(C.Stamp(stamp.value.0, stamp.value.1)) else None,
                 LiftBlocks(MarkAt(c, ack), blocks)),
          w.payload)
  }

  /**
   Every segment whatever its numbers has positions in span, unless it is the stray SYN-ACK that
   SYN-RECEIVED takes outside its window: what a handler is proved for is every segment.
   */
  lemma EverySegment(c: C.Conn, w: Segment)
    requires c.snd.nxt - c.snd.una < TWO31 - 1 && |w.payload| < 65536 && DeferredNear(c)
    requires C.SynRcvdOK(c, LiftSeg(c, w)) ==> PayloadNear(c, LiftSeg(c, w))
    ensures Same(w, LiftSeg(c, w)) && InSpan(c, LiftSeg(c, w))
  {
    hide Lift, Wrap, HasFlag, GetMSS, GetWScale, GetSACKBlocks, GetTimestamp, HasSACKPerm, C.SynRcvdOK, PayloadNear,
        LiftBlock;
    var g := LiftSeg(c, w);
    var pairs := GetSACKBlocks(w.options);
    assert |g.opts.sack| == |pairs|;
    forall i | 0 <= i < |pairs| ensures WireBlocks(g.opts.sack)[i] == pairs[i] {
      assert WireBlock(g.opts.sack[i]) == SACKBlock(pairs[i].0, pairs[i].1);
    }
    assert WireBlocks(g.opts.sack) == pairs;
  }

  /**
   From one object to the other: what a connection queues, marshalled and parsed again, is a
   segment that another connection's handler reads as the same one on positions.
   */
  lemma ArrivesSame(c: C.Conn, a: C.Act, e: C.Env, src: u16, dst: u16, g: C.Seg)
    requires Shiftable(c) && g in C.Apply(c, a, e).segs
    ensures Parsed(Marshalled(WireSeg(src, dst, g))) == Ok(WireSeg(src, dst, g)) && Same(WireSeg(src, dst, g), g)
  {
    hide C.Apply, Parsed, Marshalled, WireSeg, Same, Fits;
    QueuedSurvives(c, a, e, src, dst, g);
    FittingSame(src, dst, g);
  }

  lemma FittingSame(src: u16, dst: u16, g: C.Seg)
    requires Fits(g)
    ensures Parsed(Marshalled(WireSeg(src, dst, g))) == Ok(WireSeg(src, dst, g)) && Same(WireSeg(src, dst, g), g)
  {
    hide Parsed, Marshalled, WireOpts, Wrap, FlagByte, HasFlag, GetMSS, GetWScale, GetSACKBlocks, GetTimestamp,
         HasSACKPerm, WireBlocks, StampOf, Fits;
    SurvivesWire(src, dst, g);
    OptionsBack(g);
    FlagsBack(g.flags);
    FitsWindow(g);
  }

  lemma FitsWindow(g: C.Seg)
    requires Fits(g)
    ensures g.wnd < 65536
  {
  }

  /** The wire form of queued segments. */
  ghost function Wires(src: u16, dst: u16, segs: seq<C.Seg>): seq<Segment> {
    seq(|segs|, i requires 0 <= i < |segs| => WireSeg(src, dst, segs[i]))
  }

  lemma WiresOne(src: u16, dst: u16, g: C.Seg)
    ensures Wires(src, dst, [g]) == [WireSeg(src, dst, g)]
  {
  }

  lemma WiresSum(src: u16, dst: u16, a: seq<C.Seg>, b: seq<C.Seg>)
    ensures Wires(src, dst, a + b) == Wires(src, dst, a) + Wires(src, dst, b)
  {
  }

  lemma WiresNone(src: u16, dst: u16)
    ensures Wires(src, dst, []) == []
  {
  }

  function DataSeg(c: C.Conn, e: C.Env, n: nat): C.Seg
    requires M.Unacked(c.snd) <= |c.snd.buf|
  {
    C.Build(c, e, c.snd.nxt, C.ACK_PSH, M.PeekUnsent(c.snd, n))
  }

  /** One turn of the flush loop. */
  lemma FlushTurn(c: C.Conn, e: C.Env)
    ensures C.Quota(c, e) == 0 ==> C.Flush(c, e) == C.Out(c, [])
    ensures C.Quota(c, e) > 0 ==>
      && M.Unacked(c.snd) + C.Quota(c, e) <= |c.snd.buf| && M.Unacked(c.snd) + C.Quota(c, e) <= c.sndWnd
      && var n := C.Quota(c, e);
         var rest := C.Flush(C.OneSegmentIn(c, n), e);
         C.Flush(c, e) == C.Out(rest.c, [DataSeg(c, e, n)] + rest.segs)
  {
  }

  lemma SaneWindow(c: C.Conn)
    requires Sane(c)
    ensures c.sndWnd < TWO30 && (Opening(c.state) ==> M.Pending(c.snd) < 0)
  {
  }

  lemma SentSane(c: C.Conn, n: nat)
    requires Sane(c) && n > 0 && !Opening(c.state)
    ensures Sane(C.OneSegmentIn(c, n))
  {
  }

  /** Reported blocks are recovered from their wire form. */
  lemma BlocksLift(at: int, sack: seq<R.Block>, ws: seq<SACKBlock>)
    requires SackNear(at, sack)
    requires |ws| == |sack| && forall i :: 0 <= i < |ws| ==> ws[i] == WireBlock(sack[i])
    ensures LiftBlocks(at, ws) == sack
  {
    hide Wrap, Lift;
    forall i | 0 <= i < |ws| ensures LiftBlock(at, ws[i]) == sack[i] {
      assert sack[i] in sack;
      LiftBlockWire(at, sack[i]);
    }
  }

  lemma RetransmitSane(c: C.Conn, e: C.Env)
    requires Sane(c)
    ensures Sane(C.Retransmit(c, e).c)
  {
  }

  lemma QueueFinSane(c: C.Conn, e: C.Env)
    requires Sane(c) && !Opening(c.state)
    ensures Sane(C.QueueFin(c, e).c)
  {
  }

  lemma MarkSane(c: C.Conn, sack: seq<R.Block>)
    requires Sane(c)
    ensures Sane(C.Mark(c, sack))
  {
  }

  lemma AcknowledgeMoves(s: M.Send, ack: int)
    requires s.una < ack <= s.nxt
    ensures M.Acknowledge(s, ack).una == ack && M.Acknowledge(s, ack).nxt == s.nxt
  {
  }

  lemma TimingNear(c: C.Conn, p: int)
    requires Sane(c) && c.snd.una < p <= c.snd.nxt < c.snd.una + TWO31 - 1
    ensures c.timing.Some? ==> Near(p, c.timing.value)
  {
  }

  lemma AckedSane(c: C.Conn, ack: int, sack: seq<R.Block>)
    requires Sane(c) && c.snd.una < ack <= c.snd.nxt && !Opening(c.state)
    ensures Sane(C.Acked(c, ack, sack))
    ensures !Opening(C.Acked(c, ack, sack).state)
  {
    hide M.Acknowledge, M.Keep, R.ValidRecv, R.Below;
    AcknowledgeMoves(c.snd, ack);
  }

  lemma RetransmitKeeps(c: C.Conn, e: C.Env)
    ensures C.Retransmit(c, e).c.snd == c.snd
  {
  }

  /** Equal words are equal positions less than a lap apart. */
  lemma SameWord(p: int, q: int)
    requires -TWO32 < p - q < TWO32
    ensures Wrap(p) == Wrap(q) <==> p == q
  {
  }

  lemma ConsumeFinSane(c: C.Conn)
    requires Sane(c) && !Opening(c.state)
    ensures Sane(C.ConsumeFin(c)) && !Opening(C.ConsumeFin(c).state) && C.ConsumeFin(c).rcv.nxt == c.rcv.nxt + 1
    ensures C.ConsumeFin(c).snd == c.snd
  {
    hide R.ValidRecv;
  }

  lemma InsertSane(c: C.Conn, p: int, data: seq<byte>)
    requires Sane(c) && Open(c.state)
    ensures Sane(c.(rcv := R.Insert(c.rcv, p, data)))
    ensures c.rcv.nxt <= R.Insert(c.rcv, p, data).nxt <= c.rcv.nxt + TWO30
  {
    hide R.Insert, R.ValidRecv;
    R.InsertValid(c.rcv, p, data);
    S.InsertReach(c.rcv, p, data);
  }

  lemma Undeferred(c: C.Conn)
    requires Sane(c)
    ensures Sane(c.(deferred := None))
  {
  }

  lemma DeferredSane(c: C.Conn, p: int)
    requires Sane(c)
    ensures Sane(c.(deferred := Some(p)))
  {
  }

  lemma FinWait2Sane(c: C.Conn)
    requires Sane(c) && c.state == C.FinWait1
    ensures Sane(c.(state := C.FinWait2))
  {
  }

  lemma ProcessDataKeeps(c: C.Conn, g: C.Seg)
    requires Sane(c) && Open(c.state) && !Opening(c.state)
    ensures var d := C.ProcessData(c, g);
      c.rcv.nxt <= d.rcv.nxt <= c.rcv.nxt + TWO30 + 1 && d.snd == c.snd && !Opening(d.state)
  {
    hide R.Insert, C.ConsumeFin, Sane;
    InsertSane(c, g.pos, g.payload);
    var c1 := c.(rcv := R.Insert(c.rcv, g.pos, g.payload));
    Undeferred(c1);
    ConsumeFinSane(c1.(deferred := None));
  }

  lemma {:induction false} ShiftLonger(n: nat, j: nat, k: nat)
    requires j <= k
    ensures C.ShiftLeft(n, j) <= C.ShiftLeft(n, k)
    decreases k
  {
    if j > 0 { ShiftLonger(2 * n, j - 1, k - 1); }
  }

  /** No window field, shifted as far as the handshake allows, overflows a word. */
  lemma ScaledFits(w: u16, shift: nat)
    requires shift <= 14
    ensures C.ShiftLeft(w, shift) < TWO30
  {
    ShiftLonger(w, shift, 14);
    D.ShiftMonotone(w, 65535, 14);
    assert C.ShiftLeft(65535, 14) == 1073725440;
  }

  lemma TakeWindowSane(c: C.Conn, g: C.Seg)
    requires Sane(c) && g.wnd < 65536
    ensures Sane(C.TakeWindow(c, g)) && C.TakeWindow(c, g).sndWnd < TWO30
  {
    ScaledFits(g.wnd, c.cfg.sndShift);
  }

  lemma SameReport(w: Segment, g: C.Seg)
    requires Same(w, g)
    ensures WireBlocks(g.opts.sack) == GetSACKBlocks(w.options)
  {
  }

  /** The 32-bit window test on a position within half the space. */
  lemma WireInRange(p: int, lo: int, n: nat)
    requires Near(p, lo) && n < TWO30
    ensures SeqInRange(Wrap(p), Wrap(lo), Add32(Wrap(lo), n)) <==> C.InRange(p, lo, n)
  {
    hide Wrap, Add32, SeqAfterEq, SeqBefore;
    WrapAdd(lo, n);
    SerialOrder(p, lo);
    if p >= lo { SerialOrder(p, lo + n); }
  }

  /** The same for the last number of a segment, which may lie past the half. */
  lemma WireEndInRange(p: int, lo: int, n: nat)
    requires -TWO31 <= p - lo < TWO31 + 65537 && n < TWO30
    ensures SeqInRange(Wrap(p), Wrap(lo), Add32(Wrap(lo), n)) <==> C.InRange(p, lo, n)
  {
    hide Add32, SeqBefore;
    if p < lo + TWO31 { WireInRange(p, lo, n); } else { DifferenceWraps(p, lo); }
  }

  lemma AcceptableNear(c: C.Conn, g: C.Seg)
    requires Sane(c) && |g.payload| < 65536 && C.Acceptable(c, g)
    ensures PayloadNear(c, g)
  {
    hide R.ValidRecv;
  }

  lemma ShutdownSane(c: C.Conn)
    requires Sane(c)
    ensures Sane(C.Shutdown(c)) && Sane(C.Shutdown(c).(finRecvd := true))
  {
  }

  lemma EstablishedSane(c: C.Conn)
    requires Sane(c) && Opening(c.state)
    ensures Sane(c.(snd := M.Acknowledge(c.snd, c.snd.nxt), retries := 0, state := C.Established))
  {
    hide R.ValidRecv;
    AcknowledgeMoves(c.snd, c.snd.nxt);
  }

  lemma SaneSizes(c: C.Conn)
    requires Sane(c)
    ensures 0 < c.cfg.recvCap < TWO30 && R.Window(c.rcv) < TWO30 && (Opening(c.state) ==> c.snd.nxt == c.snd.una + 1)
  {
  }

  lemma TimeWaitSane(c: C.Conn)
    requires Sane(c) && !Opening(c.state)
    ensures Sane(C.EnterTimeWait(c))
  {
  }

  lemma AckTimingSane(c: C.Conn, p: int)
    requires Sane(c)
    ensures Sane(C.AckTiming(c, p))
  {
  }

  lemma NegotiateSane(c: C.Conn, o: C.Opts)
    requires Sane(c)
    ensures Sane(C.Negotiate(c, o))
  {
    hide R.ValidRecv;
  }

  lemma SynchronizeSane(c: C.Conn, g: C.Seg)
    requires Sane(c)
    ensures Sane(c.(rcv := R.NewRecv(g.pos + 1, c.cfg.recvCap), hist := c.hist.(synced := true)))
    ensures Sane(C.Synchronize(c, g))
  {
    hide R.Insert;
    S.FreshValid(g.pos + 1, c.cfg.recvCap, g.payload);
    S.FreshValid(g.pos + 1, c.cfg.recvCap, []);
    S.InsertNothing(R.NewRecv(g.pos + 1, c.cfg.recvCap), g.pos + 1);
  }

  lemma SynReceivedSane(c: C.Conn)
    requires Sane(c) && c.state == C.SynSent
    ensures Sane(c.(state := C.SynReceived, retries := 0))
  {
  }

  lemma UpdateStampSane(c: C.Conn, g: C.Seg)
    requires Sane(c)
    ensures Sane(C.UpdateStamp(c, g))
  {
  }

  lemma SaneBuffer(c: C.Conn)
    requires Sane(c) && Open(c.state)
    ensures R.ValidRecv(c.rcv) && R.Below(c.rcv.ooo, c.rcv.nxt + TWO31 - 1) && c.rcv.wnd < TWO31
  {
  }

  /** The part of the synchronized handler for the states that take no more data. */
  function Late(c: C.Conn, g: C.Seg, e: C.Env): C.Out {
    match c.state
    case CloseWait =>
      var o := C.ProcessACK(c, g.ack, g.opts.sack, e);
      C.Out(C.TakeWindow(o.c, g), o.segs)
    case Closing =>
      var c1 := if g.ack == c.snd.nxt then C.EnterTimeWait(c) else c;
      C.Out(c1, [C.AckSeg(c1, e)])
    case LastAck => C.Out(if g.ack == c.snd.nxt then C.Shutdown(c) else c, [])
    case _ => C.Out(c, [C.AckSeg(c, e)])
  }

  /** The connection a SYN-ACK establishes, before anything more is sent. */
  function Completed(c: C.Conn, g: C.Seg): C.Conn {
    C.AckTiming(c.(snd := M.Acknowledge(c.snd, g.ack), retries := 0, state := C.Established), g.ack)
  }

  lemma OpenTiming(c: C.Conn)
    requires Sane(c) && Opening(c.state)
    ensures c.timing.Some? ==> Near(c.snd.nxt, c.timing.value)
  {
  }

  /** Taking the peer's SYN leaves the send side alone. */
  lemma SynKeeps(c: C.Conn, g: C.Seg)
    ensures var d := C.Synchronize(C.TakeWindow(C.Negotiate(c, g.opts), g), g);
      d.snd == c.snd && d.state == c.state && C.TakeWindow(C.Negotiate(c, g.opts), g).state == c.state
  {
    hide R.Insert, C.ShiftLeft, C.ShiftRight;
  }

  /** A connection whose SYN has just been queued. */
  function Begun(c: C.Conn, state: C.State, iss: int, nxt: int, synced: bool): C.Conn {
    c.(snd := M.AdvanceSent(M.NewSend(c.cfg.sendCap, iss), 1), rcv := R.NewRecv(nxt, c.cfg.recvCap), state := state,
       hist := C.Opened(c.hist, synced))
  }

  lemma BegunSane(c: C.Conn, state: C.State, iss: int, nxt: int, synced: bool)
    requires Sane(c) && Opening(state) && c.timing.None?
    ensures Sane(Begun(c, state, iss, nxt, synced))
    ensures Sane(Begun(c, state, iss, nxt, synced).(timing := Some(iss)))
  {
  }

  /** A connection taken from a cookie, before its data. */
  function Cookie(c: C.Conn, nxt: int, iss: int, mss: nat): C.Conn {
    c.(cfg := c.cfg.(mss := Min(mss, c.cfg.mss)), snd := M.NewSend(c.cfg.sendCap, iss + 1),
       rcv := R.NewRecv(nxt, c.cfg.recvCap), state := C.Established, hist := C.Opened(c.hist, true))
  }

  lemma CookieSane(c: C.Conn, nxt: int, iss: int, mss: nat)
    requires Sane(c) && c.timing.None?
    ensures Sane(Cookie(c, nxt, iss, mss))
  {
  }

  lemma NegotiateCaps(c: C.Conn, o: C.Opts)
    ensures C.Negotiate(c, o).cfg.sendCap == c.cfg.sendCap && C.Negotiate(c, o).cfg.recvCap == c.cfg.recvCap
  {
  }

  lemma WriteSane(c: C.Conn, b: seq<byte>)
    requires Sane(c) && C.CanWrite(c)
    ensures Sane(c.(snd := M.Write(c.snd, b)))
  {
    hide R.ValidRecv;
  }

  lemma ReadSane(c: C.Conn, n: nat)
    requires Sane(c)
    ensures Sane(c.(rcv := R.Read(c.rcv, n)))
  {
  }

  lemma CloseSane(c: C.Conn)
    requires Sane(c)
    ensures c.state in {C.Established, C.SynReceived} ==> Sane(c.(state := C.FinWait1))
    ensures c.state == C.CloseWait ==> Sane(c.(state := C.LastAck))
  {
  }

  /** After a flush there is room for a FIN. */
  lemma FlushRoom(c: C.Conn, e: C.Env)
    requires Sane(c) && M.Unacked(c.snd) + 1 < TWO31
    ensures M.Unacked(C.Flush(c, e).c.snd) + 1 < TWO31 && C.Flush(c, e).c.state == c.state
  {
    hide C.Flush, C.Quota;
    N.FlushInFlight(c, e);
    S.FlushFrame(c, e);
  }

  lemma RetrySane(c: C.Conn)
    requires Sane(c)
    ensures Sane(c.(retries := c.retries + 1)) && Sane(c.(retries := c.retries + 1, timing := None))
  {
  }

  lemma ProbeSane(c: C.Conn)
    requires Sane(c) && !Opening(c.state)
    ensures Sane(c.(snd := M.AdvanceSent(c.snd, 1)))
  {
  }

  lemma ReadPart(r: R.Recv, n: nat)
    ensures r.buf == [] ==> R.Read(r, n) == r
    ensures r.buf[..Min(n, |r.buf|)] + R.Read(r, n).buf == r.buf
  {
  }

  function PlainAck(c: C.Conn, data: seq<byte>): C.Seg {
    C.Seg(c.snd.nxt, c.rcv.nxt, C.ACK, C.RcvWindow(c), C.NO_OPTS, data)
  }

  lemma PlainAckIs(c: C.Conn, data: seq<byte>)
    ensures PlainAck(c, data) == C.Seg(c.snd.nxt, c.rcv.nxt, C.ACK, C.RcvWindow(c), C.NO_OPTS, data)
  {
  }

  lemma WrapZero()
    ensures Wrap(0) == 0
  {
  }

  /** A SYN-ACK starts at SND.UNA, so it is the same before and after SND.NXT steps over it. */
  lemma SynAckSame(c: C.Conn, iss: int, e: C.Env)
    requires c.snd == M.AdvanceSent(M.NewSend(c.snd.cap, iss), 1)
    ensures C.SynAckSeg(c, e) == C.SynAckSeg(c.(snd := M.NewSend(c.snd.cap, iss)), e)
  {
  }

  class TcpConn {
    const localPort: u16
    const remotePort: u16
    var state: C.State
    var closed: bool
    var finRecvd: bool
    var timeWaitArmed: bool
    var sendBuf: SendBuf
    var recvBuf: RecvBuf
    var sndWnd: u32
    var tsRecent: u32
    var finPending: bool
    var pendingFinSeq: u32
    var retries: nat
    var timing: bool
    var timeSeq: u32
    var cfg: C.Config
    var outgoing: seq<Segment>
    ghost var m: C.Conn

    ghost predicate Fields()
      reads this
    {
      && state == m.state && closed == m.closed && finRecvd == m.finRecvd && timeWaitArmed == m.timeWaitArmed
      && sndWnd == m.sndWnd && tsRecent == m.tsRecent && retries == m.retries && cfg == m.cfg
      && (finPending <==> m.deferred.Some?) && (finPending ==> pendingFinSeq == Wrap(m.deferred.value))
      && (timing <==> m.timing.Some?) && (timing ==> timeSeq == Wrap(m.timing.value))
    }

    ghost predicate Buffers()
      reads this, sendBuf, recvBuf
    {
      sendBuf.Valid() && sendBuf.m == m.snd && recvBuf.Rep() && recvBuf.m == m.rcv
    }

    ghost predicate Valid()
      reads this, sendBuf, recvBuf
    {
      Fields() && Buffers() && Sane(m)
    }

    constructor (localPort: u16, remotePort: u16, cfg: C.Config)
      requires 0 < cfg.recvCap < TWO30 && cfg.rcvShift <= 14
      ensures Valid() && m == C.NewConn(cfg) && outgoing == [] && fresh(sendBuf) && fresh(recvBuf)
      ensures this.localPort == localPort && this.remotePort == remotePort
    {
      this.localPort, this.remotePort := localPort, remotePort;
      state, closed, finRecvd, timeWaitArmed := C.Closed, false, false, false;
      sendBuf := new SendBuf(0, cfg.sendCap, 0);
      recvBuf := new RecvBuf(0, 0, cfg.recvCap);
      sndWnd, tsRecent, finPending, pendingFinSeq := C.DEFAULT_WINDOW, 0, false, 0;
      retries, timing, timeSeq := 0, false, 0;
      this.cfg := cfg.(sndShift := 0, wscaleOK := false, sackOK := false, tsOK := false);
      outgoing := [];
      m := C.NewConn(cfg);
    }

    /** The smallest shift, up to 14, that brings a buffer size within sixteen bits. */
    static method WindowShift(recvCap: nat) returns (shift: nat)
      ensures shift <= 14 && (C.ShiftRight(recvCap, shift) <= 65535 || shift == 14)
      ensures forall s :: 0 <= s < shift ==> C.ShiftRight(recvCap, s) > 65535
    {
      shift := 0;
      while shift < 14 && C.ShiftRight(recvCap, shift) > 65535
        invariant shift <= 14 && forall s :: 0 <= s < shift ==> C.ShiftRight(recvCap, s) > 65535
      {
        shift := shift + 1;
      }
    }

    // ------------------------------------------------------------------- segment builders

    method RcvWindow() returns (w: u16)
      requires Valid()
      ensures w == C.RcvWindow(m)
    {
      hide R.Window, C.ShiftLeft, C.ShiftRight, Sane;
      var avail := recvBuf.Window();
      var thresh := cfg.mss;
      if cfg.recvCap / 2 < thresh { thresh := cfg.recvCap / 2; }
      if avail < thresh { avail := 0; }
      if cfg.wscaleOK { avail := C.ShiftRight(avail, cfg.rcvShift); }
      if avail > 65535 { avail := 65535; }
      w := avail;
    }

    /** The SACK report as pairs of edges. */
    method ReportedBlocks() returns (pairs: seq<(u32, u32)>)
      requires Valid()
      ensures pairs == WireBlocks(R.SACKBlocks(m.rcv))
    {
      hide Sane, Wrap;
      var bs := recvBuf.SACKBlocks();
      pairs := seq(|bs|, i requires 0 <= i < |bs| => (bs[i].left, bs[i].right));
    }

    method AddOptions(e: C.Env) returns (opts: seq<TcpOption>)
      requires Valid()
      ensures opts == WireOpts(C.Options(m, e))
    {
      hide Sane, WireBlocks, R.SACKBlocks;
      D.NoBlocks(m.rcv);
      opts := [];
      if cfg.tsOK { opts := opts + [TimestampOption(e.now, tsRecent)]; }
      if cfg.sackOK && |recvBuf.ooo| > 0 {
        var pairs := ReportedBlocks();
        opts := opts + [SACKOption(pairs)];
      }
    }

    method SynOptions(e: C.Env) returns (opts: seq<TcpOption>)
      requires Valid()
      ensures opts == WireOpts(C.SynOptions(m, e))
    {
      opts := [MSSOption(cfg.mss % 65536), WScaleOption(cfg.rcvShift)];
      if cfg.sackEnabled { opts := opts + [SACKPermOption()]; }
      if cfg.tsEnabled { opts := opts + [TimestampOption(e.now, 0)]; }
    }

    method Segmented(seqno: u32, flags: byte, payload: seq<byte>, e: C.Env, ghost pos: int, ghost f: C.Flags)
      returns (s: Segment)
      requires Valid() && seqno == Wrap(pos) && flags == FlagByte(f)
      ensures s == WireSeg(localPort, remotePort, C.Build(m, e, pos, f, payload))
    {
      hide Sane, C.RcvWindow, C.Options, Wrap, FlagByte, WireOpts;
      var w := RcvWindow();
      var opts := AddOptions(e);
      s := Segment(localPort, remotePort, seqno, recvBuf.nxt, flags, w, 0, 0, opts, payload);
    }

    method QueueSeg(s: Segment, ghost g: C.Seg)
      requires s == WireSeg(localPort, remotePort, g)
      modifies this`outgoing
      ensures outgoing == old(outgoing) + Wires(localPort, remotePort, [g])
    {
      hide WireSeg;
      WiresOne(localPort, remotePort, g);
      outgoing := outgoing + [s];
    }

    /** Builds and queues a segment with the current acknowledgement, window and options. */
    method QueueBuilt(seqno: u32, flags: byte, payload: seq<byte>, e: C.Env, ghost pos: int, ghost f: C.Flags)
      requires Valid() && seqno == Wrap(pos) && flags == FlagByte(f)
      modifies this`outgoing
      ensures Valid() && outgoing == old(outgoing) + Wires(localPort, remotePort, [C.Build(m, e, pos, f, payload)])
    {
      hide Sane, Wrap, Wires, C.Build, WireSeg, FlagByte, SendBuf.Valid, RecvBuf.Rep;
      var s := Segmented(seqno, flags, payload, e, pos, f);
      QueueSeg(s, C.Build(m, e, pos, f, payload));
    }

    /** The buffers' words are the wire form of the model's positions. */
    lemma Words()
      requires Valid()
      ensures sendBuf.nxt == Wrap(m.snd.nxt) && sendBuf.una == Wrap(m.snd.una) && recvBuf.nxt == Wrap(m.rcv.nxt)
      ensures state == m.state && closed == m.closed && timeWaitArmed == m.timeWaitArmed && retries == m.retries
      ensures cfg == m.cfg && sndWnd == m.sndWnd
    {
    }

    method QueueACK(e: C.Env)
      requires Valid()
      modifies this`outgoing
      ensures Valid() && outgoing == old(outgoing) + Wires(localPort, remotePort, [C.AckSeg(m, e)])
    {
      hide Sane, Wrap, Wires, C.Build, SendBuf.Valid, RecvBuf.Rep;
      Words();
      QueueBuilt(sendBuf.nxt, ACK, [], e, m.snd.nxt, C.ACK);
    }

    // --------------------------------------------------------------------------- sending

    /** How much the next segment may carry: 0 when a window or the small-segment rule forbids one. */
    method Allowance(e: C.Env) returns (n: nat)
      requires Valid()
      ensures n == C.Quota(m, e)
    {
      hide Sane;
      if sendBuf.Pending() <= 0 { return 0; }
      var effWnd := sndWnd;
      if e.cwnd < effWnd { effWnd := e.cwnd; }
      var avail := effWnd - sendBuf.Unacked();
      if avail <= 0 { return 0; }
      var k := Min(avail, Min(cfg.mss, sendBuf.Pending()));
      if k < cfg.mss && sendBuf.Unacked() > 0 { return 0; }
      n := k;
    }

    /** Moves SND.NXT over n bytes just queued, and times them unless something is timed already. */
    method Advance(n: nat)
      requires Valid() && 0 < n && M.Unacked(m.snd) + n < TWO31 && !Opening(m.state)
      modifies this`timing, this`timeSeq, this`m, sendBuf
      ensures Valid() && m == C.OneSegmentIn(old(m), n)
    {
      hide Sane, Wrap, SendBuf.Valid, RecvBuf.Rep;
      SentSane(m, n);
      Words();
      var seqno := sendBuf.nxt;
      sendBuf.AdvanceSent(n);
      if !timing { timing, timeSeq := true, seqno; }
      m := C.OneSegmentIn(m, n);
    }

    /** One segment of n unsent bytes. */
    method SendNext(n: nat, e: C.Env)
      requires Valid() && 0 < n && M.Unacked(m.snd) + n <= |m.snd.buf| && M.Unacked(m.snd) + n < TWO31
      requires !Opening(m.state)
      modifies this, sendBuf
      ensures Valid() && sendBuf == old(sendBuf) && recvBuf == old(recvBuf) && m == C.OneSegmentIn(old(m), n)
      ensures outgoing == old(outgoing) + Wires(localPort, remotePort, [DataSeg(old(m), e, n)])
    {
      hide Sane, Wrap, Wires, C.Build, SendBuf.Valid, RecvBuf.Rep, M.PeekUnsent, C.OneSegmentIn;
      Words();
      var data := sendBuf.PeekUnsent(n);
      QueueBuilt(sendBuf.nxt, ACK + PSH, data, e, m.snd.nxt, C.ACK_PSH);
      Advance(n);
    }

    /** Queues unsent data as far as both windows allow; ends because every turn sends something. */
    method FlushSendQueue(e: C.Env)
      requires Valid()
      modifies this, sendBuf
      ensures Valid() && sendBuf == old(sendBuf) && recvBuf == old(recvBuf)
      ensures m == C.Flush(old(m), e).c
      ensures outgoing == old(outgoing) + Wires(localPort, remotePort, C.Flush(old(m), e).segs)
    {
      hide Sane, Wrap, Wires, C.Flush, DataSeg, C.Quota, Fields, Buffers;
      ghost var done: seq<C.Seg> := [];
      WiresNone(localPort, remotePort);
      var n := Allowance(e);
      while n > 0
        invariant Valid() && sendBuf == old(sendBuf) && recvBuf == old(recvBuf) && n == C.Quota(m, e)
        invariant C.Flush(old(m), e) == C.Out(C.Flush(m, e).c, done + C.Flush(m, e).segs)
        invariant outgoing == old(outgoing) + Wires(localPort, remotePort, done)
        decreases M.Pending(m.snd)
      {
        FlushTurn(m, e);
        SaneWindow(m);
        ghost var seg := DataSeg(m, e, n);
        SendNext(n, e);
        WiresSum(localPort, remotePort, done, [seg]);
        done := done + [seg];
        n := Allowance(e);
      }
      FlushTurn(m, e);
      assert done + [] == done;
    }

    method Retransmit(e: C.Env)
      requires Valid()
      modifies this
      ensures Valid() && sendBuf == old(sendBuf) && recvBuf == old(recvBuf)
      ensures m == C.Retransmit(old(m), e).c
      ensures outgoing == old(outgoing) + Wires(localPort, remotePort, C.Retransmit(old(m), e).segs)
    {
      hide Sane, Wrap, Wires, C.Build, SendBuf.Valid, RecvBuf.Rep, M.RetransmitData;
      RetransmitSane(m, e);
      WiresNone(localPort, remotePort);
      Words();
      var data := sendBuf.RetransmitData(cfg.mss);
      if |data| == 0 { return; }
      QueueBuilt(sendBuf.una, ACK + PSH, data, e, m.snd.una, C.ACK_PSH);
      timing := false;
      m := m.(timing := None);
    }

    method QueueFIN(e: C.Env)
      requires Valid() && !Opening(m.state) && M.Unacked(m.snd) + 1 < TWO31
      modifies this, sendBuf
      ensures Valid() && sendBuf == old(sendBuf) && recvBuf == old(recvBuf)
      ensures m == C.QueueFin(old(m), e).c
      ensures outgoing == old(outgoing) + Wires(localPort, remotePort, C.QueueFin(old(m), e).segs)
    {
      hide Sane, Wrap, Wires, C.Build, SendBuf.Valid, RecvBuf.Rep;
      QueueFinSane(m, e);
      Words();
      QueueBuilt(sendBuf.nxt, FIN + ACK, [], e, m.snd.nxt, C.FIN_ACK);
      sendBuf.AdvanceSent(1);
      m := C.QueueFin(m, e).c;
    }

    /** Updates the scoreboard from a segment's SACK option. */
    method MarkReported(opts: seq<TcpOption>, ghost sack: seq<R.Block>)
      requires Fields() && Buffers()
      requires WireBlocks(sack) == GetSACKBlocks(opts) && SackNear(m.snd.una, sack)
      modifies this`m, sendBuf
      ensures Fields() && Buffers() && m == C.Mark(old(m), sack)
    {
      hide Wrap, SendBuf.Valid, RecvBuf.Rep, GetSACKBlocks, M.Keep, SackNear, LiftBlocks;
      if !cfg.sackOK { return; }
      var pairs := GetSACKBlocks(opts);
      if |pairs| == 0 { return; }
      var blocks := seq(|pairs|, i requires 0 <= i < |pairs| => SACKBlock(pairs[i].0, pairs[i].1));
      BlocksLift(m.snd.una, sack, blocks);
      sendBuf.MarkSACKed(blocks);
      m := C.Mark(m, sack);
    }

    /** Takes the RTT sample when the ACK is past what is timed. */
    method AckReceived(ack: u32, ghost p: int)
      requires Fields() && ack == Wrap(p) && (m.timing.Some? ==> Near(p, m.timing.value))
      modifies this`timing, this`m
      ensures Fields() && m == C.AckTiming(old(m), p)
    {
      hide Wrap, SeqAfter;
      if !timing { return; }
      SerialOrder(p, m.timing.value);
      if SeqAfter(ack, timeSeq) {
        timing := false;
        m := C.AckTiming(m, p);
      }
    }

    /** An ACK of something in flight: buffer, retry count, scoreboard, RTT sample. */
    method AckInFlight(ack: u32, opts: seq<TcpOption>, ghost p: int, ghost sack: seq<R.Block>)
      requires Valid() && ack == Wrap(p) && m.snd.una < p <= m.snd.nxt < m.snd.una + TWO31 - 1 && !Opening(m.state)
      requires WireBlocks(sack) == GetSACKBlocks(opts) && SackNear(p, sack)
      modifies this, sendBuf
      ensures Valid() && sendBuf == old(sendBuf) && recvBuf == old(recvBuf) && outgoing == old(outgoing)
      ensures m == C.Acked(old(m), p, sack)
    {
      hide Sane, Wrap, SendBuf.Valid, RecvBuf.Rep, GetSACKBlocks, SackNear, M.Acknowledge, WireBlocks;
      AckedSane(m, p, sack);
      TimingNear(m, p);
      AcknowledgeMoves(m.snd, p);
      LiftWrap(m.snd.una, p);
      var _ := sendBuf.Acknowledge(p, ack);
      retries := 0;
      m := m.(snd := M.Acknowledge(m.snd, p), retries := 0);
      MarkReported(opts, sack);
      AckReceived(ack, p);
    }

    method ProcessACK(ack: u32, opts: seq<TcpOption>, e: C.Env, ghost p: int, ghost sack: seq<R.Block>)
      requires Valid() && ack == Wrap(p) && !Opening(m.state)
      requires AckSpan(m, p, sack) && WireBlocks(sack) == GetSACKBlocks(opts)
      modifies this, sendBuf
      ensures Valid() && sendBuf == old(sendBuf) && recvBuf == old(recvBuf)
      ensures m == C.ProcessACK(old(m), p, sack, e).c
      ensures outgoing == old(outgoing) + Wires(localPort, remotePort, C.ProcessACK(old(m), p, sack, e).segs)
    {
      hide Sane, Wrap, Wires, SendBuf.Valid, RecvBuf.Rep, Fields, GetSACKBlocks, WireBlocks, SackNear, SeqAfter,
           C.Retransmit, C.Flush, C.Acked, C.AckSeg, C.Mark;
      Words();
      WiresNone(localPort, remotePort);
      SerialOrder(p, m.snd.una);
      if !SeqAfter(ack, sendBuf.una) {
        if e.fast {
          RetransmitKeeps(m, e);
          Retransmit(e);
        }
        MarkSane(m, sack);
        MarkReported(opts, sack);
        return;
      }
      SerialOrder(p, m.snd.nxt);
      if SeqAfter(ack, sendBuf.nxt) {
        QueueACK(e);
        return;
      }
      AckInFlight(ack, opts, p, sack);
      FlushSendQueue(e);
    }

    // ------------------------------------------------------------------------- receiving

    /** The transition an in-order FIN causes. */
    method FinTransition()
      requires Fields() && Buffers()
      modifies this`state, this`finRecvd, this`timeWaitArmed, this`m
      ensures Fields() && Buffers() && m == C.FinTransition(old(m))
    {
      hide Wrap, SendBuf.Valid, RecvBuf.Rep;
      var unacked := sendBuf.Unacked();
      m := C.FinTransition(m);
      if state == C.Established {
        state, finRecvd := C.CloseWait, true;
      } else if state == C.FinWait1 {
        if unacked == 0 { state, timeWaitArmed := C.TimeWait, true; } else { state := C.Closing; }
        finRecvd := true;
      } else if state == C.FinWait2 {
        state, timeWaitArmed, finRecvd := C.TimeWait, true, true;
      }
    }

    /** Steps RCV.NXT over an in-order FIN. */
    method ConsumeFin()
      requires Valid() && !Opening(m.state)
      modifies this`state, this`finRecvd, this`timeWaitArmed, this`m, recvBuf
      ensures Valid() && m == C.ConsumeFin(old(m))
    {
      hide Wrap, SendBuf.Valid, RecvBuf.Rep, Sane, C.FinTransition;
      ConsumeFinSane(m);
      recvBuf.ConsumeFin();
      m := m.(rcv := m.rcv.(nxt := m.rcv.nxt + 1), hist := m.hist.(finsIn := m.hist.finsIn + 1));
      FinTransition();
    }

    /** Puts payload into the receive buffer. */
    method InsertPayload(p: u32, payload: seq<byte>, ghost pos: int)
      requires Valid() && Open(m.state) && p == Wrap(pos)
      requires m.rcv.nxt - TWO31 < pos && pos + |payload| < m.rcv.nxt + TWO31
      modifies this`m, recvBuf
      ensures Valid() && m == old(m).(rcv := R.Insert(old(m).rcv, pos, payload))
    {
      hide Wrap, SendBuf.Valid, Sane, R.Insert, R.ValidRecv, R.Below;
      InsertSane(m, pos, payload);
      SaneBuffer(m);
      var _ := recvBuf.Insert(pos, p, payload);
      m := m.(rcv := R.Insert(m.rcv, pos, payload));
    }

    /** Inserts payload; a FIN deferred earlier is consumed when the gap before it closes. */
    method ProcessData(seqno: u32, payload: seq<byte>, ghost g: C.Seg)
      requires Valid() && Open(m.state) && !Opening(m.state)
      requires RecvSpan(m, g) && seqno == Wrap(g.pos) && payload == g.payload
      modifies this`state, this`finRecvd, this`timeWaitArmed, this`finPending, this`m, recvBuf
      ensures Valid() && m == C.ProcessData(old(m), g)
    {
      hide Wrap, SendBuf.Valid, RecvBuf.Rep, Sane, C.ConsumeFin, R.Insert;
      InsertSane(m, g.pos, payload);
      InsertPayload(seqno, payload, g.pos);
      Words();
      if finPending { SameWord(m.deferred.value, m.rcv.nxt); }
      if finPending && pendingFinSeq == recvBuf.nxt {
        Undeferred(m);
        finPending := false;
        m := m.(deferred := None);
        ConsumeFin();
      }
    }

    /** Consumes an in-order FIN, defers one that is early. */
    method ProcessFin(seqno: u32, payload: seq<byte>, ghost g: C.Seg)
      requires Valid() && !Opening(m.state) && seqno == Wrap(g.pos) && payload == g.payload
      requires -TWO32 < g.End() - m.rcv.nxt < TWO32
      modifies this`state, this`finRecvd, this`timeWaitArmed, this`finPending, this`pendingFinSeq, this`m, recvBuf
      ensures Valid() && m == C.ProcessFin(old(m), g)
    {
      hide Wrap, SendBuf.Valid, RecvBuf.Rep, Sane, C.ConsumeFin, Add32;
      Words();
      WrapAdd(g.pos, |payload|);
      SameWord(g.End(), m.rcv.nxt);
      var finSeq := Add32(seqno, |payload|);
      if finSeq == recvBuf.nxt {
        ConsumeFin();
      } else {
        DeferredSane(m, g.End());
        finPending, pendingFinSeq := true, finSeq;
        m := m.(deferred := Some(g.End()));
      }
    }

    /** The FIN flag; without one, the FIN-WAIT-1 to FIN-WAIT-2 step. */
    method Finish(w: Segment, ghost g: C.Seg)
      requires Valid() && !Opening(m.state) && Same(w, g) && g.flags.ack
      requires -TWO32 < g.End() - m.rcv.nxt < TWO32 && -TWO32 < g.ack - m.snd.nxt < TWO32
      modifies this`state, this`finRecvd, this`timeWaitArmed, this`finPending, this`pendingFinSeq, this`m, recvBuf
      ensures Valid() && m == C.Finish(old(m), g)
    {
      hide Wrap, SendBuf.Valid, RecvBuf.Rep, Sane, C.ProcessFin, SameOpts, HasFlag;
      Words();
      SameWord(g.ack, m.snd.nxt);
      if HasFlag(w.flags, FIN) {
        ProcessFin(w.seqno, w.payload, g);
      } else if state == C.FinWait1 && HasFlag(w.flags, ACK) && w.ack == sendBuf.nxt {
        FinWait2Sane(m);
        state := C.FinWait2;
        m := m.(state := C.FinWait2);
      }
    }

    /** Data and FIN of a segment. */
    method Absorb(w: Segment, ghost g: C.Seg)
      requires Valid() && Open(m.state) && !Opening(m.state) && Same(w, g) && g.flags.ack
      requires RecvSpan(m, g) && -TWO32 < g.ack - m.snd.nxt < TWO32
      modifies this`state, this`finRecvd, this`timeWaitArmed, this`finPending, this`pendingFinSeq, this`m, recvBuf
      ensures Valid() && m == C.Absorb(old(m), g)
    {
      hide Wrap, SendBuf.Valid, RecvBuf.Rep, Sane, C.ProcessData, C.Finish, SameOpts, SameFlags, Fields;
      ProcessDataKeeps(m, g);
      if |w.payload| > 0 { ProcessData(w.seqno, w.payload, g); }
      Finish(w, g);
    }

    /** The timestamp check: false for an old duplicate, otherwise the stamp is kept. */
    method UpdateTimestamp(opts: seq<TcpOption>, ghost g: C.Seg) returns (ok: bool)
      requires Valid() && SameOpts(opts, g.opts)
      modifies this`tsRecent, this`m
      ensures Valid() && (ok <==> !C.Stale(old(m), g)) && m == if ok then C.UpdateStamp(old(m), g) else old(m)
    {
      hide Wrap, SendBuf.Valid, RecvBuf.Rep, Sane, Int32, Sub32, GetTimestamp, GetMSS, GetWScale, GetSACKBlocks,
          HasSACKPerm;
      UpdateStampSane(m, g);
      if !cfg.tsOK { return true; }
      var stamp := GetTimestamp(opts);
      if stamp.None? { return true; }
      if tsRecent != 0 && Int32(Sub32(stamp.value.0, tsRecent)) < 0 { return false; }
      tsRecent := stamp.value.0;
      m := C.UpdateStamp(m, g);
      ok := true;
    }

    /** The peer's window, scaled as it asked; no shift it may ask for overflows a word. */
    method TakeWindow(window: u16, ghost g: C.Seg)
      requires Valid() && window == g.wnd
      modifies this`sndWnd, this`m
      ensures Valid() && m == C.TakeWindow(old(m), g)
    {
      hide Wrap, SendBuf.Valid, RecvBuf.Rep, Sane, C.ShiftLeft, C.ShiftRight;
      TakeWindowSane(m, g);
      sndWnd := C.ShiftLeft(window, cfg.sndShift);
      m := C.TakeWindow(m, g);
    }

    lemma InFlight()
      requires Valid()
      ensures m.snd.una <= m.snd.nxt < m.snd.una + TWO31
    {
    }

    /** The ACK field, then the window. */
    method TakeAck(w: Segment, e: C.Env, ghost g: C.Seg)
      requires Valid() && !Opening(m.state) && Same(w, g) && AckSpan(m, g.ack, g.opts.sack)
      modifies this, sendBuf
      ensures Valid() && sendBuf == old(sendBuf) && recvBuf == old(recvBuf)
      ensures m == C.TakeWindow(C.ProcessACK(old(m), g.ack, g.opts.sack, e).c, g)
      ensures outgoing == old(outgoing) + Wires(localPort, remotePort, C.ProcessACK(old(m), g.ack, g.opts.sack, e).segs)
      ensures m.state == old(m).state && m.rcv == old(m).rcv && m.deferred == old(m).deferred
      ensures -TWO32 < g.ack - m.snd.nxt < TWO32
    {
      hide Wrap, SendBuf.Valid, RecvBuf.Rep, Sane, Fields, Buffers, Wires, SameOpts, SameFlags, C.ProcessACK,
          SackNear, C.ShiftLeft, C.ShiftRight,
           GetSACKBlocks, MarkAt;
      SameReport(w, g);
      S.ProcessACKFrame(m, g.ack, g.opts.sack, e);
      ProcessACK(w.ack, w.options, e, g.ack, g.opts.sack);
      TakeWindow(w.window, g);
      InFlight();
    }

    /** The common handler of the states that take data. */
    method HandleDataState(w: Segment, e: C.Env, ghost g: C.Seg)
      requires Valid() && Open(m.state) && !Opening(m.state) && Same(w, g) && g.flags.ack
      requires AckSpan(m, g.ack, g.opts.sack) && RecvSpan(m, g)
      modifies this, sendBuf, recvBuf
      ensures Valid() && sendBuf == old(sendBuf) && recvBuf == old(recvBuf)
      ensures m == C.HandleData(old(m), g, e).c
      ensures outgoing == old(outgoing) + Wires(localPort, remotePort, C.HandleData(old(m), g, e).segs)
    {
      hide Wrap, SendBuf.Valid, RecvBuf.Rep, Sane, Fields, Buffers, Wires, SameOpts, HasFlag, C.Stale,
           C.ProcessACK, C.TakeWindow, C.Absorb, C.AckSeg, SackNear;
      var ok := UpdateTimestamp(w.options, g);
      if !ok {
        QueueACK(e);
        return;
      }
      ghost var segs := C.ProcessACK(m, g.ack, g.opts.sack, e).segs;
      if HasFlag(w.flags, ACK) { TakeAck(w, e, g); }
      Absorb(w, g);
      assert segs + [] == segs;
      if |w.payload| > 0 || HasFlag(w.flags, FIN) {
        WiresSum(localPort, remotePort, segs, [C.AckSeg(m, e)]);
        QueueACK(e);
      }
    }

    /** The acceptance test of section 3.10.7.4 of RFC 9293, against the whole buffer. */
    method SegmentAcceptable(w: Segment, ghost g: C.Seg) returns (ok: bool)
      requires Valid() && Same(w, g) && Near(g.pos, m.rcv.nxt) && |g.payload| < 65536
      ensures ok <==> C.Acceptable(m, g)
    {
      hide Wrap, SendBuf.Valid, RecvBuf.Rep, Sane, Add32, SeqInRange, SameOpts, HasFlag;
      Words();
      SaneSizes(m);
      var segLen := |w.payload|;
      if HasFlag(w.flags, SYN) { segLen := segLen + 1; }
      if HasFlag(w.flags, FIN) { segLen := segLen + 1; }
      WireInRange(g.pos, m.rcv.nxt, cfg.recvCap);
      var rightEdge := Add32(recvBuf.nxt, cfg.recvCap);
      if segLen == 0 { return SeqInRange(w.seqno, recvBuf.nxt, rightEdge); }
      WrapAdd(g.pos, segLen - 1);
      WireEndInRange(g.pos + segLen - 1, m.rcv.nxt, cfg.recvCap);
      var segEnd := Add32(w.seqno, segLen - 1);
      ok := SeqInRange(w.seqno, recvBuf.nxt, rightEdge) || SeqInRange(segEnd, recvBuf.nxt, rightEdge);
    }

    method Shutdown()
      requires Valid()
      modifies this`state, this`closed, this`m
      ensures Valid() && m == C.Shutdown(old(m))
    {
      hide Wrap, SendBuf.Valid, RecvBuf.Rep, Sane;
      ShutdownSane(m);
      state, closed := C.Closed, true;
      m := C.Shutdown(m);
    }

    method SignalFin()
      requires Valid()
      modifies this`finRecvd, this`m
      ensures Valid() && m == old(m).(finRecvd := true)
    {
      hide Wrap, SendBuf.Valid, RecvBuf.Rep;
      finRecvd := true;
      m := m.(finRecvd := true);
    }

    /** A reset exactly at RCV.NXT closes; one elsewhere in the window is challenged. */
    method HandleRst(w: Segment, e: C.Env, ghost g: C.Seg)
      requires Valid() && Same(w, g) && Near(g.pos, m.rcv.nxt)
      modifies this
      ensures Valid() && sendBuf == old(sendBuf) && recvBuf == old(recvBuf)
      ensures m == C.HandleRst(old(m), g, e).c
      ensures outgoing == old(outgoing) + Wires(localPort, remotePort, C.HandleRst(old(m), g, e).segs)
    {
      hide Wrap, SendBuf.Valid, RecvBuf.Rep, Sane, Fields, Wires, Add32, SeqInRange, SameOpts, SameFlags, R.Window,
          C.AckSeg;
      WiresNone(localPort, remotePort);
      Words();
      SaneSizes(m);
      SerialOrder(g.pos, m.rcv.nxt);
      if w.seqno == recvBuf.nxt {
        Shutdown();
        SignalFin();
        return;
      }
      var rcvWnd := recvBuf.Window();
      WireInRange(g.pos, m.rcv.nxt, rcvWnd);
      if SeqInRange(w.seqno, recvBuf.nxt, Add32(recvBuf.nxt, rcvWnd)) { QueueACK(e); }
    }

    /** A reset that answers an unacceptable acknowledgement. */
    method QueueRST(seqno: u32, ghost pos: int)
      requires Valid() && seqno == Wrap(pos)
      modifies this`outgoing
      ensures Valid() && outgoing == old(outgoing) + Wires(localPort, remotePort, [C.RstSeg(pos)])
    {
      hide Wires, Sane, SendBuf.Valid, RecvBuf.Rep;
      var s := Segment(localPort, remotePort, seqno, 0, RST, 0, 0, 0, [], []);
      QueueSeg(s, C.RstSeg(pos));
    }

    method Establish(ack: u32, ghost p: int)
      requires Valid() && Opening(m.state) && ack == Wrap(p) && p == m.snd.nxt
      modifies this`state, this`retries, this`m, sendBuf
      ensures Valid() && m == old(m).(snd := M.Acknowledge(old(m).snd, p), retries := 0, state := C.Established)
    {
      hide Wrap, SendBuf.Valid, RecvBuf.Rep, Sane, M.Acknowledge;
      EstablishedSane(m);
      SaneSizes(m);
      LiftWrap(m.snd.una, p);
      var _ := sendBuf.Acknowledge(p, ack);
      retries, state := 0, C.Established;
      m := m.(snd := M.Acknowledge(m.snd, p), retries := 0, state := C.Established);
    }

    method HandleSynReceived(w: Segment, e: C.Env, ghost g: C.Seg)
      requires Valid() && m.state == C.SynReceived && Same(w, g) && g.flags.ack
      requires AckSpan(m, g.ack, g.opts.sack) && RecvSpan(m, g)
      modifies this, sendBuf, recvBuf
      ensures Valid() && sendBuf == old(sendBuf) && recvBuf == old(recvBuf)
      ensures m == C.HandleSynReceived(old(m), g, e).c
      ensures outgoing == old(outgoing) + Wires(localPort, remotePort, C.HandleSynReceived(old(m), g, e).segs)
    {
      hide Wrap, SendBuf.Valid, RecvBuf.Rep, Sane, Fields, Wires, SameOpts, SameFlags, SackNear, C.HandleData,
          C.ShiftLeft, C.ShiftRight, C.RstSeg;
      Words();
      SaneSizes(m);
      SameWord(g.ack, m.snd.nxt);
      if w.ack != sendBuf.nxt {
        QueueRST(w.ack, g.ack);
        return;
      }
      AcknowledgeMoves(m.snd, g.ack);
      hide M.Acknowledge;
      Establish(w.ack, g.ack);
      TakeWindow(w.window, g);
      HandleDataState(w, e, g);
    }

    method EnterTimeWait()
      requires Valid() && !Opening(m.state)
      modifies this`state, this`timeWaitArmed, this`m
      ensures Valid() && m == C.EnterTimeWait(old(m))
    {
      hide Wrap, SendBuf.Valid, RecvBuf.Rep, Sane;
      TimeWaitSane(m);
      state, timeWaitArmed := C.TimeWait, true;
      m := C.EnterTimeWait(m);
    }

    /** The states after ours or the peer's FIN, where only acknowledgements matter. */
    method HandleLate(w: Segment, e: C.Env, ghost g: C.Seg)
      requires Valid() && m.state in {C.CloseWait, C.Closing, C.LastAck, C.TimeWait}
      requires Same(w, g) && AckSpan(m, g.ack, g.opts.sack)
      modifies this, sendBuf
      ensures Valid() && sendBuf == old(sendBuf) && recvBuf == old(recvBuf)
      ensures m == Late(old(m), g, e).c
      ensures outgoing == old(outgoing) + Wires(localPort, remotePort, Late(old(m), g, e).segs)
    {
      hide Wrap, SendBuf.Valid, RecvBuf.Rep, Sane, Wires, SameOpts, SameFlags, SackNear, C.ProcessACK, C.TakeWindow,
          C.AckSeg;
      WiresNone(localPort, remotePort);
      Words();
      InFlight();
      SameWord(g.ack, m.snd.nxt);
      if state == C.CloseWait {
        TakeAck(w, e, g);
      } else if state == C.Closing {
        if w.ack == sendBuf.nxt { EnterTimeWait(); }
        QueueACK(e);
      } else if state == C.LastAck {
        if w.ack == sendBuf.nxt { Shutdown(); }
      } else {
        QueueACK(e);
      }
    }

    method HandleSynchronized(w: Segment, e: C.Env, ghost g: C.Seg)
      requires Valid() && m.state != C.Closed && m.state != C.Listen && m.state != C.SynSent
      requires Same(w, g) && InSpan(m, g)
      modifies this, sendBuf, recvBuf
      ensures Valid() && sendBuf == old(sendBuf) && recvBuf == old(recvBuf)
      ensures m == C.HandleSynchronized(old(m), g, e).c
      ensures outgoing == old(outgoing) + Wires(localPort, remotePort, C.HandleSynchronized(old(m), g, e).segs)
    {
      hide Wrap, SendBuf.Valid, RecvBuf.Rep, Sane, Wires, SameOpts, SackNear, HasFlag, PayloadNear, DeferredNear,
           C.ProcessACK, C.TakeWindow, C.AckSeg, C.HandleRst, C.HandleSynReceived, C.HandleData, C.Acceptable;
      WiresNone(localPort, remotePort);
      Words();
      InFlight();
      SameWord(g.ack, m.snd.nxt);
      var acceptable := SegmentAcceptable(w, g);
      if !acceptable {
        var synRcvdOK := state == C.SynReceived && HasFlag(w.flags, SYN) && HasFlag(w.flags, ACK)
            && w.ack == sendBuf.nxt;
        if !synRcvdOK {
          if !HasFlag(w.flags, RST) { QueueACK(e); }
          return;
        }
      } else {
        AcceptableNear(m, g);
      }
      if HasFlag(w.flags, RST) {
        HandleRst(w, e, g);
        return;
      }
      if HasFlag(w.flags, SYN) && state != C.SynReceived {
        QueueACK(e);
        return;
      }
      if !HasFlag(w.flags, ACK) { return; }
      if state == C.SynReceived {
        HandleSynReceived(w, e, g);
      } else if state == C.Established || state == C.FinWait1 || state == C.FinWait2 {
        HandleDataState(w, e, g);
      } else {
        HandleLate(w, e, g);
      }
    }

    // ------------------------------------------------------------------------- handshake

    method QueueSyn(e: C.Env)
      requires Valid()
      modifies this`outgoing
      ensures Valid() && outgoing == old(outgoing) + Wires(localPort, remotePort, [C.SynSeg(m, e)])
    {
      hide Sane, Wires, SendBuf.Valid, RecvBuf.Rep, C.SynOptions, WireOpts, C.RcvWindow;
      Words();
      var wnd := RcvWindow();
      var opts := SynOptions(e);
      QueueSeg(Segment(localPort, remotePort, sendBuf.una, 0, SYN, wnd, 0, 0, opts, []), C.SynSeg(m, e));
    }

    method QueueSynAck(e: C.Env)
      requires Valid()
      modifies this`outgoing
      ensures Valid() && outgoing == old(outgoing) + Wires(localPort, remotePort, [C.SynAckSeg(m, e)])
    {
      hide Sane, Wires, SendBuf.Valid, RecvBuf.Rep, C.SynOptions, WireOpts, C.RcvWindow, Wrap;
      Words();
      var wnd := RcvWindow();
      var opts := SynOptions(e);
      QueueSeg(Segment(localPort, remotePort, sendBuf.una, recvBuf.nxt, SYN + ACK, wnd, 0, 0, opts, []),
          C.SynAckSeg(m, e));
    }

    /** Takes what the peer's SYN offers. */
    method Negotiate(opts: seq<TcpOption>, ghost o: C.Opts)
      requires Valid() && SameOpts(opts, o)
      modifies this`cfg, this`tsRecent, this`m
      ensures Valid() && m == C.Negotiate(old(m), o)
    {
      hide Sane, Wrap, SendBuf.Valid, RecvBuf.Rep, SameOpts;
      NegotiateSane(m, o);
      cfg, tsRecent := Agree(cfg, tsRecent, opts, m, o);
      m := C.Negotiate(m, o);
    }

    static method Agree(cfg0: C.Config, ts0: u32, opts: seq<TcpOption>, ghost c: C.Conn, ghost o: C.Opts)
      returns (cfg: C.Config, ts: u32)
      requires cfg0 == c.cfg && ts0 == c.tsRecent && SameOpts(opts, o)
      ensures cfg == C.Negotiate(c, o).cfg && ts == C.Negotiate(c, o).tsRecent
    {
      hide GetMSS, GetWScale, GetTimestamp, HasSACKPerm, GetSACKBlocks, WireBlocks;
      var mss := cfg0.mss;
      if 0 < GetMSS(opts) < mss { mss := GetMSS(opts); }
      var shift, scaled := cfg0.sndShift, cfg0.wscaleOK;
      var ws := GetWScale(opts);
      if ws.Some? { shift, scaled := Min(ws.value, 14), true; }
      var sackOK := cfg0.sackOK || (cfg0.sackEnabled && HasSACKPerm(opts));
      var tsOK := cfg0.tsOK;
      ts := ts0;
      if cfg0.tsEnabled {
        var stamp := GetTimestamp(opts);
        if stamp.Some? { ts, tsOK := stamp.value.0, true; }
      }
      cfg := cfg0.(mss := mss, sndShift := shift, wscaleOK := scaled, sackOK := sackOK, tsOK := tsOK);
    }

    /** A fresh receive buffer after the peer's SYN, with the data that rides on it. */
    method Synchronize(seqno: u32, payload: seq<byte>, ghost g: C.Seg)
      requires Valid() && Open(m.state) && seqno == Wrap(g.pos) && payload == g.payload && |payload| < 65536
      modifies this`recvBuf, this`m
      ensures Valid() && fresh(recvBuf) && m == C.Synchronize(old(m), g)
    {
      hide Sane, Wrap, SendBuf.Valid, RecvBuf.Rep, Add32, R.Insert;
      SynchronizeSane(m, g);
      SaneSizes(m);
      WrapAdd(g.pos, 1);
      S.InsertNothing(R.NewRecv(g.pos + 1, m.cfg.recvCap), g.pos + 1);
      recvBuf := new RecvBuf(g.pos + 1, Add32(seqno, 1), cfg.recvCap);
      m := m.(rcv := R.NewRecv(g.pos + 1, m.cfg.recvCap), hist := m.hist.(synced := true));
      if |payload| > 0 { InsertPayload(Add32(seqno, 1), payload, g.pos + 1); }
    }

    /** A SYN-ACK completes an active open. */
    method CompleteOpen(w: Segment, e: C.Env, ghost g: C.Seg)
      requires Valid() && m.state == C.SynSent && w.ack == Wrap(g.ack) && g.ack == m.snd.nxt
      modifies this, sendBuf
      ensures Valid() && sendBuf == old(sendBuf) && recvBuf == old(recvBuf)
      ensures m == C.Flush(Completed(old(m), g), e).c
      ensures outgoing == old(outgoing)
        + Wires(localPort, remotePort, [C.AckSeg(Completed(old(m), g), e)] + C.Flush(Completed(old(m), g), e).segs)
    {
      hide Sane, Wrap, SendBuf.Valid, RecvBuf.Rep, M.Acknowledge, C.AckSeg, C.Flush, Wires;
      OpenTiming(m);
      ghost var c := m;
      Establish(w.ack, g.ack);
      AckTimingSane(m, g.ack);
      AckReceived(w.ack, g.ack);
      ghost var c2 := m;
      QueueACK(e);
      FlushSendQueue(e);
      WiresSum(localPort, remotePort, [C.AckSeg(c2, e)], C.Flush(c2, e).segs);
    }

    /** Options, window and RCV.NXT from the peer's SYN. */
    method TakeSyn(w: Segment, ghost g: C.Seg)
      requires Valid() && m.state == C.SynSent && Same(w, g) && |g.payload| < 65536
      modifies this
      ensures Valid() && sendBuf == old(sendBuf) && fresh(recvBuf) && outgoing == old(outgoing)
      ensures m == C.Synchronize(C.TakeWindow(C.Negotiate(old(m), g.opts), g), g)
    {
      hide Sane, Fields, Buffers, Wrap, SendBuf.Valid, RecvBuf.Rep, SameOpts, SameFlags, C.Negotiate, C.Synchronize,
          C.TakeWindow;
      SynKeeps(m, g);
      Negotiate(w.options, g.opts);
      TakeWindow(w.window, g);
      Synchronize(w.seqno, w.payload, g);
    }

    method HandleSynSent(w: Segment, e: C.Env, ghost g: C.Seg)
      requires Valid() && m.state == C.SynSent && Same(w, g) && AckSpan(m, g.ack, g.opts.sack) && |g.payload| < 65536
      modifies this, sendBuf
      ensures Valid() && sendBuf == old(sendBuf) && (recvBuf == old(recvBuf) || fresh(recvBuf))
      ensures m == C.HandleSynSent(old(m), g, e).c
      ensures outgoing == old(outgoing) + Wires(localPort, remotePort, C.HandleSynSent(old(m), g, e).segs)
    {
      hide Sane, Wrap, SendBuf.Valid, RecvBuf.Rep, Wires, SameOpts, HasFlag, SackNear, SeqBeforeEq, SeqAfter,
           C.AckSeg, C.SynAckSeg, C.Flush, C.Negotiate, C.Synchronize, C.TakeWindow, M.Acknowledge, C.RstSeg;
      WiresNone(localPort, remotePort);
      Words();
      SaneSizes(m);
      SerialOrder(g.ack, m.snd.una);
      if g.ack > m.snd.una { SerialOrder(g.ack, m.snd.nxt); }
      if HasFlag(w.flags, ACK) && (SeqBeforeEq(w.ack, sendBuf.una) || SeqAfter(w.ack, sendBuf.nxt)) {
        if !HasFlag(w.flags, RST) { QueueRST(w.ack, g.ack); }
        return;
      }
      if HasFlag(w.flags, RST) {
        if HasFlag(w.flags, ACK) {
          Shutdown();
          SignalFin();
        }
        return;
      }
      if !HasFlag(w.flags, SYN) { return; }
      SynKeeps(m, g);
      TakeSyn(w, g);
      if HasFlag(w.flags, ACK) {
        CompleteOpen(w, e, g);
      } else {
        OpenBothWays();
        QueueSynAck(e);
      }
    }

    method OpenBothWays()
      requires Valid() && m.state == C.SynSent
      modifies this`state, this`retries, this`m
      ensures Valid() && m == old(m).(state := C.SynReceived, retries := 0)
    {
      hide Sane, Wrap, SendBuf.Valid, RecvBuf.Rep;
      SynReceivedSane(m);
      state, retries := C.SynReceived, 0;
      m := m.(state := C.SynReceived, retries := 0);
    }

    method HandleClosed(w: Segment, ghost g: C.Seg)
      requires Valid() && Same(w, g)
      modifies this`outgoing
      ensures Valid() && m == C.HandleClosed(m, g).c
      ensures outgoing == old(outgoing) + Wires(localPort, remotePort, C.HandleClosed(m, g).segs)
    {
      hide Sane, SendBuf.Valid, RecvBuf.Rep, Wires, SameOpts, HasFlag, C.RstSeg;
      WiresNone(localPort, remotePort);
      if HasFlag(w.flags, RST) { return; }
      if HasFlag(w.flags, ACK) {
        QueueRST(w.ack, g.ack);
      } else {
        var segLen := |w.payload| + (if HasFlag(w.flags, SYN) then 1 else 0) + (if HasFlag(w.flags, FIN) then 1 else 0);
        WrapAdd(g.pos, segLen);
        QueueSeg(Segment(localPort, remotePort, 0, Add32(w.seqno, segLen), RST + ACK, 0, 0, 0, [], []),
                 C.Seg(0, g.pos + g.Len(), C.RST_ACK, 0, C.NO_OPTS, []));
      }
    }

    /** Every incoming segment, in every state. */
    method HandleSegment(w: Segment, e: C.Env, ghost g: C.Seg)
      requires Valid() && Same(w, g) && (m.state != C.Closed && m.state != C.Listen ==> InSpan(m, g))
      modifies this, sendBuf, recvBuf
      ensures Valid() && sendBuf == old(sendBuf) && (recvBuf == old(recvBuf) || fresh(recvBuf))
      ensures m == C.HandleSegment(old(m), g, e).c
      ensures outgoing == old(outgoing) + Wires(localPort, remotePort, C.HandleSegment(old(m), g, e).segs)
    {
      hide Sane, Wrap, SendBuf.Valid, RecvBuf.Rep, Wires, Same, AckSpan, RecvSpan,
           C.HandleClosed, C.HandleSynSent, C.HandleSynchronized;
      WiresNone(localPort, remotePort);
      match state
      case Closed => HandleClosed(w, g);
      case Listen =>
      case SynSent => HandleSynSent(w, e, g);
      case _ => HandleSynchronized(w, e, g);
    }

    // ------------------------------------------------------------------------- opening

    /** New, empty buffers at the given numbers. */
    method Rebuffer(una: u32, nxt: u32, ghost p: int, ghost q: int)
      requires Fields() && Buffers() && cfg.recvCap < TWO30 && una == Wrap(p) && nxt == Wrap(q)
      modifies this`sendBuf, this`recvBuf, this`m
      ensures Fields() && Buffers() && fresh(sendBuf) && fresh(recvBuf)
      ensures m == old(m).(snd := M.NewSend(m.cfg.sendCap, p), rcv := R.NewRecv(q, m.cfg.recvCap))
    {
      hide Wrap, SendBuf.Valid, RecvBuf.Rep, R.ValidRecv, R.Below;
      var sb := new SendBuf(p, cfg.sendCap, una);
      var rb := new RecvBuf(q, nxt, cfg.recvCap);
      sendBuf, recvBuf := sb, rb;
      m := m.(snd := M.NewSend(m.cfg.sendCap, p), rcv := R.NewRecv(q, m.cfg.recvCap));
    }

    /** New buffers: our SYN is in flight from iss, and RCV.NXT is wherever the caller says. */
    method Begin(newState: C.State, iss: u32, nxt: u32, ghost p: int, ghost q: int, ghost synced: bool)
      requires Valid() && Opening(newState) && m.timing.None? && iss == Wrap(p) && nxt == Wrap(q)
      modifies this`state, this`sendBuf, this`recvBuf, this`m
      ensures Valid() && fresh(sendBuf) && fresh(recvBuf) && m == Begun(old(m), newState, p, q, synced)
    {
      hide Sane, Wrap, SendBuf.Valid, RecvBuf.Rep, R.ValidRecv, R.Below;
      SaneSizes(m);
      BegunSane(m, newState, p, q, synced);
      Rebuffer(iss, nxt, p, q);
      sendBuf.AdvanceSent(1);
      state := newState;
      m := Begun(old(m), newState, p, q, synced);
    }

    /** Active open, up to the wait for the handshake. A connection object opens once. */
    method Connect(iss: u32, e: C.Env, ghost p: int)
      requires Valid() && m.timing.None? && iss == Wrap(p)
      modifies this
      ensures Valid() && (sendBuf == old(sendBuf) || fresh(sendBuf)) && (recvBuf == old(recvBuf) || fresh(recvBuf))
      ensures m == C.Connect(old(m), p, e).c
      ensures outgoing == old(outgoing) + Wires(localPort, remotePort, C.Connect(old(m), p, e).segs)
    {
      hide Sane, Wrap, SendBuf.Valid, RecvBuf.Rep, Wires, C.SynSeg;
      WiresNone(localPort, remotePort);
      if state != C.Closed { return; }
      BegunSane(m, C.SynSent, p, 0, false);
      WrapZero();
      Begin(C.SynSent, iss, 0, p, 0, false);
      timing, timeSeq := true, iss;
      m := m.(timing := Some(p));
      QueueSyn(e);
    }

    /** Passive open. */
    method AcceptSYN(w: Segment, iss: u32, e: C.Env, ghost g: C.Seg, ghost p: int)
      requires Valid() && m.timing.None? && Same(w, g) && |g.payload| < 65536 && iss == Wrap(p)
      modifies this
      ensures Valid() && (sendBuf == old(sendBuf) || fresh(sendBuf)) && (recvBuf == old(recvBuf) || fresh(recvBuf))
      ensures m == C.AcceptSYN(old(m), g, p, e).c
      ensures outgoing == old(outgoing) + Wires(localPort, remotePort, C.AcceptSYN(old(m), g, p, e).segs)
    {
      hide Sane, Wrap, SendBuf.Valid, RecvBuf.Rep, Wires, Add32, SameOpts, SameFlags, C.Negotiate, R.Insert,
          C.SynAckSeg;
      WiresNone(localPort, remotePort);
      if state != C.Closed && state != C.Listen { return; }
      S.NegotiateFrame(m, g.opts);
      S.InsertNothing(R.NewRecv(g.pos + 1, m.cfg.recvCap), g.pos + 1);
      NegotiateCaps(m, g.opts);
      Negotiate(w.options, g.opts);
      WrapAdd(g.pos, 1);
      Begin(C.SynReceived, iss, Add32(w.seqno, 1), p, g.pos + 1, true);
      SynAckSame(m, p, e);
      QueueSynAck(e);
      if |w.payload| > 0 { InsertPayload(Add32(w.seqno, 1), w.payload, g.pos + 1); }
    }

    /** Passive open from a validated cookie: established at once, nothing in flight. */
    method AcceptCookie(remoteSeq: u32, iss: u32, mss: u16, data: seq<byte>, e: C.Env, ghost q: int, ghost p: int)
      requires Valid() && m.timing.None? && remoteSeq == Wrap(q) && iss == Wrap(p) && |data| < 65536
      modifies this
      ensures Valid() && (sendBuf == old(sendBuf) || fresh(sendBuf)) && (recvBuf == old(recvBuf) || fresh(recvBuf))
      ensures m == C.AcceptCookie(old(m), q, p, mss, data, e).c
      ensures outgoing == old(outgoing) + Wires(localPort, remotePort, C.AcceptCookie(old(m), q, p, mss, data, e).segs)
    {
      hide Sane, Wrap, SendBuf.Valid, RecvBuf.Rep, Wires, R.Insert, PlainAck, Fields, Buffers;
      WiresNone(localPort, remotePort);
      Words();
      if state != C.Closed && state != C.Listen { return; }
      S.InsertNothing(R.NewRecv(q, m.cfg.recvCap), q);
      Adopt(remoteSeq, iss, mss, q, p);
      if |data| > 0 { InsertPayload(remoteSeq, data, q); }
      QueuePlain([]);
      PlainAckIs(m, []);
    }

    /** Buffers for a connection that is established already. */
    method Adopt(remoteSeq: u32, iss: u32, mss: u16, ghost q: int, ghost p: int)
      requires Valid() && m.timing.None? && remoteSeq == Wrap(q) && iss == Wrap(p)
      modifies this`state, this`sendBuf, this`recvBuf, this`cfg, this`m
      ensures Valid() && fresh(sendBuf) && fresh(recvBuf) && m == Cookie(old(m), q, p, mss)
    {
      hide Sane, Wrap, SendBuf.Valid, RecvBuf.Rep, Add32, R.ValidRecv, R.Below;
      SaneSizes(m);
      CookieSane(m, q, p, mss);
      WrapAdd(p, 1);
      Rebuffer(Add32(iss, 1), remoteSeq, p + 1, q);
      var agreed := if mss < cfg.mss then mss else cfg.mss;
      state, cfg := C.Established, cfg.(mss := agreed);
      m := Cookie(old(m), q, p, mss);
    }

    /** An ACK from SND.NXT that carries no options. */
    method QueuePlain(data: seq<byte>)
      requires Valid()
      modifies this`outgoing
      ensures Valid() && outgoing == old(outgoing) + Wires(localPort, remotePort, [PlainAck(m, data)])
    {
      hide Sane, Wrap, SendBuf.Valid, RecvBuf.Rep, Wires, C.RcvWindow;
      Words();
      var wnd := RcvWindow();
      QueueSeg(Segment(localPort, remotePort, sendBuf.nxt, recvBuf.nxt, ACK, wnd, 0, 0, [], data), PlainAck(m, data));
    }

    // --------------------------------------------------------------------- application

    /** One turn of Write: as much as fits, in a state that takes writes. */
    method WriteSome(b: seq<byte>) returns (n: nat)
      requires Valid()
      modifies this`m, sendBuf
      ensures Valid() && m == (if C.CanWrite(old(m)) then old(m).(snd := M.Write(old(m).snd, b)) else old(m))
      ensures n == if C.CanWrite(old(m)) then M.WriteCount(old(m).snd, b) else 0
    {
      hide Sane, Wrap, SendBuf.Valid, RecvBuf.Rep;
      if closed || (state != C.Established && state != C.CloseWait) { return 0; }
      WriteSane(m, b);
      n := sendBuf.Write(b);
      m := m.(snd := M.Write(m.snd, b));
    }

    /** The part of Read that hands bytes over. */
    method ReadSome(n: nat) returns (out: seq<byte>)
      requires Valid()
      modifies this`m, recvBuf
      ensures Valid() && m == old(m).(rcv := R.Read(old(m).rcv, n))
      ensures out + m.rcv.buf == old(m).rcv.buf && |out| == Min(n, |old(m).rcv.buf|)
    {
      hide Sane, Wrap, SendBuf.Valid, RecvBuf.Rep;
      ReadSane(m, n);
      out := recvBuf.Read(n);
      m := m.(rcv := R.Read(m.rcv, n));
    }

    /** One look of Read: bytes if there are any, the end of the stream if there will be none, otherwise a wait. */
    method Read(n: nat) returns (answer: C.Answer)
      requires Valid()
      modifies this`m, recvBuf
      ensures Valid() && answer == C.ReadAnswer(old(m), n) && m == old(m).(rcv := R.Read(old(m).rcv, n))
    {
      hide Sane, Wrap, SendBuf.Valid, RecvBuf.Rep;
      ReadPart(m.rcv, n);
      var readable := recvBuf.Readable();
      if readable == 0 {
        if closed { return C.Eof; }
        if finRecvd { return C.Eof; }
        return C.Waits;
      }
      var out := ReadSome(n);
      answer := C.Got(out);
    }

    method SetState(s: C.State)
      requires Fields() && Buffers()
      modifies this`state, this`m
      ensures Fields() && Buffers() && m == old(m).(state := s)
    {
      hide Wrap, SendBuf.Valid, RecvBuf.Rep;
      state := s;
      m := m.(state := s);
    }

    /** Closing: what remains to be sent is flushed from ESTABLISHED only, then our FIN is queued. */
    method Close(e: C.Env)
      requires Valid() && M.Unacked(m.snd) + 1 < TWO31
      modifies this, sendBuf
      ensures Valid() && sendBuf == old(sendBuf) && recvBuf == old(recvBuf)
      ensures m == C.Close(old(m), e).c
      ensures outgoing == old(outgoing) + Wires(localPort, remotePort, C.Close(old(m), e).segs)
    {
      hide Sane, Wrap, SendBuf.Valid, RecvBuf.Rep, Wires, C.Flush, C.QueueFin, Fields, Buffers;
      WiresNone(localPort, remotePort);
      Words();
      if closed { return; }
      CloseSane(m);
      match state
      case Established =>
        FlushRoom(m, e);
        ghost var o := C.Flush(m, e);
        FlushSendQueue(e);
        CloseSane(m);
        SetState(C.FinWait1);
        ghost var c := m;
        QueueFIN(e);
        WiresSum(localPort, remotePort, o.segs, C.QueueFin(c, e).segs);
      case CloseWait =>
        SetState(C.LastAck);
        QueueFIN(e);
      case SynSent => Shutdown();
      case SynReceived =>
        SetState(C.FinWait1);
        QueueFIN(e);
      case FinWait1 =>
      case FinWait2 =>
      case _ => Shutdown();
    }

    method Abort()
      requires Valid()
      modifies this
      ensures Valid() && sendBuf == old(sendBuf) && recvBuf == old(recvBuf)
      ensures m == C.Abort(old(m)).c
      ensures outgoing == old(outgoing) + Wires(localPort, remotePort, C.Abort(old(m)).segs)
    {
      hide Sane, Wrap, SendBuf.Valid, RecvBuf.Rep, Wires, C.RstSeg;
      WiresNone(localPort, remotePort);
      if state == C.Closed { return; }
      Words();
      var wasEstablished := state != C.SynSent;
      Shutdown();
      if wasEstablished { QueueRST(sendBuf.nxt, m.snd.nxt); }
      SignalFin();
    }

    // -------------------------------------------------------------------------- timers

    method OnRTOTimeout(e: C.Env)
      requires Valid() && M.Unacked(m.snd) + 1 < TWO31
      modifies this, sendBuf
      ensures Valid() && sendBuf == old(sendBuf) && recvBuf == old(recvBuf)
      ensures m == C.OnRTO(old(m), e).c
      ensures outgoing == old(outgoing) + Wires(localPort, remotePort, C.OnRTO(old(m), e).segs)
    {
      hide Sane, Wrap, SendBuf.Valid, RecvBuf.Rep, Wires, C.Retransmit, C.QueueFin, C.SynSeg, C.SynAckSeg, Fields,
          Buffers;
      WiresNone(localPort, remotePort);
      Words();
      if closed || state == C.Closed { return; }
      CountRetry();
      if retries > C.MAX_RETRIES {
        Shutdown();
        return;
      }
      InvalidateTiming();
      match state
      case SynSent => QueueSyn(e);
      case SynReceived => QueueSynAck(e);
      case Established => Retransmit(e);
      case CloseWait => Retransmit(e);
      case FinWait1 => QueueFIN(e);
      case LastAck => QueueFIN(e);
      case _ =>
    }

    method CountRetry()
      requires Valid()
      modifies this`retries, this`m
      ensures Valid() && m == old(m).(retries := old(m).retries + 1) && retries == m.retries
    {
      hide Sane, Wrap, SendBuf.Valid, RecvBuf.Rep;
      RetrySane(m);
      retries := retries + 1;
      m := m.(retries := m.retries + 1);
    }

    method InvalidateTiming()
      requires Valid()
      modifies this`timing, this`m
      ensures Valid() && m == old(m).(timing := None)
    {
      hide Wrap, SendBuf.Valid, RecvBuf.Rep, R.ValidRecv;
      timing := false;
      m := m.(timing := None);
    }

    /** The persist timer: flush if the window opened, otherwise probe with one byte. */
    method OnPersistTimeout(e: C.Env)
      requires Valid() && M.Unacked(m.snd) + 1 < TWO31
      modifies this, sendBuf
      ensures Valid() && sendBuf == old(sendBuf) && recvBuf == old(recvBuf)
      ensures m == C.OnPersist(old(m), e).c
      ensures outgoing == old(outgoing) + Wires(localPort, remotePort, C.OnPersist(old(m), e).segs)
    {
      hide Sane, Wrap, SendBuf.Valid, RecvBuf.Rep, Wires, C.Flush, M.PeekUnsent, PlainAck, Fields;
      WiresNone(localPort, remotePort);
      Words();
      if closed || state == C.Closed { return; }
      if sndWnd > 0 {
        FlushSendQueue(e);
        return;
      }
      SaneWindow(m);
      if sendBuf.Pending() > 0 {
        var data := sendBuf.PeekUnsent(1);
        PlainAckIs(m, data);
        QueuePlain(data);
        ProbeSent();
      }
    }

    /** Moves SND.NXT over a probe, which is not timed. */
    method ProbeSent()
      requires Valid() && !Opening(m.state) && M.Unacked(m.snd) + 1 < TWO31
      modifies this`m, sendBuf
      ensures Valid() && m == old(m).(snd := M.AdvanceSent(old(m).snd, 1))
    {
      hide Sane, Wrap, SendBuf.Valid, RecvBuf.Rep;
      ProbeSane(m);
      sendBuf.AdvanceSent(1);
      m := m.(snd := M.AdvanceSent(m.snd, 1));
    }

    method OnTimeWaitExpired()
      requires Valid() && timeWaitArmed
      modifies this`state, this`closed, this`timeWaitArmed, this`m
      ensures Valid() && m == C.OnTimeWait(old(m)).c
    {
      hide Wrap, SendBuf.Valid, RecvBuf.Rep;
      Shutdown();
      timeWaitArmed := false;
      m := m.(timeWaitArmed := false);
    }

    /** `idle` and `exhausted` are what the clock and the probe count say. */
    method OnKeepalive(idle: bool, exhausted: bool, e: C.Env)
      requires Valid()
      modifies this
      ensures Valid() && sendBuf == old(sendBuf) && recvBuf == old(recvBuf)
      ensures m == C.OnKeepalive(old(m), idle, exhausted, e).c
      ensures outgoing == old(outgoing) + Wires(localPort, remotePort, C.OnKeepalive(old(m), idle, exhausted, e).segs)
    {
      hide Sane, Wrap, SendBuf.Valid, RecvBuf.Rep, Wires, C.Build, Add32;
      WiresNone(localPort, remotePort);
      if closed || (state != C.Established && state != C.CloseWait) { return; }
      if !idle { return; }
      if exhausted {
        Shutdown();
        SignalFin();
        return;
      }
      Words();
      WrapAdd(m.snd.nxt, -1);
      QueueBuilt(Add32(sendBuf.nxt, -1), ACK, [], e, m.snd.nxt - 1, C.ACK);
    }
  }
}
