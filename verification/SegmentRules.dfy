/**
 What an arriving segment does, told from the connection before it: resets and challenges, the
 acceptance test, the state it leads to, the answer it gets, and the window it brings.
 */
module SegmentRules {
  import opened SeqSpace
  import opened RecvModel
  import opened SendModel
  import opened ConnModel
  import opened ConnStates

  predicate Synchronized(s: State) { s !in {Closed, Listen, SynSent} }

  /** A segment that only acknowledges: at SND.NXT, up to RCV.NXT, without data. */
  predicate PureAck(c: Conn, g: Seg) {
    g.flags == Flags(false, true, false, false, false) && g.pos == c.snd.nxt && g.ack == c.rcv.nxt && g.payload == []
  }

  /** Nothing changes and one pure ACK goes out. */
  predicate Challenged(c: Conn, o: Out) { o.c == c && |o.segs| == 1 && PureAck(c, o.segs[0]) }

  lemma AckIsPure(c: Conn, e: Env)
    ensures PureAck(c, AckSeg(c, e))
  {
    hide RcvWindow, Options;
  }

  // ------------------------------------------------------------------------ free space

  /** The number of positions in [lo, hi) that the list holds. */
  ghost function CountHeld(ooo: seq<Entry>, lo: int, hi: int): nat
    decreases hi - lo
  {
    if hi <= lo then 0 else (if At(ooo, lo).Some? then 1 else 0) + CountHeld(ooo, lo + 1, hi)
  }

  lemma {:induction false} CountSplit(ooo: seq<Entry>, lo: int, mid: int, hi: int)
    requires lo <= mid <= hi
    ensures CountHeld(ooo, lo, hi) == CountHeld(ooo, lo, mid) + CountHeld(ooo, mid, hi)
    decreases mid - lo
  {
    hide At;
    if lo < mid { CountSplit(ooo, lo + 1, mid, hi); }
  }

  lemma {:induction false} CountNone(ooo: seq<Entry>, lo: int, hi: int)
    requires forall p :: lo <= p < hi ==> At(ooo, p) == None
    ensures CountHeld(ooo, lo, hi) == 0
    decreases hi - lo
  {
    hide At;
    if lo < hi { CountNone(ooo, lo + 1, hi); }
  }

  lemma {:induction false} CountAll(ooo: seq<Entry>, lo: int, hi: int)
    requires lo <= hi && forall p :: lo <= p < hi ==> At(ooo, p).Some?
    ensures CountHeld(ooo, lo, hi) == hi - lo
    decreases hi - lo
  {
    hide At;
    if lo < hi { CountAll(ooo, lo + 1, hi); }
  }

  lemma {:induction false} CountSame(ooo: seq<Entry>, rest: seq<Entry>, lo: int, hi: int)
    requires forall p :: lo <= p < hi ==> At(ooo, p) == At(rest, p)
    ensures CountHeld(ooo, lo, hi) == CountHeld(rest, lo, hi)
    decreases hi - lo
  {
    hide At;
    if lo < hi { CountSame(ooo, rest, lo + 1, hi); }
  }

  /** Out-of-order bytes are counted once each. */
  lemma {:induction false} HeldOutCounts(lo: int, ooo: seq<Entry>, hi: int)
    requires Sorted(lo, ooo) && Below(ooo, hi)
    ensures HeldOut(ooo) == CountHeld(ooo, lo, hi)
    decreases ooo
  {
    hide CountHeld;
    if ooo == [] {
      CountNone(ooo, lo, hi);
    } else {
      var e, rest := ooo[0], ooo[1..];
      assert e in ooo;
      assert Below(rest, hi) by { BelowRest(ooo, hi); }
      HeldOutCounts(e.End(), rest, hi);
      forall p | p < e.End() ensures At(rest, p) == None { SortedBound(e.End(), rest, p); }
      CountNone(ooo, lo, e.pos);
      CountAll(ooo, e.pos, e.End());
      CountSame(ooo, rest, e.End(), hi);
      CountSplit(ooo, lo, e.pos, hi);
      CountSplit(ooo, e.pos, e.End(), hi);
    }
  }

  lemma BelowRest(ooo: seq<Entry>, hi: int)
    requires Below(ooo, hi) && ooo != []
    ensures Below(ooo[1..], hi)
  {
  }

  /** The window is the buffer's size less the bytes that wait to be read and those held out of order. */
  lemma WindowExactly(r: Recv)
    requires ValidRecv(r) && r.wnd > 0
    ensures var held := CountHeld(r.ooo, r.nxt + 1, r.nxt + r.wnd);
            Window(r) == if |r.buf| + held < r.wnd then r.wnd - |r.buf| - held else 0
  {
    hide HeldOut, CountHeld;
    HeldOutCounts(r.nxt + 1, r.ooo, r.nxt + r.wnd);
  }

  lemma WindowFits(r: Recv)
    requires r.wnd > 0
    ensures Window(r) <= r.wnd
  {
  }

  // ----------------------------------------------------------------------------- resets

  /**
   A reset closes a synchronized connection exactly when it stands at RCV.NXT; above it, within the
   free space, it is challenged; anywhere else it is ignored.
   */
  lemma ResetExactly(c: Conn, seg: Seg, e: Env)
    requires Synchronized(c.state) && seg.flags.rst && c.rcv.wnd == c.cfg.recvCap > 0
    ensures var o := HandleSegment(c, seg, e);
            && (o.c.state == Closed <==> seg.pos == c.rcv.nxt)
            && (seg.pos == c.rcv.nxt ==>
                  o.segs == [] && o.c == c.(state := Closed, closed := true, finRecvd := true))
            && (c.rcv.nxt < seg.pos < c.rcv.nxt + Window(c.rcv) ==> Challenged(c, o))
            && (!(c.rcv.nxt <= seg.pos < c.rcv.nxt + Window(c.rcv)) && seg.pos != c.rcv.nxt ==> o == Out(c, []))
  {
    hide AckSeg, Window;
    WindowFits(c.rcv);
    AckIsPure(c, e);
  }

  /** Before the handshake a reset closes exactly when it acknowledges the SYN; it is never answered. */
  lemma ResetOpening(c: Conn, seg: Seg, e: Env)
    requires c.state == SynSent && seg.flags.rst
    ensures var o := HandleSegment(c, seg, e);
            && o.segs == []
            && o.c == if seg.flags.ack && c.snd.una < seg.ack <= c.snd.nxt
                      then c.(state := Closed, closed := true, finRecvd := true) else c
  {
  }

  /** A closed connection ignores resets too. */
  lemma ResetClosed(c: Conn, seg: Seg, e: Env)
    requires c.state == Closed && seg.flags.rst
    ensures HandleSegment(c, seg, e) == Out(c, [])
  {
  }

  /** Nobody there: the answer of a closed connection to a SYN closes the side that connects. */
  lemma ConnectionRefused(c: Conn, y: Conn, e: Env, f: Env)
    requires c.state == Closed && y.state == SynSent && y.snd.nxt == y.snd.una + 1
    ensures var o := HandleSegment(c, SynSeg(y, f), e);
            o.c == c && |o.segs| == 1 && HandleSegment(y, o.segs[0], f).c.closed
  {
    hide RcvWindow, SynOptions;
  }

  /** And its answer to anything that acknowledges closes the sender, if that has received nothing since. */
  lemma StrayIsReset(c: Conn, y: Conn, g: Seg, e: Env, f: Env)
    requires c.state == Closed && Synchronized(y.state) && y.rcv.wnd == y.cfg.recvCap > 0
    requires g.flags.ack && !g.flags.rst && g.ack == y.rcv.nxt
    ensures var o := HandleSegment(c, g, e);
            o.c == c && |o.segs| == 1 && HandleSegment(y, o.segs[0], f).c.closed
  {
    hide HandleSynchronized;
    ResetExactly(y, RstSeg(g.ack), f);
  }

  /** So does an abort, once the peer has received everything that was sent. */
  lemma AbortReaches(c: Conn, y: Conn, f: Env)
    requires Synchronized(c.state) && Synchronized(y.state) && y.rcv.wnd == y.cfg.recvCap > 0 && y.rcv.nxt == c.snd.nxt
    ensures var o := Abort(c);
            o.c == c.(state := Closed, closed := true, finRecvd := true) && |o.segs| == 1
                && HandleSegment(y, o.segs[0], f).c.closed
  {
    hide HandleSynchronized;
    ResetExactly(y, RstSeg(c.snd.nxt), f);
  }

  // -------------------------------------------------------------------- the acceptance test

  /** Position q belongs to the segment: a byte, its SYN or FIN, or its place if it has none of these. */
  predicate Occupies(seg: Seg, q: int) { seg.pos <= q < seg.pos + Max(1, seg.Len()) }

  /**
   A segment is acceptable exactly when some number of it lies in the window and it does not reach
   past the window on both sides.
   */
  lemma AcceptableExactly(c: Conn, seg: Seg)
    requires c.cfg.recvCap > 0
    ensures var lo, hi := c.rcv.nxt, c.rcv.nxt + c.cfg.recvCap;
            Acceptable(c, seg) <==>
              (exists q :: Occupies(seg, q) && lo <= q < hi) && !(seg.pos < lo && seg.pos + seg.Len() > hi)
  {
    var lo, hi := c.rcv.nxt, c.rcv.nxt + c.cfg.recvCap;
    var last := seg.pos + Max(1, seg.Len()) - 1;
    if Acceptable(c, seg) {
      if InRange(seg.pos, lo, c.cfg.recvCap) { assert Occupies(seg, seg.pos); } else { assert Occupies(seg, last); }
    }
  }

  /** What is not acceptable changes nothing and is answered with an ACK, unless it is a reset. */
  lemma UnacceptableAnswered(c: Conn, seg: Seg, e: Env)
    requires Synchronized(c.state) && !Acceptable(c, seg) && !seg.flags.rst
    requires c.state == SynReceived ==> !(seg.flags.syn && seg.flags.ack && seg.ack == c.snd.nxt)
    ensures Challenged(c, HandleSegment(c, seg, e))
  {
    hide AckSeg, Acceptable;
    AckIsPure(c, e);
  }

  /** A SYN on a synchronized connection is challenged; a segment without ACK is dropped. */
  lemma OutOfPlace(c: Conn, seg: Seg, e: Env)
    requires Synchronized(c.state) && c.state != SynReceived && Acceptable(c, seg) && !seg.flags.rst
    ensures seg.flags.syn ==> Challenged(c, HandleSegment(c, seg, e))
    ensures !seg.flags.syn && !seg.flags.ack ==> HandleSegment(c, seg, e) == Out(c, [])
  {
    hide AckSeg, Acceptable;
    AckIsPure(c, e);
  }

  /** A keepalive probe, one below what the peer expects, draws an ACK from it. */
  lemma ProbeDrawsAck(c: Conn, y: Conn, e: Env, f: Env)
    requires !c.closed && (c.state == Established || c.state == CloseWait) && Synchronized(y.state)
    requires y.rcv.nxt == c.snd.nxt
    ensures var o := OnKeepalive(c, true, false, e);
            o.c == c && |o.segs| == 1 && Challenged(y, HandleSegment(y, o.segs[0], f))
  {
    hide RcvWindow, Options, HandleSynchronized;
    UnacceptableAnswered(y, OnKeepalive(c, true, false, e).segs[0], f);
  }

  // ------------------------------------------------------------- the state it leads to

  /** The handshake's last segment: in the window, or a repeated SYN-ACK, with our SYN acknowledged. */
  predicate Completes(c: Conn, seg: Seg) {
    c.state == SynReceived && (Acceptable(c, seg) || SynRcvdOK(c, seg)) && !seg.flags.rst && seg.flags.ack
        && seg.ack == c.snd.nxt
  }

  /** A plain acknowledgement in the window, of everything sent. */
  predicate AcksAll(c: Conn, seg: Seg) { Acceptable(c, seg) && seg.flags.ack && !seg.flags.syn && seg.ack == c.snd.nxt }

  /**
   The state after a segment without RST, state by state; d is the connection after it, and a FIN
   was consumed if its count grew.
   */
  ghost function StateAfter(c: Conn, seg: Seg, d: Conn): State {
    var fin := d.hist.finsIn > c.hist.finsIn;
    match c.state
    case SynReceived => if !Completes(c, seg) then SynReceived else if fin then CloseWait else Established
    case Established => if fin then CloseWait else Established
    case FinWait1 =>
      if fin then if d.snd.una == d.snd.nxt then TimeWait else Closing
      else if TakesData(c, seg) && !seg.flags.fin && seg.ack == d.snd.nxt then FinWait2 else FinWait1
    case FinWait2 => if fin then TimeWait else FinWait2
    case Closing => if AcksAll(c, seg) then TimeWait else Closing
    case LastAck => if AcksAll(c, seg) then Closed else LastAck
    case _ => c.state
  }

  lemma FinConsumedState(c: Conn)
    ensures var d := ConsumeFin(c);
            && d.hist.finsIn == c.hist.finsIn + 1 && d.snd == c.snd
            && (c.state == Established ==> d.state == CloseWait)
            && (c.state == FinWait1 ==> d.state == if c.snd.una == c.snd.nxt then TimeWait else Closing)
            && (c.state == FinWait2 ==> d.state == TimeWait)
            && (c.state !in {Established, FinWait1, FinWait2} ==> d.state == c.state)
            && d.timeWaitArmed == (c.timeWaitArmed || (d.state == TimeWait && c.state != TimeWait))
  {
  }

  /** The receive part of a segment in a data state. */
  lemma AbsorbState(c: Conn, seg: Seg)
    requires c.state in {Established, FinWait1, FinWait2}
    ensures var d := Absorb(c, seg);
            var fin := d.hist.finsIn > c.hist.finsIn;
            && d.snd == c.snd
            && (c.state == Established ==> d.state == if fin then CloseWait else Established)
            && (c.state == FinWait1 ==>
                  d.state == if fin then if c.snd.una == c.snd.nxt then TimeWait else Closing
                             else if !seg.flags.fin && seg.ack == c.snd.nxt then FinWait2 else FinWait1)
            && (c.state == FinWait2 ==> d.state == if fin then TimeWait else FinWait2)
  {
    hide ConsumeFin, Insert;
    var c1 := c.(rcv := Insert(c.rcv, seg.pos, seg.payload));
    FinConsumedState(c1.(deferred := None));
    var c2 := if seg.payload != [] then ProcessData(c, seg) else c;
    FinConsumedState(c2);
  }

  lemma HandleDataState(c: Conn, seg: Seg, e: Env)
    requires c.state in {Established, FinWait1, FinWait2}
    ensures var d := HandleData(c, seg, e).c;
            var fin := d.hist.finsIn > c.hist.finsIn;
            && (c.state == Established ==> d.state == if fin then CloseWait else Established)
            && (c.state == FinWait1 ==>
                  d.state == if fin then if d.snd.una == d.snd.nxt then TimeWait else Closing
                             else if Stale(c, seg) || seg.flags.fin || seg.ack != d.snd.nxt then FinWait1 else FinWait2)
            && (c.state == FinWait2 ==> d.state == if fin then TimeWait else FinWait2)
  {
    hide ProcessACK, Absorb, AckSeg, Stale, TakeWindow;
    var c0 := UpdateStamp(c, seg);
    ProcessACKFrame(c0, seg.ack, seg.opts.sack, e);
    var c1 := ProcessACK(c0, seg.ack, seg.opts.sack, e).c;
    TakeWindowFrame(c1, seg);
    AbsorbState(TakeWindow(c1, seg), seg);
  }

  lemma HandshakeState(c: Conn, seg: Seg, e: Env)
    requires c.state == SynReceived
    ensures var d := HandleSynReceived(c, seg, e).c;
            d.state == if seg.ack != c.snd.nxt then SynReceived
                       else if d.hist.finsIn > c.hist.finsIn then CloseWait else Established
  {
    hide HandleData, TakeWindow, Acknowledge;
    var c1 := c.(snd := Acknowledge(c.snd, seg.ack), retries := 0, state := Established);
    TakeWindowFrame(c1, seg);
    HandleDataState(TakeWindow(c1, seg), seg, e);
  }

  /** Every synchronized state, every segment that is no reset: the state it leads to, exactly. */
  lemma StateExactly(c: Conn, seg: Seg, e: Env)
    requires Synchronized(c.state) && !seg.flags.rst
    ensures var d := HandleSegment(c, seg, e).c; d.state == StateAfter(c, seg, d)
  {
    hide HandleData, HandleSynReceived, ProcessACK, AckSeg, Acceptable, Stale, TakeWindow;
    if c.state in {Established, FinWait1, FinWait2} { HandleDataState(c, seg, e); }
    else if c.state == SynReceived { HandshakeState(c, seg, e); }
    else if c.state == CloseWait {
      ProcessACKFrame(c, seg.ack, seg.opts.sack, e);
      TakeWindowFrame(ProcessACK(c, seg.ack, seg.opts.sack, e).c, seg);
    }
  }

  /**
   A FIN is consumed exactly when RCV.NXT, having taken the segment's bytes, stands at one: the
   segment's own, or one that came early and has waited for bytes.
   */
  lemma FinTakenExactly(c: Conn, seg: Seg)
    ensures var r := if seg.payload != [] then Insert(c.rcv, seg.pos, seg.payload) else c.rcv;
            Absorb(c, seg).hist.finsIn > c.hist.finsIn <==>
              (seg.payload != [] && c.deferred == Some(r.nxt)) || (seg.flags.fin && seg.End() == r.nxt)
  {
    hide ConsumeFin, Insert;
    var c1 := c.(rcv := Insert(c.rcv, seg.pos, seg.payload));
    FinConsumedState(c1.(deferred := None));
    FinConsumedState(if seg.payload != [] then ProcessData(c, seg) else c);
  }

  // --------------------------------------------------------------------------- opening

  /** A SYN-SENT connection and a segment without RST. */
  lemma OpeningExactly(c: Conn, seg: Seg, e: Env)
    requires c.state == SynSent && !seg.flags.rst
    ensures var o := HandleSegment(c, seg, e);
            var bad := seg.flags.ack && !(c.snd.una < seg.ack <= c.snd.nxt);
            && (bad ==> o.c == c && |o.segs| == 1 && o.segs[0].flags == Flags(false, false, false, true, false)
                        && o.segs[0].pos == seg.ack && o.segs[0].payload == [])
            && (!bad && !seg.flags.syn ==> o == Out(c, []))
            && (!bad && seg.flags.syn ==> Answered(c, seg, o))
  {
    hide Negotiate, TakeWindow, Insert, Flush, Build, RcvWindow, SynOptions, Prune, ShiftLeft;
    if seg.flags.syn && (seg.flags.ack ==> c.snd.una < seg.ack <= c.snd.nxt) { SynAnswered(c, seg, e); }
  }

  /** The peer's SYN is taken: its data is kept from the number after it, and it is answered. */
  ghost predicate Answered(c: Conn, seg: Seg, o: Out) {
    && o.c.rcv == Insert(NewRecv(seg.pos + 1, c.cfg.recvCap), seg.pos + 1, seg.payload) && o.c.hist.synced
    && o.c.tsRecent == (if c.cfg.tsEnabled && seg.opts.stamp.Some? then seg.opts.stamp.value.val else c.tsRecent)
    && o.c.sndWnd == ShiftLeft(seg.wnd, o.c.cfg.sndShift)
    && o.c.retries == 0 && o.segs != [] && o.segs[0].ack == o.c.rcv.nxt && o.segs[0].payload == []
    && (seg.flags.ack ==>
          && o.c.state == Established && o.c.snd.una == seg.ack
          && o.segs[0].flags == Flags(false, true, false, false, false)
          && o.segs[0].pos == c.snd.nxt)
    && (!seg.flags.ack ==>
          && o.c.state == SynReceived && o.c.snd == c.snd && |o.segs| == 1
          && o.segs[0].flags == Flags(true, true, false, false, false) && o.segs[0].pos == c.snd.una)
  }

  lemma NegotiateStamp(c: Conn, o: Opts)
    ensures Negotiate(c, o).tsRecent == if c.cfg.tsEnabled && o.stamp.Some? then o.stamp.value.val else c.tsRecent
  {
  }

  lemma WindowIs(c: Conn, seg: Seg)
    ensures TakeWindow(c, seg).sndWnd == ShiftLeft(seg.wnd, c.cfg.sndShift)
  {
    hide ShiftLeft;
  }

  lemma SynAnswered(c: Conn, seg: Seg, e: Env)
    requires c.state == SynSent && seg.flags.syn && !seg.flags.rst
             && (seg.flags.ack ==> c.snd.una < seg.ack <= c.snd.nxt)
    ensures Answered(c, seg, HandleSynSent(c, seg, e))
  {
    hide Negotiate, TakeWindow, Insert, Flush, RcvWindow, SynOptions, Options, Prune, ShiftLeft;
    NegotiateFrame(c, seg.opts);
    NegotiateStamp(c, seg.opts);
    WindowIs(Negotiate(c, seg.opts), seg);
    TakeWindowFrame(Negotiate(c, seg.opts), seg);
    var c1 := Synchronize(TakeWindow(Negotiate(c, seg.opts), seg), seg);
    FlushFrame(AckTiming(c1.(snd := Acknowledge(c1.snd, seg.ack), retries := 0, state := Established), seg.ack), e);
  }

  /** Opening a fresh connection: the SYN, the SYN-ACK, or for a cookie an ACK of what came. */
  lemma OpensExactly(cfg: Config, iss: int, e: Env, syn: Seg, at: int, mss: nat, data: seq<byte>)
    ensures var o := Connect(NewConn(cfg), iss, e);
            && o.c.state == SynSent && o.c.snd.una == iss && o.c.snd.nxt == iss + 1 && o.c.snd.buf == [] && !o.c.closed
            && o.c.timing == Some(iss)
            && |o.segs| == 1 && o.segs[0].flags == Flags(true, false, false, false, false) && o.segs[0].pos == iss
    ensures var o := AcceptSYN(NewConn(cfg), syn, iss, e);
            && o.c.state == SynReceived && o.c.snd.una == iss && o.c.snd.nxt == iss + 1 && o.c.snd.buf == []
            && !o.c.closed
            && o.c.rcv == Insert(NewRecv(syn.pos + 1, cfg.recvCap), syn.pos + 1, syn.payload)
            && o.c.tsRecent == (if cfg.tsEnabled && syn.opts.stamp.Some? then syn.opts.stamp.value.val else 0)
            && |o.segs| == 1 && o.segs[0].flags == Flags(true, true, false, false, false) && o.segs[0].pos == iss
            && o.segs[0].ack == syn.pos + 1
    ensures var o := AcceptCookie(NewConn(cfg), at, iss, mss, data, e);
            && o.c.state == Established && o.c.snd.una == o.c.snd.nxt == iss + 1 && o.c.snd.buf == [] && !o.c.closed
            && o.c.rcv == Insert(NewRecv(at, cfg.recvCap), at, data) && o.c.cfg.mss == Min(mss, cfg.mss)
            && o.c.sndWnd == 65535
            && |o.segs| == 1 && PureAck(o.c, o.segs[0])
  {
    hide Insert, RcvWindow, SynOptions;
  }

  /** A connection in use cannot be opened again. */
  lemma OpensOnce(c: Conn, a: Act, e: Env)
    requires IsOpen(a) && c.state != Closed && c.state != Listen
    ensures Apply(c, a, e) == Out(c, [])
  {
  }

  /** The SYN-RECEIVED handshake: an ACK of anything but our SYN is reset and changes nothing. */
  lemma BadHandshakeAck(c: Conn, seg: Seg, e: Env)
    requires c.state == SynReceived && Acceptable(c, seg) && !seg.flags.rst && seg.flags.ack && seg.ack != c.snd.nxt
    ensures var o := HandleSegment(c, seg, e);
            o.c == c && |o.segs| == 1 && o.segs[0].flags == Flags(false, false, false, true, false)
                && o.segs[0].pos == seg.ack
  {
    hide HandleData, AckSeg, Acceptable;
  }

  // --------------------------------------------------------------------------- closing

  /** Where Close and the TIME-WAIT timer lead. */
  lemma CloseStates(c: Conn, e: Env)
    requires !c.closed
    ensures var d := Close(c, e).c;
            && (c.state in {Established, SynReceived} ==> d.state == FinWait1 && !d.closed)
            && (c.state == CloseWait ==> d.state == LastAck && !d.closed)
            && (c.state in {FinWait1, FinWait2} ==> Close(c, e) == Out(c, []))
            && (c.state !in {Established, SynReceived, CloseWait, FinWait1, FinWait2} ==>
                  Close(c, e) == Out(c.(state := Closed, closed := true), []))
    ensures OnTimeWait(c) ==
            Out(if c.timeWaitArmed then c.(state := Closed, closed := true, timeWaitArmed := false) else c, [])
    ensures Close(c.(closed := true), e) == Out(c.(closed := true), [])
  {
    hide Flush, Build;
    FlushFrame(c, e);
  }

  /** Keepalive closes only an idle connection whose probes are used up, and otherwise changes nothing. */
  lemma KeepaliveExactly(c: Conn, idle: bool, exhausted: bool, e: Env)
    ensures var o := OnKeepalive(c, idle, exhausted, e);
            var due := !c.closed && (c.state == Established || c.state == CloseWait) && idle;
            && o.c == (if due && exhausted then c.(state := Closed, closed := true, finRecvd := true) else c)
            && (o.segs != [] <==> due && !exhausted)
  {
    hide Build;
  }

  /** The four late states: CLOSING and TIME-WAIT answer every segment in place, LAST-ACK none; none takes data. */
  lemma LateAnswers(c: Conn, seg: Seg, e: Env)
    requires c.state in {Closing, LastAck, TimeWait} && Acceptable(c, seg) && !seg.flags.rst && !seg.flags.syn
    requires seg.flags.ack
    ensures var o := HandleSegment(c, seg, e);
            && o.c.rcv == c.rcv && o.c.snd == c.snd
            && (c.state == LastAck ==> o.segs == [])
            && (c.state != LastAck ==> |o.segs| == 1 && PureAck(o.c, o.segs[0]))
  {
    hide RcvWindow, Options, Acceptable;
  }
}
