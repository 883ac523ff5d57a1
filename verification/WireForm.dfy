/**
 Everything a connection queues fits on the wire: from any state and for any
 event, each segment has a header of at most sixty bytes and comes back from the
 wire as it was sent, fields and options.
 */
module WireForm {
  import opened SeqSpace
  import opened TcpOptions
  import opened TcpSegment
  import opened RecvModel
  import opened SendModel
  import C = ConnModel
  import S = ConnStates

  // ------------------------------------------------------------- wire form of a segment

  function Bit(b: bool, v: byte): byte { if b then v else 0 }

  function FlagByte(f: C.Flags): byte
    ensures FlagByte(f) < 32
  {
    Bit(f.fin, 1) + Bit(f.syn, 2) + Bit(f.rst, 4) + Bit(f.psh, 8) + Bit(f.ack, 16)
  }

  /** HasFlag on the wire byte. */
  predicate HasFlag(flags: byte, flag: byte)
    requires flag > 0
  {
    flags / flag % 2 == 1
  }

  lemma FlagsBack(f: C.Flags)
    ensures HasFlag(FlagByte(f), 1) <==> f.fin
    ensures HasFlag(FlagByte(f), 2) <==> f.syn
    ensures HasFlag(FlagByte(f), 4) <==> f.rst
    ensures HasFlag(FlagByte(f), 8) <==> f.psh
    ensures HasFlag(FlagByte(f), 16) <==> f.ack
  {
  }

  function WireBlocks(bs: seq<Block>): seq<(u32, u32)> {
    seq(|bs|, i requires 0 <= i < |bs| => (Wrap(bs[i].left), Wrap(bs[i].right)))
  }

  function SackPart(o: C.Opts): seq<TcpOption> { if o.sack != [] then [SACKOption(WireBlocks(o.sack))] else [] }

  function StampPart(o: C.Opts): seq<TcpOption> {
    if o.stamp.Some? then [TimestampOption(o.stamp.value.val, o.stamp.value.ecr)] + SackPart(o) else SackPart(o)
  }

  function PermPart(o: C.Opts): seq<TcpOption> {
    if o.sackPerm then [SACKPermOption()] + StampPart(o) else StampPart(o)
  }

  function ScalePart(o: C.Opts): seq<TcpOption> {
    if o.wscale.Some? then [WScaleOption(o.wscale.value % 256)] + PermPart(o) else PermPart(o)
  }

  /** The option list, in the order the connection appends: MSS, scale, SACK permitted, timestamp, SACK. */
  function WireOpts(o: C.Opts): seq<TcpOption> {
    if o.mss.Some? then [MSSOption(o.mss.value % 65536)] + ScalePart(o) else ScalePart(o)
  }

  function WireSeg(src: u16, dst: u16, g: C.Seg): Segment {
    Segment(src, dst, Wrap(g.pos), Wrap(g.ack), FlagByte(g.flags), g.wnd % 65536, 0, 0, WireOpts(g.opts), g.payload)
  }

  /** Handshake options, or timestamp and at most three blocks; every value within its field. */
  predicate Fits(g: C.Seg) {
    && g.wnd < 65536
    && (g.opts.mss.Some? ==> g.opts.mss.value < 65536) && (g.opts.wscale.Some? ==> g.opts.wscale.value < 256)
    && |g.opts.sack| <= 3
    && (g.opts.mss.Some? || g.opts.wscale.Some? || g.opts.sackPerm ==> g.opts.sack == [])
  }

  // ------------------------------------------------------------------ options on the wire

  /** One more option in front: what it adds to the length, and that getters of other kinds look past it. */
  lemma Front(x: TcpOption, rest: seq<TcpOption>)
    requires Formed(x) && x.kind != OPT_NOP
    ensures |EncodeAll([x] + rest)| == 2 + |x.data| + |EncodeAll(rest)|
    ensures AllFormed(rest) ==> AllFormed([x] + rest)
    ensures x.kind != OPT_MSS ==> GetMSS([x] + rest) == GetMSS(rest)
    ensures x.kind != OPT_WSCALE ==> GetWScale([x] + rest) == GetWScale(rest)
    ensures x.kind != OPT_SACK_PERM ==> HasSACKPerm([x] + rest) == HasSACKPerm(rest)
    ensures x.kind != OPT_TIMESTAMP ==> GetTimestamp([x] + rest) == GetTimestamp(rest)
    ensures x.kind != OPT_SACK ==> GetSACKBlocks([x] + rest) == GetSACKBlocks(rest)
  {
    assert ([x] + rest)[1..] == rest;
  }

  lemma Nothing()
    ensures EncodeAll([]) == [] && AllFormed([]) && GetMSS([]) == 0 && GetWScale([]) == None
    ensures !HasSACKPerm([]) && GetTimestamp([]) == None && GetSACKBlocks([]) == []
  {
  }

  /** What an option list of a segment must satisfy, given which kinds it may hold. */
  ghost predicate Carries(ws: seq<TcpOption>, len: nat, mss: u16, scale: Option<byte>, perm: bool,
                          stamp: Option<(u32, u32)>, sack: seq<(u32, u32)>) {
    && AllFormed(ws) && |EncodeAll(ws)| == len
    && GetMSS(ws) == mss && GetWScale(ws) == scale && HasSACKPerm(ws) == perm
    && GetTimestamp(ws) == stamp && GetSACKBlocks(ws) == sack
  }

  function StampOf(o: C.Opts): Option<(u32, u32)> {
    if o.stamp.Some? then Some((o.stamp.value.val, o.stamp.value.ecr)) else None
  }

  lemma SackCarries(o: C.Opts)
    requires |o.sack| <= 3
    ensures Carries(SackPart(o), if o.sack == [] then 0 else 2 + 8 * |o.sack|, 0, None, false, None, WireBlocks(o.sack))
  {
    hide Wrap, Edges, Blocks, EncodeAll, GetMSS, GetWScale, HasSACKPerm, GetTimestamp;
    Nothing();
    BlocksBack(WireBlocks(o.sack));
    if o.sack != [] {
      var x := SACKOption(WireBlocks(o.sack));
      Front(x, []);
      assert [x] + [] == [x];
    }
  }

  lemma StampCarries(o: C.Opts)
    requires |o.sack| <= 3
    ensures Carries(StampPart(o), (if o.stamp.Some? then 10 else 0) + (if o.sack == [] then 0 else 2 + 8 * |o.sack|),
                    0, None, false, StampOf(o), WireBlocks(o.sack))
  {
    hide Wrap, SackPart, EncodeAll, GetMSS, GetWScale, HasSACKPerm, GetSACKBlocks, Be32, FromBe32;
    SackCarries(o);
    if o.stamp.Some? {
      var v, r := o.stamp.value.val, o.stamp.value.ecr;
      Be32Len(v);
      Be32Len(r);
      Front(TimestampOption(v, r), SackPart(o));
      TimestampBack(v, r);
    }
  }

  lemma PermCarries(o: C.Opts)
    requires |o.sack| <= 3
    ensures Carries(PermPart(o),
                    (if o.sackPerm then 2 else 0) + (if o.stamp.Some? then 10 else 0) +
                          (if o.sack == [] then 0 else 2 + 8 * |o.sack|),
                    0, None, o.sackPerm, StampOf(o), WireBlocks(o.sack))
  {
    hide Wrap, StampPart, EncodeAll, GetMSS, GetWScale, GetTimestamp, GetSACKBlocks;
    StampCarries(o);
    if o.sackPerm { Front(SACKPermOption(), StampPart(o)); }
  }

  lemma ScaleCarries(o: C.Opts)
    requires |o.sack| <= 3 && (o.wscale.Some? ==> o.wscale.value < 256)
    ensures Carries(ScalePart(o),
                    (if o.wscale.Some? then 3 else 0) + (if o.sackPerm then 2 else 0) +
                          (if o.stamp.Some? then 10 else 0)
                    + (if o.sack == [] then 0 else 2 + 8 * |o.sack|),
                    0, o.wscale, o.sackPerm, StampOf(o), WireBlocks(o.sack))
  {
    hide Wrap, PermPart, EncodeAll, GetMSS, HasSACKPerm, GetTimestamp, GetSACKBlocks;
    PermCarries(o);
    if o.wscale.Some? { Front(WScaleOption(o.wscale.value % 256), PermPart(o)); }
  }

  /** At most forty bytes of options, and every getter gives back what was put in. */
  lemma OptionsBack(g: C.Seg)
    requires Fits(g)
    ensures AllFormed(WireOpts(g.opts)) && |Build(WireOpts(g.opts))| <= 40
    ensures var ws := WireOpts(g.opts);
            && GetMSS(ws) == (if g.opts.mss.Some? then g.opts.mss.value else 0)
            && GetWScale(ws) == g.opts.wscale && (HasSACKPerm(ws) <==> g.opts.sackPerm)
            && GetTimestamp(ws) == StampOf(g.opts) && GetSACKBlocks(ws) == WireBlocks(g.opts.sack)
  {
    hide Wrap, ScalePart, EncodeAll, GetWScale, HasSACKPerm, GetTimestamp, GetSACKBlocks;
    var o := g.opts;
    ScaleCarries(o);
    if o.mss.Some? {
      Be16Back(o.mss.value, []);
      Front(MSSOption(o.mss.value % 65536), ScalePart(o));
    }
  }

  /** A segment that fits has a header of at most sixty bytes and survives the wire whole. */
  lemma SurvivesWire(src: u16, dst: u16, g: C.Seg)
    requires Fits(g)
    ensures var s := WireSeg(src, dst, g); HeaderLen(s) <= 60 && Parsed(Marshalled(s)) == Ok(s)
  {
    hide WireOpts, Parsed, Marshalled, Build, Wrap, FlagByte;
    OptionsBack(g);
    MarshalParse(WireSeg(src, dst, g));
  }

  // --------------------------------------------------------------- all that is queued

  ghost predicate AllFit(segs: seq<C.Seg>) { forall g :: g in segs ==> Fits(g) }

  /** The window shift is one the handshake can carry. */
  predicate Shiftable(c: C.Conn) { c.cfg.rcvShift <= 14 }

  lemma BuiltFits(c: C.Conn, e: C.Env, pos: int, flags: C.Flags, payload: seq<byte>)
    ensures Fits(C.Build(c, e, pos, flags, payload))
  {
    hide Window, C.ShiftLeft, C.ShiftRight;
  }

  lemma AckFits(c: C.Conn, e: C.Env)
    ensures Fits(C.AckSeg(c, e))
  {
    BuiltFits(c, e, c.snd.nxt, C.ACK, []);
  }

  lemma SynFits(c: C.Conn, e: C.Env)
    requires Shiftable(c)
    ensures Fits(C.SynSeg(c, e)) && Fits(C.SynAckSeg(c, e))
  {
    hide Window, C.ShiftLeft, C.ShiftRight;
  }

  lemma {:induction false} FlushFits(c: C.Conn, e: C.Env)
    ensures AllFit(C.Flush(c, e).segs)
    decreases if Pending(c.snd) > 0 then Pending(c.snd) else 0
  {
    hide C.Build, Fits;
    var n := C.Quota(c, e);
    if n > 0 {
      BuiltFits(c, e, c.snd.nxt, C.ACK_PSH, PeekUnsent(c.snd, n));
      FlushFits(C.OneSegmentIn(c, n), e);
    }
  }

  lemma RetransmitFits(c: C.Conn, e: C.Env)
    ensures AllFit(C.Retransmit(c, e).segs)
  {
    hide C.Build, Fits, RetransmitData;
    BuiltFits(c, e, c.snd.una, C.ACK_PSH, RetransmitData(c.snd, c.cfg.mss));
  }

  lemma FinFits(c: C.Conn, e: C.Env)
    ensures AllFit(C.QueueFin(c, e).segs)
  {
    hide C.Build, Fits;
    BuiltFits(c, e, c.snd.nxt, C.FIN_ACK, []);
  }

  lemma ProcessACKFits(c: C.Conn, ack: int, sack: seq<Block>, e: C.Env)
    ensures AllFit(C.ProcessACK(c, ack, sack, e).segs)
  {
    hide C.Retransmit, C.Flush, C.AckSeg, C.Acked, C.Mark, Fits;
    RetransmitFits(c, e);
    AckFits(c, e);
    FlushFits(C.Acked(c, ack, sack), e);
  }

  lemma HandleDataFits(c: C.Conn, seg: C.Seg, e: C.Env)
    ensures AllFit(C.HandleData(c, seg, e).segs)
  {
    hide C.ProcessACK, C.AckSeg, C.Absorb, C.Stale, C.TakeWindow, Fits;
    AckFits(c, e);
    var c0 := C.UpdateStamp(c, seg);
    ProcessACKFits(c0, seg.ack, seg.opts.sack, e);
    AckFits(C.Absorb(C.TakeWindow(C.ProcessACK(c0, seg.ack, seg.opts.sack, e).c, seg), seg), e);
  }

  lemma ResetFits(p: int)
    ensures Fits(C.RstSeg(p))
  {
  }

  lemma SynchronizedFits(c: C.Conn, seg: C.Seg, e: C.Env)
    ensures AllFit(C.HandleSynchronized(c, seg, e).segs)
  {
    hide C.ProcessACK, C.HandleData, C.AckSeg, C.Acceptable, C.SynRcvdOK, C.TakeWindow, Fits, Acknowledge, Window,
        C.RstSeg;
    AckFits(c, e);
    AckFits(C.EnterTimeWait(c), e);
    ResetFits(seg.ack);
    ProcessACKFits(c, seg.ack, seg.opts.sack, e);
    HandleDataFits(c, seg, e);
    HandleDataFits(C.TakeWindow(c.(snd := Acknowledge(c.snd, seg.ack), retries := 0, state := C.Established), seg),
        seg, e);
  }

  lemma SynSentFits(c: C.Conn, seg: C.Seg, e: C.Env)
    requires Shiftable(c)
    ensures AllFit(C.HandleSynSent(c, seg, e).segs)
  {
    hide C.AckSeg, C.SynAckSeg, C.Flush, C.TakeWindow, C.RstSeg, Insert, Acknowledge, Fits;
    ResetFits(seg.ack);
    var c1 := C.Synchronize(C.TakeWindow(C.Negotiate(c, seg.opts), seg), seg);
    ScaleKept(C.Negotiate(c, seg.opts), seg);
    SynFits(c1.(state := C.SynReceived, retries := 0), e);
    var c2 := C.AckTiming(c1.(snd := Acknowledge(c1.snd, seg.ack), retries := 0, state := C.Established), seg.ack);
    AckFits(c2, e);
    FlushFits(c2, e);
  }

  lemma ScaleKept(c: C.Conn, seg: C.Seg)
    ensures C.TakeWindow(c, seg).cfg == c.cfg
  {
    hide C.ShiftLeft, C.ShiftRight;
  }

  lemma OpeningFits(c: C.Conn, a: C.Act, e: C.Env)
    requires Shiftable(c) && S.IsOpen(a)
    ensures AllFit(C.Apply(c, a, e).segs)
  {
    hide Window, C.ShiftLeft, C.ShiftRight, Insert;
  }

  lemma TimerFits(c: C.Conn, a: C.Act, e: C.Env)
    requires Shiftable(c) && (a.Retry? || a.Persist? || a.Probe? || a.Shut? || a.Kill?)
    ensures AllFit(C.Apply(c, a, e).segs)
  {
    hide C.Retransmit, C.Flush, C.QueueFin, C.Build, C.SynSeg, C.SynAckSeg, C.RstSeg, Fits, C.RcvWindow, PeekUnsent;
    var c1 := c.(retries := c.retries + 1, timing := None);
    RetransmitFits(c1, e);
    SynFits(c1, e);
    FinFits(c1, e);
    FinFits(c.(state := C.LastAck), e);
    FinFits(c.(state := C.FinWait1), e);
    FinFits(C.Flush(c, e).c.(state := C.FinWait1), e);
    FlushFits(c, e);
    BuiltFits(c, e, c.snd.nxt - 1, C.ACK, []);
    ResetFits(c.snd.nxt);
    if Pending(c.snd) > 0 { ProbeFits(c); }
  }

  lemma ProbeFits(c: C.Conn)
    requires Pending(c.snd) > 0
    ensures Fits(C.Seg(c.snd.nxt, c.rcv.nxt, C.ACK, C.RcvWindow(c), C.NO_OPTS, PeekUnsent(c.snd, 1)))
  {
    hide Window, C.ShiftLeft, C.ShiftRight;
  }

  lemma ClosedFits(c: C.Conn, seg: C.Seg)
    ensures AllFit(C.HandleClosed(c, seg).segs)
  {
  }

  /** From any state, whatever happens, every segment queued survives the wire. */
  lemma QueuedSurvives(c: C.Conn, a: C.Act, e: C.Env, src: u16, dst: u16, g: C.Seg)
    requires Shiftable(c) && g in C.Apply(c, a, e).segs
    ensures Fits(g) && HeaderLen(WireSeg(src, dst, g)) <= 60
    ensures Parsed(Marshalled(WireSeg(src, dst, g))) == Ok(WireSeg(src, dst, g))
  {
    hide C.HandleSynchronized, C.HandleSynSent, C.HandleClosed, C.Connect, C.AcceptSYN, C.AcceptCookie, C.Close,
        C.Abort,
      C.OnRTO, C.OnPersist, C.OnKeepalive, C.Flush, Fits, HeaderLen, Parsed, Marshalled, WireSeg;
    if S.IsOpen(a) { OpeningFits(c, a, e); }
    else if a.Deliver? {
      SynchronizedFits(c, a.seg, e);
      SynSentFits(c, a.seg, e);
      ClosedFits(c, a.seg);
    }
    else if a.Push? { FlushFits(c, e); }
    else if a.Retry? || a.Persist? || a.Probe? || a.Shut? || a.Kill? { TimerFits(c, a, e); }
    SurvivesWire(src, dst, g);
  }
}
