/**
 What the two ends settle when they open: in every run, once both have seen the other's SYN, they
 use the same segment size, and selective acknowledgement and timestamps exactly if both offer them.
 */
module Handshake {
  import opened SeqSpace
  import opened RecvModel
  import opened SendModel
  import opened ConnModel
  import opened ConnStates
  import opened Direction
  import opened Endpoint
  import opened Network
  import opened StreamTheorems

  /** The smaller of our own segment size and the one offered; an offer of zero is none. */
  function Smaller(own: nat, offered: nat): nat { if 0 < offered < own then offered else own }

  /** A SYN offers the segment size in sixteen bits, and what is enabled. */
  predicate Offers(g: Seg, mss: nat, cfg: Config) {
    && g.opts.mss == Some(mss % 65536) && g.opts.sackPerm == cfg.sackEnabled && g.opts.stamp.Some? == cfg.tsEnabled
    && g.opts.wscale == Some(cfg.rcvShift)
  }

  ghost predicate AllOffer(xs: set<Seg>, mss: nat, cfg: Config) {
    forall g :: g in xs && g.flags.syn ==> Offers(g, mss, cfg)
  }

  /** Nothing settled yet. */
  predicate Fresh(c: Conn, cfg: Config) {
    c.cfg == cfg.(sndShift := 0, wscaleOK := false, sackOK := false, tsOK := false)
  }

  /** Settled with a peer of the given offer. */
  predicate Settles(c: Conn, own: Config, mss: nat, peer: Config) {
    && c.cfg.mss == mss && c.cfg.recvCap == own.recvCap && c.cfg.rcvShift == own.rcvShift
    && c.cfg.sackEnabled == own.sackEnabled && c.cfg.tsEnabled == own.tsEnabled
    && c.cfg.wscaleOK && c.cfg.sndShift == Min(peer.rcvShift, 14)
    && c.cfg.sackOK == (own.sackEnabled && peer.sackEnabled) && c.cfg.tsOK == (own.tsEnabled && peer.tsEnabled)
  }

  lemma NegotiateSettles(c: Conn, own: Config, g: Seg, mss: nat, peer: Config)
    requires Fresh(c, own) && Offers(g, mss, peer)
    ensures Settles(Negotiate(c, g.opts), own, Smaller(own.mss, mss % 65536), peer)
  {
  }

  lemma OffersOwn(c: Conn, e: Env, g: Seg, own: Config)
    requires g.opts == SynOptions(c, e) && c.cfg.sackEnabled == own.sackEnabled && c.cfg.tsEnabled == own.tsEnabled
             && c.cfg.rcvShift == own.rcvShift
    ensures Offers(g, c.cfg.mss, own)
  {
  }

  // ------------------------------------------------------------------ what events send and keep

  /** No event but the SYN's arrival touches the configuration. */
  lemma SynchronizedConfig(c: Conn, seg: Seg, e: Env)
    ensures var d := HandleSynchronized(c, seg, e).c; d.cfg == c.cfg && d.hist.synced == c.hist.synced
  {
    hide ProcessACK, HandleData, AckSeg, HandleRst, Acceptable, SynRcvdOK, TakeWindow, Acknowledge;
    HandleRstCoherent(c, seg, e);
    DataConfig(c, seg, e);
    ProcessACKFrame(c, seg.ack, seg.opts.sack, e);
    TakeWindowFrame(ProcessACK(c, seg.ack, seg.opts.sack, e).c, seg);
    var c1 := c.(snd := Acknowledge(c.snd, seg.ack), retries := 0, state := Established);
    TakeWindowFrame(c1, seg);
    DataConfig(TakeWindow(c1, seg), seg, e);
  }

  lemma DataConfig(c: Conn, seg: Seg, e: Env)
    ensures var d := HandleData(c, seg, e).c; d.cfg == c.cfg && d.hist.synced == c.hist.synced
  {
    hide ProcessACK, Absorb, AckSeg, Stale, TakeWindow;
    var c0 := UpdateStamp(c, seg);
    ProcessACKFrame(c0, seg.ack, seg.opts.sack, e);
    var c1 := ProcessACK(c0, seg.ack, seg.opts.sack, e).c;
    TakeWindowFrame(c1, seg);
    AbsorbFrame(TakeWindow(c1, seg), seg);
  }

  lemma EventConfig(c: Conn, a: Act, e: Env)
    requires !IsOpen(a) && !(a.Deliver? && c.state == SynSent)
    ensures var d := Apply(c, a, e).c; d.cfg == c.cfg && d.hist.synced == c.hist.synced
  {
    hide Flush, Retransmit, HandleSynchronized, Read, Write, Build, SynSeg, SynAckSeg, RcvWindow, PeekUnsent;
    FlushFrame(c, e);
    RetransmitFrame(c.(retries := c.retries + 1, timing := None), e);
    if a.Deliver? { SynchronizedConfig(c, a.seg, e); }
  }

  ghost predicate NoSyn(segs: seq<Seg>) { forall g :: g in segs ==> !g.flags.syn }

  lemma {:induction false} FlushNoSyn(c: Conn, e: Env)
    ensures NoSyn(Flush(c, e).segs)
    decreases if Pending(c.snd) > 0 then Pending(c.snd) else 0
  {
    hide RcvWindow, Options;
    if Quota(c, e) > 0 { FlushNoSyn(OneSegmentIn(c, Quota(c, e)), e); }
  }

  lemma ACKNoSyn(c: Conn, ack: int, sack: seq<Block>, e: Env)
    ensures NoSyn(ProcessACK(c, ack, sack, e).segs)
  {
    hide RcvWindow, Options, RetransmitData, Acked, Mark, Flush;
    FlushNoSyn(Acked(c, ack, sack), e);
  }

  lemma DataNoSyn(c: Conn, seg: Seg, e: Env)
    ensures NoSyn(HandleData(c, seg, e).segs)
  {
    hide RcvWindow, Options, ProcessACK, Absorb, Stale, TakeWindow;
    ACKNoSyn(UpdateStamp(c, seg), seg.ack, seg.opts.sack, e);
  }

  lemma SynchronizedNoSyn(c: Conn, seg: Seg, e: Env)
    ensures NoSyn(HandleSynchronized(c, seg, e).segs)
  {
    hide RcvWindow, Options, ProcessACK, HandleData, Acceptable, SynRcvdOK, TakeWindow, Acknowledge, Window;
    DataNoSyn(c, seg, e);
    ACKNoSyn(c, seg.ack, seg.opts.sack, e);
    DataNoSyn(TakeWindow(c.(snd := Acknowledge(c.snd, seg.ack), retries := 0, state := Established), seg), seg, e);
  }

  lemma SynSentNoSyn(c: Conn, seg: Seg, e: Env)
    requires seg.flags.syn ==> seg.flags.ack
    ensures NoSyn(HandleSynSent(c, seg, e).segs)
  {
    hide RcvWindow, Options, Negotiate, Synchronize, TakeWindow, Flush, Acknowledge;
    var c1 := Synchronize(TakeWindow(Negotiate(c, seg.opts), seg), seg);
    FlushNoSyn(AckTiming(c1.(snd := Acknowledge(c1.snd, seg.ack), retries := 0, state := Established), seg.ack), e);
  }

  /** Only a timeout of the handshake repeats a SYN, with the options of the first. */
  lemma EventSyns(c: Conn, a: Act, e: Env, own: Config)
    requires !IsOpen(a) && (a.Deliver? && c.state == SynSent && a.seg.flags.syn ==> a.seg.flags.ack)
    requires c.cfg.sackEnabled == own.sackEnabled && c.cfg.tsEnabled == own.tsEnabled && c.cfg.rcvShift == own.rcvShift
    ensures forall g :: g in Apply(c, a, e).segs && g.flags.syn ==>
              Offers(g, c.cfg.mss, own) && (c.state == SynSent || c.state == SynReceived)
  {
    hide Flush, HandleSynchronized, HandleSynSent, RcvWindow, Options, PeekUnsent, RetransmitData, Read, Write,
        Offers, SynOptions;
    FlushNoSyn(c, e);
    var c1 := c.(retries := c.retries + 1, timing := None);
    OffersOwn(c1, e, SynSeg(c1, e), own);
    OffersOwn(c1, e, SynAckSeg(c1, e), own);
    if a.Deliver? {
      SynchronizedNoSyn(c, a.seg, e);
      if c.state == SynSent { SynSentNoSyn(c, a.seg, e); }
    }
  }

  // ------------------------------------------------------------------------- over runs

  /** What the ends have settled so far, a of configuration m and b of configuration n. */
  ghost predicate Agreed(w: World, m: Config, n: Config) {
    var size := Smaller(n.mss, m.mss % 65536);
    && AllOffer(w.ab, m.mss, m) && AllOffer(w.ba, size, n)
    && (w.accepted ==> Settles(w.b, n, size, m)) && (!w.accepted ==> Fresh(w.b, n))
    && w.a.state != SynReceived
    && (if w.a.hist.synced then Settles(w.a, m, Smaller(m.mss, size % 65536), n) else Fresh(w.a, m))
  }

  lemma StartAgreed(cfgA: Config, cfgB: Config, iss: int, e: Env)
    ensures Agreed(Start(cfgA, cfgB, iss, e), cfgA, cfgB)
  {
    hide RcvWindow;
  }

  lemma SynSentConfig(c: Conn, seg: Seg, e: Env, own: Config, mss: nat, peer: Config)
    requires Fresh(c, own) && c.state == SynSent && !c.hist.synced
    requires seg.flags.syn ==> seg.flags.ack && Offers(seg, mss, peer)
    ensures var d := HandleSynSent(c, seg, e).c;
            && d.state != SynReceived
            && if d.hist.synced then Settles(d, own, Smaller(own.mss, mss % 65536), peer) else Fresh(d, own)
  {
    hide AckSeg, Flush, TakeWindow, Acknowledge, Insert, Negotiate, Offers, SynAckSeg;
    NegotiateFrame(c, seg.opts);
    var c0 := Negotiate(c, seg.opts);
    TakeWindowFrame(c0, seg);
    var c1 := Synchronize(TakeWindow(c0, seg), seg);
    FlushFrame(AckTiming(c1.(snd := Acknowledge(c1.snd, seg.ack), retries := 0, state := Established), seg.ack), e);
    if seg.flags.syn { NegotiateSettles(c, own, seg, mss, peer); }
  }

  /** The connecting side, one event. */
  lemma ConnectorAgrees(c: Conn, a: Act, e: Env, ps: set<Seg>, m: Config, size: nat, n: Config)
    requires Possible(a, ps) && AllOffer(ps, size, n) && (forall g :: g in ps && g.flags.syn ==> g.flags.ack)
    requires Coherent(c) && c.state != SynReceived && (c.state == SynSent ==> !c.hist.synced)
    requires if c.hist.synced then Settles(c, m, Smaller(m.mss, size % 65536), n) else Fresh(c, m)
    ensures var o := Apply(c, a, e);
            && o.c.state != SynReceived && (forall g :: g in o.segs && g.flags.syn ==> Offers(g, m.mss, m))
            && if o.c.hist.synced then Settles(o.c, m, Smaller(m.mss, size % 65536), n) else Fresh(o.c, m)
  {
    hide Offers, Coherent, HandleSynSent, HandleSynchronized, Flush, Close, OnRTO, OnPersist, OnKeepalive, Abort,
        Read, Write;
    EventSyns(c, a, e, m);
    if a.Deliver? && c.state == SynSent {
      SynSentConfig(c, a.seg, e, m, size, n);
    } else {
      EventConfig(c, a, e);
      NeverReceived(c, a, e);
    }
  }

  lemma NeverReceived(c: Conn, a: Act, e: Env)
    requires Coherent(c) && c.state != SynReceived && !(a.Deliver? && c.state == SynSent) && !IsOpen(a)
    ensures Apply(c, a, e).c.state != SynReceived
  {
    hide Apply, Coherent;
    StepSafe(c, a, e);
  }

  lemma AcceptorAgrees(b: Conn, syn: Seg, iss: int, e: Env, m: Config, n: Config)
    requires Fresh(b, n) && Offers(syn, m.mss, m) && b.state == Closed
    ensures var o := AcceptSYN(b, syn, iss, e);
            var size := Smaller(n.mss, m.mss % 65536);
            Settles(o.c, n, size, m) && |o.segs| == 1 && Offers(o.segs[0], size, n)
  {
    hide Insert, Negotiate, Offers, RcvWindow, SynOptions;
    NegotiateSettles(b, n, syn, m.mss, m);
    NegotiateFrame(b, syn.opts);
    var c1 := Negotiate(b, syn.opts).(snd := NewSend(b.cfg.sendCap, iss), rcv := NewRecv(syn.pos + 1, b.cfg.recvCap),
                                      state := SynReceived, hist := Opened(b.hist, true));
    OffersOwn(c1, e, SynAckSeg(c1, e), n);
  }

  lemma MoreOffers(xs: set<Seg>, segs: seq<Seg>, mss: nat, cfg: Config)
    requires AllOffer(xs, mss, cfg) && forall g :: g in segs && g.flags.syn ==> Offers(g, mss, cfg)
    ensures AllOffer(xs + SegSet(segs), mss, cfg)
  {
    hide Offers;
  }

  lemma NextAgreed(w: World, ev: Event, m: Config, n: Config)
    requires Inv(w) && Agreed(w, m, n)
    ensures Agreed(Next(w, ev), m, n)
  {
    match ev
    case AtA(a, e) => if Possible(a, w.ba) { AtAAgreed(w, a, e, m, n); }
    case AtB(a, e) => if Possible(a, w.ab) { AtBAgreed(w, a, e, m, n); }
    case Accept(syn, iss, e) => if !w.accepted { AcceptAgreed(w, syn, iss, e, m, n); }
  }

  lemma AtAAgreed(w: World, a: Act, e: Env, m: Config, n: Config)
    requires Inv(w) && Agreed(w, m, n) && Possible(a, w.ba)
    ensures Agreed(Next(w, AtA(a, e)), m, n)
  {
    hide Apply, Noted, Offers, Coherent, DirInv, Settles, Fresh;
    var size := Smaller(n.mss, m.mss % 65536);
    var o := Apply(w.a, a, e);
    if !w.accepted { WaitingCoherent(w.a, w.da.base); }
    ConnectorAgrees(w.a, a, e, w.ba, m, size, n);
    NotedKeeps(w.a, LinkA(w), a);
    MoreOffers(w.ab, o.segs, m.mss, m);
  }

  lemma AtBAgreed(w: World, a: Act, e: Env, m: Config, n: Config)
    requires Inv(w) && Agreed(w, m, n) && Possible(a, w.ab)
    ensures Agreed(Next(w, AtB(a, e)), m, n)
  {
    hide Apply, Noted, Offers, Coherent, DirInv;
    var size := Smaller(n.mss, m.mss % 65536);
    var o := Apply(w.b, a, e);
    NotedKeeps(w.b, LinkB(w), a);
    if w.accepted {
      NotActive(w.b, LinkB(w));
      EventSyns(w.b, a, e, n);
      EventConfig(w.b, a, e);
    } else {
      IdleEvent(w.b, a, e);
    }
    MoreOffers(w.ba, o.segs, size, n);
  }

  lemma AcceptAgreed(w: World, syn: Seg, iss: int, e: Env, m: Config, n: Config)
    requires Inv(w) && Agreed(w, m, n) && !w.accepted
    ensures Agreed(Next(w, Accept(syn, iss, e)), m, n)
  {
    hide AcceptSYN, Offers, Settles;
    if syn in w.ab && syn.flags.syn {
      AcceptorAgrees(w.b, syn, iss, e, m, n);
      var o := AcceptSYN(w.b, syn, iss, e);
      assert o.segs == [o.segs[0]];
      MoreOffers(w.ba, o.segs, Smaller(n.mss, m.mss % 65536), n);
    }
  }

  lemma {:induction false} ExecAgreed(w: World, evs: seq<Event>, m: Config, n: Config)
    requires Inv(w) && Agreed(w, m, n)
    ensures Agreed(Exec(w, evs), m, n)
    decreases evs
  {
    hide Next, Inv, Agreed;
    if evs != [] {
      NextInv(w, evs[0]);
      NextAgreed(w, evs[0], m, n);
      ExecAgreed(Next(w, evs[0]), evs[1..], m, n);
    }
  }

  /**
   In every run, once the connecting side has seen the SYN-ACK: both use the smaller segment size,
   each shifts windows as the other asked, and SACK and timestamps are on at both ends exactly if
   both ends enable them.
   */
  lemma BothAgree(cfgA: Config, cfgB: Config, iss: int, e: Env, evs: seq<Event>)
    requires Usable(cfgA) && Usable(cfgB) && 0 < cfgA.mss < 65536 && 0 < cfgB.mss < 65536
    ensures var w := WorldAfter(cfgA, cfgB, iss, e, evs);
            w.accepted && w.a.hist.synced ==>
              && w.a.cfg.mss == w.b.cfg.mss == Min(cfgA.mss, cfgB.mss)
              && w.a.cfg.sackOK == w.b.cfg.sackOK == (cfgA.sackEnabled && cfgB.sackEnabled)
              && w.a.cfg.tsOK == w.b.cfg.tsOK == (cfgA.tsEnabled && cfgB.tsEnabled)
              && w.a.cfg.sndShift == w.b.cfg.rcvShift == cfgB.rcvShift
              && w.b.cfg.sndShift == w.a.cfg.rcvShift == cfgA.rcvShift
  {
    hide Start, Inv, Exec, AllOffer;
    StartInv(cfgA, cfgB, iss, e);
    StartAgreed(cfgA, cfgB, iss, e);
    ExecAgreed(Start(cfgA, cfgB, iss, e), evs, cfgA, cfgB);
  }
}
