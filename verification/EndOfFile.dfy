/**
 The end of the stream as a reader sees it: Read answers EOF exactly when nothing is left to read
 and the peer's FIN was consumed or the connection was torn down; and what a reader has got then.
 */
module EndOfFile {
  import opened SeqSpace
  import opened RecvModel
  import opened SendModel
  import opened ConnModel
  import opened ConnStates
  import opened SegmentRules
  import opened Direction
  import opened Endpoint
  import opened Network
  import opened StreamTheorems
  import opened CloseTheorems

  /** The reader's flag is up exactly for a consumed FIN, and otherwise only on a connection that was torn down. */
  ghost predicate Signalled(c: Conn) {
    (c.hist.finsIn > 0 ==> c.finRecvd) && (c.finRecvd ==> c.hist.finsIn > 0 || c.closed)
  }

  lemma ConsumeSignals(c: Conn)
    requires c.state in {Established, FinWait1, FinWait2} || c.finRecvd
    ensures var d := ConsumeFin(c); d.finRecvd && d.hist.finsIn > 0 && d.closed == c.closed
  {
  }

  lemma AbsorbSignalled(c: Conn, seg: Seg)
    requires Signalled(c) && c.state in {Established, FinWait1, FinWait2}
    ensures Signalled(Absorb(c, seg)) && Absorb(c, seg).closed == c.closed
  {
    hide Insert, ConsumeFin;
    var c1 := c.(rcv := Insert(c.rcv, seg.pos, seg.payload));
    ConsumeSignals(c1.(deferred := None));
    ConsumeSignals(if seg.payload != [] then ProcessData(c, seg) else c);
  }

  lemma DataSignalled(c: Conn, seg: Seg, e: Env)
    requires Signalled(c) && c.state in {Established, FinWait1, FinWait2}
    ensures Signalled(HandleData(c, seg, e).c)
  {
    hide ProcessACK, Absorb, AckSeg, Stale, TakeWindow;
    var c0 := UpdateStamp(c, seg);
    ProcessACKFrame(c0, seg.ack, seg.opts.sack, e);
    var c1 := ProcessACK(c0, seg.ack, seg.opts.sack, e).c;
    TakeWindowFrame(c1, seg);
    AbsorbSignalled(TakeWindow(c1, seg), seg);
  }

  lemma SynchronizedSignalled(c: Conn, seg: Seg, e: Env)
    requires Signalled(c)
    ensures Signalled(HandleSynchronized(c, seg, e).c)
  {
    hide ProcessACK, HandleData, AckSeg, HandleRst, Acceptable, SynRcvdOK, TakeWindow, Acknowledge;
    HandleRstCoherent(c, seg, e);
    if c.state in {Established, FinWait1, FinWait2} { DataSignalled(c, seg, e); }
    ProcessACKFrame(c, seg.ack, seg.opts.sack, e);
    TakeWindowFrame(ProcessACK(c, seg.ack, seg.opts.sack, e).c, seg);
    var c1 := c.(snd := Acknowledge(c.snd, seg.ack), retries := 0, state := Established);
    TakeWindowFrame(c1, seg);
    DataSignalled(TakeWindow(c1, seg), seg, e);
  }

  lemma SynSentSignalled(c: Conn, seg: Seg, e: Env)
    requires Signalled(c)
    ensures Signalled(HandleSynSent(c, seg, e).c)
  {
    hide AckSeg, SynAckSeg, Flush, TakeWindow, Acknowledge, Insert, Negotiate;
    NegotiateFrame(c, seg.opts);
    TakeWindowFrame(Negotiate(c, seg.opts), seg);
    var c1 := Synchronize(TakeWindow(Negotiate(c, seg.opts), seg), seg);
    FlushFrame(AckTiming(c1.(snd := Acknowledge(c1.snd, seg.ack), retries := 0, state := Established), seg.ack), e);
  }

  lemma EventSignalled(c: Conn, a: Act, e: Env)
    requires Signalled(c) && !IsOpen(a)
    ensures Signalled(Apply(c, a, e).c)
    ensures c.state == Closed ==> Apply(c, a, e).c.hist.finsIn == c.hist.finsIn
  {
    hide Flush, Retransmit, HandleSynchronized, HandleSynSent, Read, Write, Build, SynSeg, SynAckSeg, RcvWindow,
        PeekUnsent;
    FlushFrame(c, e);
    RetransmitFrame(c.(retries := c.retries + 1, timing := None), e);
    if a.Deliver? {
      SynchronizedSignalled(c, a.seg, e);
      SynSentSignalled(c, a.seg, e);
    }
  }

  // --------------------------------------------------------------------------- one life

  lemma {:induction false} RunSignalled(c: Conn, acts: seq<(Act, Env)>)
    requires Signalled(c) && NoOpens(acts)
    ensures Signalled(Run(c, acts))
    decreases acts
  {
    hide Apply, Signalled;
    if acts != [] {
      EventSignalled(c, acts[0].0, acts[0].1);
      RunSignalled(Apply(c, acts[0].0, acts[0].1).c, acts[1..]);
    }
  }

  /**
   Over every life, Read gives bytes exactly while some are buffered; after that EOF exactly if the
   peer's FIN was consumed or the connection is closed; otherwise it waits.
   */
  lemma ReadExactly(cfg: Config, open: Act, e0: Env, acts: seq<(Act, Env)>, n: nat)
    requires IsOpen(open) && NoOpens(acts)
    ensures var c := Run(NewConn(cfg), [(open, e0)] + acts);
            && (ReadAnswer(c, n).Got? <==> c.rcv.buf != [])
            && (ReadAnswer(c, n).Got? ==> ReadAnswer(c, n).bytes + Read(c.rcv, n).buf == c.rcv.buf
                                          && |ReadAnswer(c, n).bytes| == Min(n, |c.rcv.buf|))
            && (ReadAnswer(c, n) == Eof <==> c.rcv.buf == [] && (c.hist.finsIn > 0 || c.closed))
  {
    hide Apply, Read;
    OpenSignalled(cfg, open, e0);
    assert ([(open, e0)] + acts)[1..] == acts;
    RunSignalled(Apply(NewConn(cfg), open, e0).c, acts);
    ReadTakes(Run(NewConn(cfg), [(open, e0)] + acts).rcv, n);
  }

  lemma OpenSignalled(cfg: Config, open: Act, e: Env)
    requires IsOpen(open)
    ensures Signalled(Apply(NewConn(cfg), open, e).c)
  {
    hide RcvWindow, SynOptions, Insert;
  }

  lemma ReadTakes(r: Recv, n: nat)
    ensures r.buf[..Min(n, |r.buf|)] + Read(r, n).buf == r.buf
  {
  }

  // ------------------------------------------------------------------------ two endpoints

  ghost predicate BothSignalled(w: World) {
    Signalled(w.a) && Signalled(w.b) && (!w.accepted ==> w.b.hist.finsIn == 0 && w.b.state == Closed)
  }

  lemma NextSignalled(w: World, ev: Event)
    requires Inv(w) && BothSignalled(w)
    ensures BothSignalled(Next(w, ev))
  {
    hide Apply, Emit, Noted, Joined, AcceptSYN, Signalled;
    NextInv(w, ev);
    match ev
    case AtA(a, e) => if Possible(a, w.ba) { EventSignalled(w.a, a, e); }
    case AtB(a, e) => if Possible(a, w.ab) { EventSignalled(w.b, a, e); }
    case Accept(syn, iss, e) => if !w.accepted { AcceptSignalled(w.b, syn, iss, e); }
  }

  lemma AcceptSignalled(b: Conn, syn: Seg, iss: int, e: Env)
    requires Signalled(b) && b.hist.finsIn == 0
    ensures Signalled(AcceptSYN(b, syn, iss, e).c)
  {
    hide Insert, Negotiate, SynAckSeg;
    NegotiateFrame(b, syn.opts);
  }

  lemma {:induction false} ExecSignalled(w: World, evs: seq<Event>)
    requires Inv(w) && BothSignalled(w)
    ensures BothSignalled(Exec(w, evs))
    decreases evs
  {
    hide Next, Inv, BothSignalled;
    if evs != [] {
      NextInv(w, evs[0]);
      NextSignalled(w, evs[0]);
      ExecSignalled(Next(w, evs[0]), evs[1..]);
    }
  }

  lemma StartSignalled(cfgA: Config, cfgB: Config, iss: int, e: Env)
    ensures BothSignalled(Start(cfgA, cfgB, iss, e))
  {
    hide RcvWindow, SynOptions;
  }

  lemma PeerSignalled(cfgA: Config, cfgB: Config, iss: int, e: Env, evs: seq<Event>, side: bool, f: Env,
      later: seq<Event>)
    requires Usable(cfgA) && Usable(cfgB)
    ensures Signalled(Mine(AfterClose(WorldAfter(cfgA, cfgB, iss, e, evs), side, f, later), side).peer)
  {
    hide Inv, Signalled, Next, Start, Exec;
    StartSignalled(cfgA, cfgB, iss, e);
    StartInv(cfgA, cfgB, iss, e);
    ExecSignalled(Start(cfgA, cfgB, iss, e), evs);
    AfterInv(cfgA, cfgB, iss, e, evs);
    var w := WorldAfter(cfgA, cfgB, iss, e, evs);
    NextInv(w, Happens(side, Shut, f));
    NextSignalled(w, Happens(side, Shut, f));
    ExecSignalled(Next(w, Happens(side, Shut, f)), later);
  }

  /** What a reader whose connection was not torn down has at EOF: the FIN was consumed and all before it was read. */
  lemma EofMeans(c: Conn, n: nat)
    requires Signalled(c) && ReadAnswer(c, n) == Eof && !c.closed
    ensures c.hist.finsIn > 0 && c.rcv.buf == []
  {
  }

  /**
   After a clean close, in every run: a reader that gets EOF on a connection not torn down has read exactly
   what was written.
   */
  lemma CleanEof(cfgA: Config, cfgB: Config, iss: int, e: Env, evs: seq<Event>, side: bool, f: Env,
      later: seq<Event>, n: nat)
    requires Usable(cfgA) && Usable(cfgB)
    requires var w := WorldAfter(cfgA, cfgB, iss, e, evs);
             w.accepted && Closable(Me(w, side)) && AllGoesOut(Me(w, side), f)
    ensures var w := WorldAfter(cfgA, cfgB, iss, e, evs);
            var l := Mine(AfterClose(w, side, f, later), side);
            ReadAnswer(l.peer, n) == Eof && !l.peer.closed ==> l.out.read == l.out.written == Mine(w, side).out.written
  {
    hide WorldAfter, AfterClose, AllGoesOut, Closable, ReadAnswer, Signalled;
    PeerSignalled(cfgA, cfgB, iss, e, evs, side, f, later);
    CleanClose(cfgA, cfgB, iss, e, evs, side, f, later);
    var l := Mine(AfterClose(WorldAfter(cfgA, cfgB, iss, e, evs), side, f, later), side);
    if ReadAnswer(l.peer, n) == Eof && !l.peer.closed {
      EofMeans(l.peer, n);
      assert l.out.read + [] == l.out.read;
    }
  }

  /**
   And after any close: a reader that gets EOF by the FIN Close queued has read all but exactly the
   bytes left behind, so all of it exactly if everything went out before the FIN.
   */
  lemma EofExactly(cfgA: Config, cfgB: Config, iss: int, e: Env, evs: seq<Event>, side: bool, f: Env,
      later: seq<Event>, n: nat)
    requires Usable(cfgA) && Usable(cfgB)
    requires var w := WorldAfter(cfgA, cfgB, iss, e, evs); w.accepted && Closable(Me(w, side))
    ensures var w := WorldAfter(cfgA, cfgB, iss, e, evs);
            var x, l := Me(w, side), Mine(AfterClose(w, side, f, later), side);
            ReadAnswer(l.peer, n) == Eof && !l.peer.closed && l.peer.rcv.nxt - 1 == FinOf(x, f).pos ==>
              && l.out.read <= l.out.written && |l.out.read| == |l.out.written| - LeftBehind(x, f)
              && (l.out.read == l.out.written <==> AllGoesOut(x, f))
  {
    hide WorldAfter, AfterClose, AllGoesOut, Closable, ReadAnswer, Signalled, LeftBehind, FinOf;
    PeerSignalled(cfgA, cfgB, iss, e, evs, side, f, later);
    CloseCompleteExactly(cfgA, cfgB, iss, e, evs, side, f, later);
    var l := Mine(AfterClose(WorldAfter(cfgA, cfgB, iss, e, evs), side, f, later), side);
    if ReadAnswer(l.peer, n) == Eof && !l.peer.closed {
      EofMeans(l.peer, n);
      assert l.out.read + [] == l.out.read;
    }
  }
}
