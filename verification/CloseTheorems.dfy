/**
 Closing: where the FIN stands, when nothing is lost, and how much Close leaves behind,
 told from the state before the call.
 */
module CloseTheorems {
  import opened SeqSpace
  import opened RecvModel
  import opened SendModel
  import opened ConnModel
  import opened ConnStates
  import opened Direction
  import opened Endpoint
  import opened Network
  import opened StreamTheorems
  import opened Sending

  // ------------------------------------------------------------- where the FIN stands

  /** Close queues our first FIN in these states. */
  predicate Closable(x: Conn) { CanWrite(x) || (!x.closed && x.state == SynReceived) }

  /** What a flush leaves of p pending bytes with u in flight, under a window w. */
  function LeftOver(u: int, p: int, w: nat, mss: nat): int {
    if p <= 0 || w <= u || mss == 0 then p
    else if u == 0 && Min(w, p) < mss then p - Min(w, p)
    else p - mss * Min((w - u) / mss, p / mss)
  }

  /** The bytes Close leaves behind its FIN, told before the call; it flushes first only in ESTABLISHED. */
  function LeftBehind(x: Conn, f: Env): int {
    match x.state
    case Established => LeftOver(Unacked(x.snd), Pending(x.snd), Min(x.sndWnd, f.cwnd), x.cfg.mss)
    case SynReceived => 0
    case _ => Pending(x.snd)
  }

  /**
   Close sends everything before its FIN: nothing is pending, or in ESTABLISHED the windows have
   room for it all and it is whole segments, or one short segment with nothing in flight.
   */
  predicate AllGoesOut(x: Conn, f: Env) {
    var u, p, mss := Unacked(x.snd), Pending(x.snd), x.cfg.mss;
    || p <= 0
    || (x.state == Established && mss > 0 && u + p <= Min(x.sndWnd, f.cwnd) && (p % mss == 0 || (u == 0 && p < mss)))
  }

  /** One full segment of a flush. */
  lemma FullSegment(u: nat, p: int, w: nat, mss: nat)
    requires 0 < mss <= p && u + mss <= w
    ensures LeftOver(u, p, w, mss) == LeftOver(u + mss, p - mss, w, mss)
  {
    OneLess(p, mss);
    OneLess(w - u, mss);
    var k := Min((w - u) / mss, p / mss);
    assert mss * (k - 1) == mss * k - mss;
    if p == mss || w - u == mss { QuotientIs(mss, mss, 1, 0); AtLeastOnce(p, mss); AtLeastOnce(w - u, mss); }
  }

  lemma OneLess(n: int, m: nat)
    requires 0 < m <= n
    ensures (n - m) / m == n / m - 1
  {
    assert n == m * (n / m) + n % m;
    assert n - m == m * (n / m - 1) + n % m;
    QuotientIs(n - m, m, n / m - 1, n % m);
  }

  lemma AtLeastOnce(n: int, m: nat)
    requires 0 < m <= n
    ensures n / m >= 1
  {
    OneLess(n, m);
  }

  lemma QuotientIs(n: int, m: nat, q: int, r: int)
    requires m > 0 && n == m * q + r && 0 <= r < m
    ensures n / m == q
  {
    var d := n / m;
    Spread(m, d, q);
    assert n == m * d + n % m;
  }

  /** Multiples of m of different numbers lie at least m apart. */
  lemma Spread(m: nat, a: int, b: int)
    ensures a < b ==> m * a + m <= m * b
    ensures b < a ==> m * b + m <= m * a
  {
    if a < b { MulOrder(m, a + 1, b); } else if b < a { MulOrder(m, b + 1, a); }
  }

  lemma MulOrder(m: nat, a: int, b: int)
    requires a <= b
    ensures m * a <= m * b
  {
  }

  /** The closed form is what a flush leaves pending. */
  lemma {:induction false} FlushLeaves(c: Conn, e: Env)
    ensures Pending(Flush(c, e).c.snd) == LeftOver(Unacked(c.snd), Pending(c.snd), Min(c.sndWnd, e.cwnd), c.cfg.mss)
    decreases if Pending(c.snd) > 0 then Pending(c.snd) else 0
  {
    hide Build, Flush, LeftOver;
    var n := Quota(c, e);
    if n == 0 {
      FlushIdle(c, e);
      NoneGoes(Unacked(c.snd), Pending(c.snd), Min(c.sndWnd, e.cwnd), c.cfg.mss);
    } else {
      FirstSegment(c, e);
      FlushLeaves(OneSegmentIn(c, n), e);
      if n == c.cfg.mss {
        FullSegment(Unacked(c.snd), Pending(c.snd), Min(c.sndWnd, e.cwnd), n);
      } else {
        ShortSegment(Pending(c.snd), Min(c.sndWnd, e.cwnd), c.cfg.mss);
      }
    }
  }

  lemma NoneGoes(u: int, p: int, w: nat, mss: nat)
    requires u >= 0
    requires var n := Min(w - u, Min(mss, p)); n <= 0 || (n < mss && u > 0)
    ensures LeftOver(u, p, w, mss) == p
  {
    if 0 < p && u < w && 0 < mss {
      if p < mss { QuotientIs(p, mss, 0, p); } else { QuotientIs(w - u, mss, 0, w - u); AtLeastOnce(p, mss); }
    }
  }

  lemma ShortSegment(p: int, w: nat, mss: nat)
    requires 0 < p && 0 < w && Min(w, p) < mss
    ensures LeftOver(0, p, w, mss) == LeftOver(Min(w, p), p - Min(w, p), w, mss)
  {
  }

  /** Nothing is left behind exactly when everything goes out. */
  lemma NothingLeft(x: Conn, f: Env)
    requires Closable(x) && (x.state == SynReceived ==> Pending(x.snd) <= 0)
    ensures LeftBehind(x, f) <= 0 <==> AllGoesOut(x, f)
  {
    var u, p, w, mss := Unacked(x.snd), Pending(x.snd), Min(x.sndWnd, f.cwnd), x.cfg.mss;
    if x.state == Established && p > 0 && u < w && mss > 0 && !(u == 0 && Min(w, p) < mss) {
      WholeSegments(w - u, p, mss);
      if p < mss { QuotientIs(p, mss, 0, p); }
    }
  }

  lemma WholeSegments(room: nat, p: nat, mss: nat)
    requires mss > 0
    ensures p - mss * Min(room / mss, p / mss) <= 0 <==> p <= room && p % mss == 0
  {
    var a, b := room / mss, p / mss;
    assert p == mss * b + p % mss && room == mss * a + room % mss;
    Spread(mss, a, b);
  }

  /** x closed k bytes before the end of what was written. */
  ghost predicate ClosedShort(x: Conn, d: Dir, k: int) { x.hist.finOut == Some(d.base + |d.written| - k) }

  /** While no FIN was sent, what is pending lies between SND.NXT and the end of the stream. */
  lemma PendingPlace(d: Dir, s: Send, nxt: int)
    requires SndOk(d, s) && d.fins == {} && d.base <= s.una
    ensures d.base + |d.written| - nxt == |s.buf| - (nxt - s.una)
  {
  }

  lemma WriterSnd(x: Conn, l: Link)
    requires Dirs(x, l) && Settled(x, l) && Closable(x)
    ensures SndOk(l.out, x.snd) && l.out.fins == {} && x.hist.finOut == None
    ensures CanWrite(x) ==> l.out.base <= x.snd.una
    ensures x.state == SynReceived ==> x.snd.una == l.out.base - 1
  {
    hide SndOk, RcvOk, AcksOk, DataOk, AckOk;
  }

  lemma OpeningPlace(d: Dir, s: Send)
    requires SndOk(d, s) && d.fins == {} && s.una == d.base - 1
    ensures d.written == [] && s.nxt == d.base && s.buf == []
  {
  }

  /** The FIN that Close queues stands exactly as far before the end of the stream as bytes are left behind. */
  lemma CloseFinPlace(x: Conn, l: Link, e: Env)
    requires Dirs(x, l) && Settled(x, l) && Closable(x)
    ensures ClosedShort(Close(x, e).c, l.out, LeftBehind(x, e)) && LeftBehind(x, e) >= 0
    ensures LeftBehind(x, e) == 0 <==> AllGoesOut(x, e)
  {
    hide Dirs, Settled, SndOk, Flush, Build, LeftOver;
    WriterSnd(x, l);
    FlushFrame(x, e);
    if x.state == SynReceived {
      OpeningPlace(l.out, x.snd);
    } else {
      PendingPlace(l.out, x.snd, x.snd.nxt);
      PendingPlace(l.out, x.snd, Flush(x, e).c.snd.nxt);
      SentWritten(l.out, x.snd);
      FlushWritten(x, e);
      if x.state == Established { FlushLeaves(x, e); }
    }
    NothingLeft(x, e);
  }

  lemma SentWritten(d: Dir, s: Send)
    requires SndOk(d, s) && d.fins == {}
    ensures s.nxt <= d.base + |d.written|
  {
  }

  lemma FlushWritten(x: Conn, e: Env)
    ensures Pending(x.snd) >= 0 ==> Pending(Flush(x, e).c.snd) >= 0
  {
    hide Flush;
    FlushPayload(x, e);
    FlushFrame(x, e);
  }

  // ------------------------------------------------------------- after the close

  /** Nothing more was written since l, and what was sent is still on the network. */
  ghost predicate SameStream(l: Link, m: Link) {
    m.out.written == l.out.written && m.out.base == l.out.base && l.xs <= m.xs
  }

  /** After a close nothing more is written and the first FIN stays. */
  lemma ShortStays(w: World, side: bool, ev: Event, k: int)
    requires Inv(w) && w.accepted && ClosedShort(Me(w, side), Mine(w, side).out, k)
    ensures var v := Next(w, ev);
            && v.accepted && SameStream(Mine(w, side), Mine(v, side)) && ClosedShort(Me(v, side), Mine(v, side).out, k)
  {
    hide Apply, Emit, Dirs, Settled, Noted;
    match ev
    case AtA(a, e) =>
      if Possible(a, w.ba) {
        EventCaps(w.a, a, e);
        NotedKeeps(w.a, LinkA(w), a);
        if side { NoWrite(w.a, LinkA(w), a); } else { PeerNoted(w.a, LinkA(w), a); }
        EmitWritten(Noted(w.a, LinkA(w), a), Apply(w.a, a, e).segs);
      }
    case AtB(a, e) =>
      if Possible(a, w.ab) {
        EventCaps(w.b, a, e);
        NotedKeeps(w.b, LinkB(w), a);
        if side { PeerNoted(w.b, LinkB(w), a); } else { NoWrite(w.b, LinkB(w), a); }
        EmitWritten(Noted(w.b, LinkB(w), a), Apply(w.b, a, e).segs);
      }
    case Accept(_, _, _) =>
  }

  lemma NoWrite(x: Conn, l: Link, a: Act)
    requires Settled(x, l) && x.hist.finOut.Some?
    ensures Noted(x, l, a).out == l.out
  {
    if CanWrite(x) { WriterFinless(x); }
  }

  lemma PeerNoted(x: Conn, l: Link, a: Act)
    ensures Noted(x, l, a).inn.written == l.inn.written && Noted(x, l, a).inn.base == l.inn.base
  {
    hide WriteCount;
  }

  lemma EmitWritten(l: Link, segs: seq<Seg>)
    ensures var m := Emit(l, segs);
            m.out.written == l.out.written && m.out.base == l.out.base && m.inn.written == l.inn.written
                && m.inn.base == l.inn.base && l.xs <= m.xs && m.ps == l.ps
  {
  }

  lemma {:induction false} ShortRun(w: World, side: bool, evs: seq<Event>, k: int)
    requires Inv(w) && w.accepted && ClosedShort(Me(w, side), Mine(w, side).out, k)
    ensures var v := Exec(w, evs);
            && Inv(v) && v.accepted && SameStream(Mine(w, side), Mine(v, side))
            && ClosedShort(Me(v, side), Mine(v, side).out, k)
    decreases evs
  {
    hide Next, Inv, ClosedShort, Me, Mine;
    if evs != [] {
      NextInv(w, evs[0]);
      ShortStays(w, side, evs[0], k);
      ShortRun(Next(w, evs[0]), side, evs[1..], k);
    }
  }

  lemma ShutNext(w: World, side: bool, f: Env)
    ensures var v := Next(w, Happens(side, Shut, f));
            && Me(v, side) == Close(Me(w, side), f).c && v.accepted == w.accepted
            && Mine(v, side) == Emit(Mine(w, side), Close(Me(w, side), f).segs)
            && Mine(v, side).out.written == Mine(w, side).out.written
            && Mine(v, side).out.base == Mine(w, side).out.base
  {
    hide Close, Emit;
    EmitWritten(Mine(w, side), Close(Me(w, side), f).segs);
    EmitKeeps(Mine(w, side), Close(Me(w, side), f).segs);
  }

  /** The world after a close and any events that follow. */
  function AfterClose(w: World, side: bool, f: Env, later: seq<Event>): World {
    Exec(Next(w, Happens(side, Shut, f)), later)
  }

  lemma AfterCloseIs(cfgA: Config, cfgB: Config, iss: int, e: Env, evs: seq<Event>, side: bool, f: Env,
                     later: seq<Event>)
    requires Usable(cfgA) && Usable(cfgB)
    requires var w := WorldAfter(cfgA, cfgB, iss, e, evs); w.accepted && Closable(Me(w, side))
    ensures var w := WorldAfter(cfgA, cfgB, iss, e, evs);
            var v := AfterClose(w, side, f, later);
            && Inv(v) && v.accepted && SameStream(Mine(Next(w, Happens(side, Shut, f)), side), Mine(v, side))
            && Mine(v, side).out.written == Mine(w, side).out.written
            && Mine(v, side).out.base == Mine(w, side).out.base
            && Dirs(Me(v, side), Mine(v, side))
            && ClosedShort(Me(v, side), Mine(v, side).out, LeftBehind(Me(w, side), f))
            && (LeftBehind(Me(w, side), f) == 0 <==> AllGoesOut(Me(w, side), f))
  {
    hide WorldAfter, Inv, Dirs, Settled, LeftBehind, AllGoesOut, Next, Me, Mine, Close, Closable;
    AfterInv(cfgA, cfgB, iss, e, evs);
    var w := WorldAfter(cfgA, cfgB, iss, e, evs);
    MineDirs(w, side);
    CloseFinPlace(Me(w, side), Mine(w, side), f);
    ShutNext(w, side, f);
    NextInv(w, Happens(side, Shut, f));
    ShortRun(Next(w, Happens(side, Shut, f)), side, later, LeftBehind(Me(w, side), f));
    MineDirs(AfterClose(w, side, f, later), side);
  }

  /**
   Clean close, at either endpoint and from every state that queues a FIN: if everything goes out
   before the FIN, then in every run after it, once the peer consumed a FIN in order - early, deferred or
   repeated - the peer has read or buffered exactly what was written.
   */
  lemma CleanClose(cfgA: Config, cfgB: Config, iss: int, e: Env, evs: seq<Event>, side: bool, f: Env, later: seq<Event>)
    requires Usable(cfgA) && Usable(cfgB)
    requires var w := WorldAfter(cfgA, cfgB, iss, e, evs);
             w.accepted && Closable(Me(w, side)) && AllGoesOut(Me(w, side), f)
    ensures var w := WorldAfter(cfgA, cfgB, iss, e, evs);
            var l := Mine(AfterClose(w, side, f, later), side);
            && l.out.written == Mine(w, side).out.written
            && (l.peer.hist.finsIn > 0 ==> l.out.read + l.peer.rcv.buf == l.out.written)
  {
    hide WorldAfter, Dirs, LeftBehind, AllGoesOut, AfterClose, Closable;
    AfterCloseIs(cfgA, cfgB, iss, e, evs, side, f, later);
    var w := WorldAfter(cfgA, cfgB, iss, e, evs);
    var v := AfterClose(w, side, f, later);
    if Mine(v, side).peer.hist.finsIn > 0 { StreamAtFin(Me(v, side), Mine(v, side)); }
  }

  /** The first FIN is the earliest: with at most one byte behind it, every FIN is tidy. */
  lemma ShortIsTidy(x: Conn, l: Link, k: int)
    requires Dirs(x, l) && ClosedShort(x, l.out, k) && k <= 1
    ensures Tidy(l.out)
  {
    hide DirInv;
  }

  /**
   If Close leaves at most one byte behind, selective acknowledgement is true in every run after
   it, whatever the peer has consumed.
   */
  lemma SackAfterClose(cfgA: Config, cfgB: Config, iss: int, e: Env, evs: seq<Event>, side: bool, f: Env,
                       later: seq<Event>, g: Seg, n: nat)
    requires Usable(cfgA) && Usable(cfgB)
    requires var w := WorldAfter(cfgA, cfgB, iss, e, evs);
             w.accepted && Closable(Me(w, side)) && LeftBehind(Me(w, side), f) <= 1
    ensures var v := AfterClose(WorldAfter(cfgA, cfgB, iss, e, evs), side, f, later);
            SackTrue(Me(v, side), Mine(v, side), g, n)
  {
    hide WorldAfter, Dirs, LeftBehind, AllGoesOut, AfterClose, Closable, Tidy, SackTrue, Misplaced;
    AfterCloseIs(cfgA, cfgB, iss, e, evs, side, f, later);
    var w := WorldAfter(cfgA, cfgB, iss, e, evs);
    var v := AfterClose(w, side, f, later);
    ShortIsTidy(Me(v, side), Mine(v, side), LeftBehind(Me(w, side), f));
    TidyPeer(Me(v, side), Mine(v, side));
    DirsSackTrue(Me(v, side), Mine(v, side), g, n);
  }

  /** An in-order FIN arriving in a state that takes data is consumed. */
  lemma FinArrives(p: Conn, g: Seg, e: Env)
    requires Coherent(p) && p.state in {Established, FinWait1, FinWait2} && !Stale(p, g)
    requires g.flags == FIN_ACK && g.payload == [] && g.pos == p.rcv.nxt
    ensures var d := HandleSegment(p, g, e).c; d.hist.finsIn == 1 && d.rcv == p.rcv.(nxt := p.rcv.nxt + 1)
  {
    hide HandleData, AckSeg, ValidRecv, Stale;
    FinInData(p, g, e);
    assert InRange(g.pos, p.rcv.nxt, p.cfg.recvCap);
  }

  lemma FinInData(p: Conn, g: Seg, e: Env)
    requires Coherent(p) && p.state in {Established, FinWait1, FinWait2} && !Stale(p, g)
    requires g.flags.fin && g.payload == [] && g.pos == p.rcv.nxt
    ensures var d := HandleData(p, g, e).c; d.hist.finsIn == 1 && d.rcv == p.rcv.(nxt := p.rcv.nxt + 1)
  {
    hide ProcessACK, AckSeg, Coherent, Stale, TakeWindow, ConsumeFin;
    DataStatesFinless(p);
    var p0 := UpdateStamp(p, g);
    ProcessACKFrame(p0, g.ack, g.opts.sack, e);
    var p1 := ProcessACK(p0, g.ack, g.opts.sack, e).c;
    TakeWindowFrame(p1, g);
    ConsumeFinFrame(TakeWindow(p1, g));
  }

  /** The FIN Close queues: the last segment, at SND.NXT after the flush. */
  lemma CloseFin(x: Conn, f: Env)
    requires Closable(x)
    ensures var o := Close(x, f);
            && o.segs != []
            && var g := o.segs[|o.segs| - 1];
               g.flags == FIN_ACK && g.payload == [] && (x.hist.finOut == None ==> o.c.hist.finOut == Some(g.pos))
  {
    hide Flush, RcvWindow, Options;
    FlushFrame(x, f);
  }

  /** The segment Close queues last. */
  function FinOf(x: Conn, f: Env): Seg
    requires Closable(x)
  {
    CloseFin(x, f);
    Close(x, f).segs[|Close(x, f).segs| - 1]
  }

  /**
   In every run after Close: once the peer consumed the FIN that Close queued, what it has read and
   buffered is all that was written but the bytes left behind, and so is complete exactly if
   everything went out before the FIN.
   */
  lemma CloseCompleteExactly(cfgA: Config, cfgB: Config, iss: int, e: Env, evs: seq<Event>, side: bool, f: Env,
                             later: seq<Event>)
    requires Usable(cfgA) && Usable(cfgB)
    requires var w := WorldAfter(cfgA, cfgB, iss, e, evs); w.accepted && Closable(Me(w, side))
    ensures var w := WorldAfter(cfgA, cfgB, iss, e, evs);
            var x, l := Me(w, side), Mine(AfterClose(w, side, f, later), side);
            l.peer.hist.finsIn > 0 && l.peer.rcv.nxt - 1 == FinOf(x, f).pos ==>
              && l.out.read + l.peer.rcv.buf <= l.out.written
              && |l.out.read + l.peer.rcv.buf| == |l.out.written| - LeftBehind(x, f)
              && (l.out.read + l.peer.rcv.buf == l.out.written <==> AllGoesOut(x, f))
  {
    hide WorldAfter, Inv, Dirs, LeftBehind, AllGoesOut, AfterClose, Closable, FinOf, SameStream;
    AfterCloseIs(cfgA, cfgB, iss, e, evs, side, f, later);
    FinPlace(cfgA, cfgB, iss, e, evs, side, f);
    var w := WorldAfter(cfgA, cfgB, iss, e, evs);
    var v := AfterClose(w, side, f, later);
    if Mine(v, side).peer.hist.finsIn > 0 { FinConsumedAt(Me(v, side), Mine(v, side)); }
  }

  /** Where the FIN that Close queues stands, in every run. */
  lemma FinPlace(cfgA: Config, cfgB: Config, iss: int, e: Env, evs: seq<Event>, side: bool, f: Env)
    requires Usable(cfgA) && Usable(cfgB)
    requires var w := WorldAfter(cfgA, cfgB, iss, e, evs); w.accepted && Closable(Me(w, side))
    ensures var w := WorldAfter(cfgA, cfgB, iss, e, evs);
            var d := Mine(w, side).out;
            FinOf(Me(w, side), f).pos == d.base + |d.written| - LeftBehind(Me(w, side), f)
  {
    hide WorldAfter, Inv, Dirs, Settled, LeftBehind, AllGoesOut, Closable, Close, SndOk;
    AfterInv(cfgA, cfgB, iss, e, evs);
    var w := WorldAfter(cfgA, cfgB, iss, e, evs);
    MineDirs(w, side);
    WriterSnd(Me(w, side), Mine(w, side));
    CloseFin(Me(w, side), f);
    CloseFinPlace(Me(w, side), Mine(w, side), f);
  }

  /**
   And it does consume it: whatever happened since Close, when everything before the FIN has
   arrived and the FIN is delivered, in time, to a peer that still takes data.
   */
  lemma FinDelivered(cfgA: Config, cfgB: Config, iss: int, e: Env, evs: seq<Event>, side: bool, f: Env,
                     later: seq<Event>, f2: Env)
    requires Usable(cfgA) && Usable(cfgB)
    requires var w := WorldAfter(cfgA, cfgB, iss, e, evs);
             w.accepted && Closable(Me(w, side))
             && var p := Me(AfterClose(w, side, f, later), !side);
                && p.state in {Established, FinWait1, FinWait2}
                && FinOf(Me(w, side), f).pos == p.rcv.nxt && !Stale(p, FinOf(Me(w, side), f))
    ensures var w := WorldAfter(cfgA, cfgB, iss, e, evs);
            var arrive := Happens(!side, Deliver(FinOf(Me(w, side), f)), f2);
            var l := Mine(AfterClose(w, side, f, later + [arrive]), side);
            && l.peer.hist.finsIn == 1
            && (l.out.read + l.peer.rcv.buf == l.out.written <==> AllGoesOut(Me(w, side), f))
  {
    hide WorldAfter, Inv, Dirs, Settled, LeftBehind, AllGoesOut, Next, Close, HandleSegment, Coherent, Closable, Stale;
    var w := WorldAfter(cfgA, cfgB, iss, e, evs);
    var x, v := Me(w, side), AfterClose(w, side, f, later);
    var g := FinOf(x, f);
    AfterCloseIs(cfgA, cfgB, iss, e, evs, side, f, later);
    MineDirs(v, !side);
    PeerCoherent(v, !side);
    CloseFin(x, f);
    Queued(w, side, f);
    var arrive := Happens(!side, Deliver(g), f2);
    StepIs(v, !side, Deliver(g), f2);
    FinArrives(Me(v, !side), g, f2);
    ExecSplit(Next(w, Happens(side, Shut, f)), later, [arrive]);
    OneEvent(v, arrive);
    CloseCompleteExactly(cfgA, cfgB, iss, e, evs, side, f, later + [arrive]);
  }

  lemma OneEvent(w: World, a: Event)
    ensures Exec(w, [a]) == Next(w, a)
  {
    hide Next;
    assert [a][1..] == [];
  }

  lemma PeerCoherent(w: World, side: bool)
    requires Settled(Me(w, side), Mine(w, side))
    ensures Coherent(Me(w, side))
  {
    hide Coherent;
  }

  /** What Close queues is on the network after it. */
  lemma Queued(w: World, side: bool, f: Env)
    ensures forall g :: g in Close(Me(w, side), f).segs ==> g in Mine(Next(w, Happens(side, Shut, f)), side).xs
  {
    hide Close;
  }

  lemma TwoEvents(w: World, a: Event, b: Event)
    ensures Exec(w, [a, b]) == Next(Next(w, a), b)
  {
    hide Next;
    assert [a, b][1..] == [b] && [b][1..] == [];
    assert Exec(Next(w, a), [b]) == Exec(Next(Next(w, a), b), []);
  }

  /** A FIN was consumed and none stood before the end: the stream is complete. */
  lemma StreamAtFin(x: Conn, l: Link)
    requires Dirs(x, l) && l.peer.hist.finsIn > 0 && ClosedShort(x, l.out, 0)
    ensures l.out.read + l.peer.rcv.buf == l.out.written
  {
    hide SndOk, AcksOk, DataOk, AckOk, RcvOpen, Parked;
  }

  /** At the consumed FIN, complete means that the FIN stood at the end. */
  lemma FinConsumedAt(x: Conn, l: Link)
    requires Dirs(x, l) && l.peer.hist.finsIn > 0
    ensures l.out.read + l.peer.rcv.buf <= l.out.written
    ensures |l.out.read + l.peer.rcv.buf| == l.peer.rcv.nxt - 1 - l.out.base
    ensures l.out.read + l.peer.rcv.buf == l.out.written <==> l.peer.rcv.nxt - 1 == l.out.base + |l.out.written|
  {
    hide SndOk, AcksOk, DataOk, AckOk, RcvOpen, Parked;
  }
}
