/**
 Two connections and the network between them, from the first SYN on. The network
 is the set of everything ever sent: it may lose, delay, reorder and repeat. A run
 is any sequence of events; the theorems hold after every run.
 */
module Network {
  import opened SeqSpace
  import opened RecvModel
  import opened SendModel
  import opened ConnModel
  import opened ConnStates
  import opened Direction
  import opened Endpoint

  /** Connection a opens, b accepts; ab and ba are all segments each ever sent; da and db the two streams. */
  datatype World = World(a: Conn, b: Conn, ab: set<Seg>, ba: set<Seg>, da: Dir, db: Dir, accepted: bool)

  datatype Event =
    | AtA(act: Act, env: Env)
    | AtB(act: Act, env: Env)
    | Accept(syn: Seg, iss: int, env: Env)

  function LinkA(w: World): Link { Link(w.b, w.da, w.db, w.ab, w.ba, true) }

  function LinkB(w: World): Link { Link(w.a, w.db, w.da, w.ba, w.ab, false) }

  /** An event can happen if it delivers something that was sent. */
  predicate Possible(a: Act, net: set<Seg>) { !IsOpen(a) && (a.Deliver? ==> a.seg in net) }

  /** One event; an impossible one changes nothing. */
  function Next(w: World, ev: Event): World {
    match ev
    case AtA(a, e) =>
      if !Possible(a, w.ba) then w
      else
        var o := Apply(w.a, a, e);
        var l := Emit(Noted(w.a, LinkA(w), a), o.segs);
        w.(a := o.c, ab := l.xs, da := l.out, db := l.inn)
    case AtB(a, e) =>
      if !Possible(a, w.ab) then w
      else
        var o := Apply(w.b, a, e);
        var l := Emit(Noted(w.b, LinkB(w), a), o.segs);
        w.(b := o.c, ba := l.xs, db := l.out, da := l.inn)
    case Accept(syn, iss, e) =>
      if w.accepted || syn !in w.ab || !syn.flags.syn then w
      else
        var o := AcceptSYN(w.b, syn, iss, e);
        var l := Emit(Link(w.a, NewDir(iss), w.da, w.ba, w.ab, false), o.segs);
        w.(b := o.c, ba := l.xs, db := l.out, da := l.inn, accepted := true)
  }

  function NewDir(iss: int): Dir { Dir(iss + 1, [], [], {}, {iss}, {}) }

  function Exec(w: World, evs: seq<Event>): World
    decreases evs
  {
    if evs == [] then w else Exec(Next(w, evs[0]), evs[1..])
  }

  /** Just after a called Connect on a fresh connection; b is fresh. */
  function Start(cfgA: Config, cfgB: Config, iss: int, e: Env): World {
    var o := Connect(NewConn(cfgA), iss, e);
    World(o.c, NewConn(cfgB), SegSet(o.segs), {}, NewDir(iss), NewDir(0), false)
  }

  predicate Usable(cfg: Config) { cfg.recvCap > 0 && cfg.rcvShift <= 14 }

  // ------------------------------------------------------------------ invariant

  /** a before any SYN-ACK: its SYN is out, nothing else is. */
  ghost predicate Waiting(a: Conn, base: int) {
    && (a.state == SynSent || a.state == Closed)
    && a.snd.una == base - 1 && a.snd.nxt == base && a.snd.buf == [] && a.snd.sacked == []
    && a.rcv == NewRecv(0, a.cfg.recvCap) && a.deferred == None
    && !a.hist.synced && a.hist.finsIn == 0 && a.hist.finOut == None
  }

  /** b before it accepts. */
  ghost predicate Idle(b: Conn) {
    && b.state == Closed && b.rcv.buf == [] && b.deferred == None && !b.hist.synced && !b.timeWaitArmed
  }

  predicate Reset(g: Seg) { g.flags.rst && !g.flags.syn && !g.flags.fin && g.payload == [] }

  predicate FirstSyn(g: Seg, base: int, shift: nat) {
    g.flags == SYN && g.pos == base - 1 && g.payload == [] && g.opts.wscale == Some(shift)
  }

  ghost predicate Unopened(w: World) {
    && Waiting(w.a, w.da.base) && Idle(w.b)
    && w.da == NewDir(w.da.base - 1)
    && (forall g :: g in w.ab ==> Reset(g) || FirstSyn(g, w.da.base, w.a.cfg.rcvShift))
    && (forall g :: g in w.ba ==> Reset(g))
  }

  ghost predicate Joined(w: World) {
    && Dirs(w.a, LinkA(w)) && Settled(w.a, LinkA(w))
    && Dirs(w.b, LinkB(w)) && Settled(w.b, LinkB(w))
  }

  ghost predicate Inv(w: World) {
    && Usable(w.a.cfg) && Usable(w.b.cfg)
    && (if w.accepted then Joined(w) else Unopened(w))
  }

  // ------------------------------------------------------------------ initially

  lemma StartInv(cfgA: Config, cfgB: Config, iss: int, e: Env)
    requires Usable(cfgA) && Usable(cfgB)
    ensures Inv(Start(cfgA, cfgB, iss, e))
  {
    hide RcvWindow;
  }

  // -------------------------------------------------------- before b accepts

  lemma WaitingEvent(a: Conn, base: int, act: Act, e: Env)
    requires Waiting(a, base) && !IsOpen(act) && (act.Deliver? ==> Reset(act.seg))
    ensures var o := Apply(a, act, e);
            && Waiting(o.c, base) && SameCaps(a, o.c)
            && forall g :: g in o.segs ==> Reset(g) || FirstSyn(g, base, a.cfg.rcvShift)
  {
    hide RcvWindow, Build, PeekUnsent, Write, HandleSynchronized;
  }

  lemma IdleEvent(b: Conn, act: Act, e: Env)
    requires Idle(b) && !IsOpen(act)
    ensures var o := Apply(b, act, e);
            && Idle(o.c) && SameCaps(b, o.c) && o.c.cfg == b.cfg
            && forall g :: g in o.segs ==> Reset(g)
  {
    hide RcvWindow, Build, PeekUnsent, Write, HandleSynchronized;
  }

  /** Events that send neither FINs nor acknowledgements leave both histories alone. */
  lemma QuietEmit(l: Link, segs: seq<Seg>)
    requires forall g :: g in segs ==> !g.flags.fin && !Answers(g)
    ensures Emit(l, segs) == l.(xs := l.xs + SegSet(segs))
  {
    var f := set g | g in segs && g.flags.fin :: g.pos;
    assert f == {};
    var a := set g | g in segs && Answers(g) :: g.ack;
    assert a == {};
    var b := set g, b | g in segs && Answers(g) && b in g.opts.sack :: b;
    assert b == {};
    assert l.out.fins + {} == l.out.fins && l.inn.acks + {} == l.inn.acks && l.inn.blocks + {} == l.inn.blocks;
  }

  lemma QuietNoted(x: Conn, l: Link, a: Act)
    requires x.state == SynSent || x.state == Closed
    requires x.rcv.buf == []
    ensures Noted(x, l, a) == l
  {
    if a.Take? { assert l.inn.read + [] == l.inn.read; }
  }

  lemma UnopenedA(w: World, a: Act, e: Env)
    requires Inv(w) && !w.accepted
    ensures Inv(Next(w, AtA(a, e)))
  {
    hide Apply, Emit, Noted;
    if Possible(a, w.ba) {
      var o := Apply(w.a, a, e);
      WaitingEvent(w.a, w.da.base, a, e);
      QuietNoted(w.a, LinkA(w), a);
      QuietEmit(LinkA(w), o.segs);
    }
  }

  lemma UnopenedB(w: World, a: Act, e: Env)
    requires Inv(w) && !w.accepted
    ensures Inv(Next(w, AtB(a, e)))
  {
    hide Apply, Emit, Noted;
    if Possible(a, w.ab) {
      var o := Apply(w.b, a, e);
      IdleEvent(w.b, a, e);
      QuietNoted(w.b, LinkB(w), a);
      QuietEmit(LinkB(w), o.segs);
    }
  }

  // ------------------------------------------------------------------- b accepts

  /** A direction whose SYN is out and nothing else. */
  lemma FreshDir(iss: int, s: SHalf, r: RHalf, sr: set<Seg>, rs: set<Seg>)
    requires s.snd.una == iss && s.snd.nxt == iss + 1 && s.snd.buf == [] && s.snd.sacked == []
    requires r.finsIn == 0 && r.deferred == None && r.recvCap > 0 && Eff(NewDir(iss), r) == NewRecv(iss + 1, r.recvCap)
    requires forall g :: g in sr ==> DataOk(NewDir(iss), iss + 1, g) && PosOk(iss + 1, g)
    requires forall g :: g in rs ==> !Answers(g)
    ensures DirInv(NewDir(iss), s, r, sr, rs)
  {
    hide DataOk, SndOk, RcvOk, AcksOk, AckOk;
    forall g | g in rs ensures AckOk(NewDir(iss), r, g) { MuteAckOk(NewDir(iss), r, g); }
    FreshSnd(iss, s.snd);
    FreshRcv(iss, r);
    FreshAcks(iss, s.snd, r.recvCap);
  }

  lemma MuteAckOk(d: Dir, r: RHalf, g: Seg)
    requires !Answers(g)
    ensures AckOk(d, r, g)
  {
  }

  lemma FreshSnd(iss: int, s: Send)
    requires s.una == iss && s.nxt == iss + 1 && s.buf == []
    ensures SndOk(NewDir(iss), s)
  {
  }

  lemma FreshRcv(iss: int, r: RHalf)
    requires r.finsIn == 0 && r.deferred == None && r.recvCap > 0 && Eff(NewDir(iss), r) == NewRecv(iss + 1, r.recvCap)
    ensures RcvOk(NewDir(iss), r, iss + 1)
  {
  }

  lemma FreshAcks(iss: int, s: Send, cap: nat)
    requires s.una == iss && s.sacked == []
    ensures AcksOk(NewDir(iss), s, NewRecv(iss + 1, cap), 0)
  {
  }

  /** b after taking the SYN. */
  lemma AcceptShape(b: Conn, syn: Seg, iss: int, e: Env, shift: nat)
    requires Idle(b) && Usable(b.cfg) && FirstSyn(syn, syn.pos + 1, shift) && shift <= 14
    ensures var o := AcceptSYN(b, syn, iss, e);
            && o.c.state == SynReceived && Coherent(o.c)
            && o.c.cfg.recvCap == b.cfg.recvCap && o.c.cfg.rcvShift == b.cfg.rcvShift
            && o.c.snd == Send([], o.c.snd.cap, iss, iss + 1, [])
            && o.c.rcv == NewRecv(syn.pos + 1, o.c.cfg.recvCap) && o.c.deferred == None
            && o.c.hist.synced && o.c.hist.finsIn == 0 && o.c.hist.finOut == None
            && o.c.cfg.wscaleOK && o.c.cfg.sndShift == shift
            && |o.segs| == 1
            && var g := o.segs[0];
               && g.flags == SYN_ACK && g.pos == iss && g.ack == syn.pos + 1 && g.payload == []
               && g.wnd == RcvWindow(o.c) && g.opts.sack == [] && g.opts.wscale == Some(b.cfg.rcvShift)
  {
    hide Insert, ShiftLeft, ShiftRight;
    InsertNothing(NewRecv(syn.pos + 1, b.cfg.recvCap), syn.pos + 1);
  }

  lemma AcceptInv(w: World, syn: Seg, iss: int, e: Env)
    requires Inv(w) && !w.accepted
    ensures Inv(Next(w, Accept(syn, iss, e)))
  {
    hide AcceptSYN, RcvWindow, Coherent, DirInv, ShiftLeft, ShiftRight;
    if syn in w.ab && syn.flags.syn {
      AcceptShape(w.b, syn, iss, e, w.a.cfg.rcvShift);
      var o := AcceptSYN(w.b, syn, iss, e);
      var g := o.segs[0];
      assert o.segs == [g];
      JoinForward(w, o.c, g);
      JoinBackward(w, o.c, g, iss);
      EmitOne(Link(w.a, NewDir(iss), w.da, w.ba, w.ab, false), g);
      WaitingCoherent(w.a, w.da.base);
    }
  }

  lemma WaitingCoherent(a: Conn, base: int)
    requires Waiting(a, base) && Usable(a.cfg)
    ensures Coherent(a)
  {
  }

  /** What b is, and what its SYN-ACK says, as the joining lemmas use it. */
  ghost predicate Accepted(w: World, b: Conn, g: Seg) {
    && b.rcv == NewRecv(w.da.base, b.cfg.recvCap) && b.deferred == None && b.cfg.recvCap > 0
    && b.hist.synced && b.hist.finsIn == 0 && b.cfg.wscaleOK
    && g.flags == SYN_ACK && g.ack == w.da.base && g.payload == [] && g.wnd == RcvWindow(b) && g.opts.sack == []
  }

  lemma JoinForward(w: World, b: Conn, g: Seg)
    requires Inv(w) && !w.accepted && Accepted(w, b, g)
    ensures DirInv(Heard(w.da, g), SH(w.a), RH(b), w.ab, w.ba + {g})
  {
    hide RcvWindow, DirInv, ShiftLeft, ShiftRight, Coherent;
    FreshDir(w.da.base - 1, SH(w.a), RH(b), w.ab, w.ba);
    WindowHonest(b);
    RecvAnswer(w.da, SH(w.a), RH(b), w.ab, w.ba, g);
  }

  lemma JoinBackward(w: World, b: Conn, g: Seg, iss: int)
    requires Inv(w) && !w.accepted && Accepted(w, b, g) && g.pos == iss
    requires b.snd == Send([], b.snd.cap, iss, iss + 1, [])
    ensures DirInv(NewDir(iss), SH(b), RH(w.a), w.ba + {g}, w.ab)
  {
    hide RcvWindow, DirInv, ShiftLeft, ShiftRight, Coherent;
    FreshDir(iss, SH(b), RH(w.a), w.ba + {g}, w.ab);
  }

  // --------------------------------------------------------------- after joining

  /** Everything about the peer of x that Settled looks at is fixed. */
  lemma PeerSteps(x: Conn, y: Conn, l: Link, m: Link)
    requires Settled(x, l) && SameCaps(l.peer, y) && m.peer == y && m.out.base == l.out.base && m.active == l.active
    ensures Settled(x, m)
  {
    hide Coherent;
  }

  lemma JoinedA(w: World, a: Act, e: Env)
    requires Inv(w) && w.accepted
    ensures Inv(Next(w, AtA(a, e)))
  {
    hide Apply, Emit, Noted, DirInv, Settled;
    if Possible(a, w.ba) {
      var o := Apply(w.a, a, e);
      var l := LinkA(w);
      EventKept(w.a, l, a, e);
      EventCaps(w.a, a, e);
      NotedKeeps(w.a, l, a);
      EmitKeeps(Noted(w.a, l, a), o.segs);
      PeerSteps(w.b, o.c, LinkB(w), LinkB(Next(w, AtA(a, e))));
    }
  }

  lemma JoinedB(w: World, a: Act, e: Env)
    requires Inv(w) && w.accepted
    ensures Inv(Next(w, AtB(a, e)))
  {
    hide Apply, Emit, Noted, DirInv, Settled;
    if Possible(a, w.ab) {
      var o := Apply(w.b, a, e);
      var l := LinkB(w);
      NotActive(w.b, l);
      EventKept(w.b, l, a, e);
      EventCaps(w.b, a, e);
      NotedKeeps(w.b, l, a);
      EmitKeeps(Noted(w.b, l, a), o.segs);
      PeerSteps(w.a, o.c, LinkA(w), LinkA(Next(w, AtB(a, e))));
    }
  }

  lemma NotActive(x: Conn, l: Link)
    requires Settled(x, l) && !l.active
    ensures x.state != SynSent
  {
  }

  lemma NotedKeeps(x: Conn, l: Link, a: Act)
    ensures var m := Noted(x, l, a);
            && m == l.(out := m.out, inn := m.inn) && m.out.base == l.out.base && m.inn.base == l.inn.base
            && m.inn.fins == l.inn.fins
  {
    hide WriteCount;
  }

  lemma EmitKeeps(l: Link, segs: seq<Seg>)
    ensures var m := Emit(l, segs);
            && m == l.(out := m.out, inn := m.inn, xs := m.xs) && m.out.base == l.out.base && m.inn.base == l.inn.base
            && m.inn.fins == l.inn.fins
  {
  }

  // ------------------------------------------------------------------- all runs

  lemma NextInv(w: World, ev: Event)
    requires Inv(w)
    ensures Inv(Next(w, ev))
  {
    hide Next, Joined, Unopened;
    match ev
    case AtA(a, e) => if w.accepted { JoinedA(w, a, e); } else { UnopenedA(w, a, e); }
    case AtB(a, e) => if w.accepted { JoinedB(w, a, e); } else { UnopenedB(w, a, e); }
    case Accept(syn, iss, e) => if w.accepted { AcceptOnce(w, syn, iss, e); } else { AcceptInv(w, syn, iss, e); }
  }

  lemma AcceptOnce(w: World, syn: Seg, iss: int, e: Env)
    requires w.accepted
    ensures Next(w, Accept(syn, iss, e)) == w
  {
  }

  lemma {:induction false} ExecInv(w: World, evs: seq<Event>)
    requires Inv(w)
    ensures Inv(Exec(w, evs))
    decreases evs
  {
    hide Next, Inv;
    if evs != [] {
      NextInv(w, evs[0]);
      ExecInv(Next(w, evs[0]), evs[1..]);
    }
  }

  lemma {:induction false} ExecSplit(w: World, p: seq<Event>, q: seq<Event>)
    ensures Exec(w, p + q) == Exec(Exec(w, p), q)
    decreases p
  {
    hide Next;
    if p == [] {
      assert p + q == q;
    } else {
      assert (p + q)[1..] == p[1..] + q;
      ExecSplit(Next(w, p[0]), p[1..], q);
    }
  }
}
