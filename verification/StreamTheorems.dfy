/**
 What two connections promise over any network: the bytes read are the bytes
 written, selective acknowledgement never misleads retransmission, and a FIN is
 consumed once.
 */
module StreamTheorems {
  import opened SeqSpace
  import opened RecvModel
  import opened SendModel
  import opened ConnModel
  import opened ConnStates
  import opened Direction
  import opened Endpoint
  import opened Network

  // ------------------------------------------------------------- stream integrity

  /** One direction delivers: what was read, then what is buffered, starts what was written. */
  ghost predicate Delivers(d: Dir, s: Send, r: Recv) {
    && d.read + r.buf <= d.written
    && s.una <= r.nxt <= s.nxt
  }

  lemma DirDelivers(d: Dir, s: SHalf, r: RHalf, sr: set<Seg>, rs: set<Seg>)
    requires DirInv(d, s, r, sr, rs) && r.synced
    ensures Delivers(d, s.snd, r.rcv)
  {
    hide SndOk, AcksOk, DataOk, AckOk, RcvOpen;
    if r.finsIn == 0 { StreamSoFar(d, r.rcv, r.deferred, s.snd.nxt); }
  }

  /**
   In every run, over a network that loses, repeats and reorders, each side has read and
   buffered a prefix of what the other wrote, and SND.UNA <= RCV.NXT <= SND.NXT.
   */
  lemma StreamIntegrity(cfgA: Config, cfgB: Config, iss: int, e: Env, evs: seq<Event>)
    requires Usable(cfgA) && Usable(cfgB)
    ensures var w := Exec(Start(cfgA, cfgB, iss, e), evs);
            w.accepted ==>
              && Delivers(w.da, w.a.snd, w.b.rcv)
              && (w.a.hist.synced ==> Delivers(w.db, w.b.snd, w.a.rcv))
  {
    hide Exec, Start, DirInv, Settled, Unopened, Delivers;
    StartInv(cfgA, cfgB, iss, e);
    ExecInv(Start(cfgA, cfgB, iss, e), evs);
    var w := Exec(Start(cfgA, cfgB, iss, e), evs);
    if w.accepted {
      BSynced(w);
      DirDelivers(w.da, SH(w.a), RH(w.b), w.ab, w.ba);
      if w.a.hist.synced { DirDelivers(w.db, SH(w.b), RH(w.a), w.ba, w.ab); }
    }
  }

  /** The accepting side always is synchronized. */
  lemma BSynced(w: World)
    requires Inv(w) && w.accepted
    ensures w.b.hist.synced
  {
    hide DirInv, Coherent;
  }

  // -------------------------------------------------------------- either endpoint

  /** Endpoint a or b, and its place between the two directions. */
  function Me(w: World, side: bool): Conn { if side then w.a else w.b }

  function Mine(w: World, side: bool): Link { if side then LinkA(w) else LinkB(w) }

  function Happens(side: bool, a: Act, e: Env): Event { if side then AtA(a, e) else AtB(a, e) }

  /** The world after a run from the first SYN. */
  function WorldAfter(cfgA: Config, cfgB: Config, iss: int, e: Env, evs: seq<Event>): World {
    Exec(Start(cfgA, cfgB, iss, e), evs)
  }

  lemma AfterInv(cfgA: Config, cfgB: Config, iss: int, e: Env, evs: seq<Event>)
    requires Usable(cfgA) && Usable(cfgB)
    ensures Inv(WorldAfter(cfgA, cfgB, iss, e, evs))
  {
    hide Start, Inv;
    StartInv(cfgA, cfgB, iss, e);
    ExecInv(Start(cfgA, cfgB, iss, e), evs);
  }

  lemma MineDirs(w: World, side: bool)
    requires Inv(w) && w.accepted
    ensures Dirs(Me(w, side), Mine(w, side)) && Settled(Me(w, side), Mine(w, side))
  {
    hide Dirs, Settled;
  }

  /** What one possible event at an endpoint changes. */
  lemma StepIs(w: World, side: bool, a: Act, e: Env)
    requires Possible(a, Mine(w, side).ps)
    ensures var v := Next(w, Happens(side, a, e));
            var o := Apply(Me(w, side), a, e);
            && Me(v, side) == o.c && Me(v, !side) == Me(w, !side) && v.accepted == w.accepted
            && Mine(v, side) == Emit(Noted(Me(w, side), Mine(w, side), a), o.segs)
            && Mine(v, true).out.base == Mine(w, true).out.base && Mine(v, false).out.base == Mine(w, false).out.base
  {
    hide Apply, Emit, Noted;
    NotedKeeps(Me(w, side), Mine(w, side), a);
    EmitKeeps(Noted(Me(w, side), Mine(w, side), a), Apply(Me(w, side), a, e).segs);
  }

  // --------------------------------------------------------- SACK and retransmission

  /**
   The peer has consumed a FIN and holds the byte at its RCV.NXT out of order: the FIN took a
   number inside the data.
   */
  ghost predicate Misplaced(p: Conn) { p.hist.finsIn > 0 && At(p.rcv.ooo, p.rcv.nxt).Some? }

  /**
   In every run and at either endpoint, unless a FIN of ours is misplaced at the peer: no SACK
   block ever sent, however late it arrives, contains SND.UNA, and what would be resent from
   SND.UNA is what was written there.
   */
  lemma SackNeverCoversUna(cfgA: Config, cfgB: Config, iss: int, e: Env, evs: seq<Event>, side: bool, g: Seg, n: nat)
    requires Usable(cfgA) && Usable(cfgB)
    ensures var w := WorldAfter(cfgA, cfgB, iss, e, evs);
            var l := Mine(w, side);
            w.accepted && !Misplaced(l.peer) ==> SackTrue(Me(w, side), l, g, n)
  {
    hide WorldAfter, Inv, Dirs, Settled, SackTrue, Misplaced;
    AfterInv(cfgA, cfgB, iss, e, evs);
    var w := WorldAfter(cfgA, cfgB, iss, e, evs);
    if w.accepted && !Misplaced(Mine(w, side).peer) {
      MineDirs(w, side);
      DirsSackTrue(Me(w, side), Mine(w, side), g, n);
    }
  }

  /** What x may rely on when it retransmits: no block covers SND.UNA, and the bytes are those written there. */
  ghost predicate SackTrue(x: Conn, l: Link, g: Seg, n: nat) {
    && (g in l.ps && Answers(g) ==> forall b :: b in g.opts.sack ==> !(b.left <= x.snd.una < b.right))
    && (forall b :: b in x.snd.sacked ==> !(b.left <= x.snd.una < b.right))
    && var data := RetransmitData(x.snd, n);
       data != [] ==> l.out.base <= x.snd.una && x.snd.una + |data| <= l.out.base + |l.out.written|
                      && data == Bytes(l.out, x.snd.una, x.snd.una + |data|)
  }

  lemma DirsSackTrue(x: Conn, l: Link, g: Seg, n: nat)
    requires Dirs(x, l) && !Misplaced(l.peer)
    ensures SackTrue(x, l, g, n)
  {
    hide DirInv, RetransmitData, At;
    BlocksMissUna(l.out, SH(x), RH(l.peer), l.xs, l.ps, g);
    ResendExact(l.out, SH(x), RH(l.peer), l.xs, l.ps, n);
  }

  lemma BlocksMissUna(d: Dir, s: SHalf, r: RHalf, sr: set<Seg>, rs: set<Seg>, g: Seg)
    requires DirInv(d, s, r, sr, rs) && (r.finsIn == 0 || At(r.rcv.ooo, r.rcv.nxt) == None)
    ensures g in rs && Answers(g) ==> forall b :: b in g.opts.sack ==> !(b.left <= s.snd.una < b.right)
    ensures forall b :: b in s.snd.sacked ==> !(b.left <= s.snd.una < b.right)
  {
    hide SndOk, RcvOpen, RcvEnded, DataOk, BlockHeld, BlockSized, ShiftLeft, ShiftRight, At;
    assert g in rs ==> AckOk(d, r, g);
  }

  // ------------------------------------------------------------ when a report misleads

  /** In every run the synchronized peer's list waits in order at RCV.NXT or above, and before a FIN strictly above. */
  lemma PeerParked(x: Conn, l: Link)
    requires Dirs(x, l) && l.peer.hist.synced
    ensures Parked(l.out, l.peer.rcv, x.snd.nxt)
            && (At(l.peer.rcv.ooo, l.peer.rcv.nxt).Some? ==> l.peer.hist.finsIn > 0)
    ensures x.snd.una <= l.peer.rcv.nxt <= x.snd.nxt
  {
    hide SndOk, RcvOk, AcksOk, DataOk, AckOk, Parked, At;
    ParkedNow(l.out, RH(l.peer), x.snd.nxt);
  }

  /** RCV.NXT is held out of order exactly if the first entry starts there, and then it is inside a reported block. */
  lemma InsideExactly(r: Recv)
    requires Sorted(r.nxt, r.ooo)
    ensures At(r.ooo, r.nxt).Some? <==> r.ooo != [] && r.ooo[0].pos == r.nxt
    ensures (exists b :: b in SACKBlocks(r) && b.left <= r.nxt < b.right) <==> At(r.ooo, r.nxt).Some?
  {
    SortedPairwise(r.nxt, r.ooo);
    if r.ooo == [] {
      assert SACKBlocks(r) == [];
    } else {
      assert SACKBlocks(r)[0] == Block(r.ooo[0].pos, r.ooo[0].End());
      if r.ooo[0].pos > r.nxt { SortedBound(r.nxt + 1, r.ooo, r.nxt); }
      forall c | c in SACKBlocks(r) && c.left <= r.nxt < c.right ensures r.ooo[0].pos == r.nxt {
        var k :| 0 <= k < |SACKBlocks(r)| && SACKBlocks(r)[k] == c;
        assert c.left == r.ooo[k].pos;
      }
    }
  }

  /**
   In every run, what the peer acknowledges lies inside a block it reports exactly when a FIN of
   ours is misplaced; and only a FIN that cut off more than one byte ever is.
   */
  lemma ReportInsideExactly(cfgA: Config, cfgB: Config, iss: int, e: Env, evs: seq<Event>, side: bool)
    requires Usable(cfgA) && Usable(cfgB)
    ensures var w := WorldAfter(cfgA, cfgB, iss, e, evs);
            var p := Mine(w, side).peer;
            w.accepted && p.hist.synced ==>
              && ((exists b :: b in SACKBlocks(p.rcv) && b.left <= p.rcv.nxt < b.right) <==> Misplaced(p))
              && (Misplaced(p) ==> !Tidy(Mine(w, side).out))
  {
    hide WorldAfter, Inv, Dirs, Settled, SACKBlocks, At, Tidy;
    AfterInv(cfgA, cfgB, iss, e, evs);
    var w := WorldAfter(cfgA, cfgB, iss, e, evs);
    var l := Mine(w, side);
    if w.accepted && l.peer.hist.synced {
      MineDirs(w, side);
      PeerParked(Me(w, side), l);
      InsideExactly(l.peer.rcv);
      if Tidy(l.out) { TidyPeer(Me(w, side), l); }
    }
  }

  lemma TidyPeer(x: Conn, l: Link)
    requires Dirs(x, l) && Tidy(l.out)
    ensures !Misplaced(l.peer)
  {
    hide SndOk, RcvOk, AcksOk, DataOk, AckOk, Tidy;
    if l.peer.hist.finsIn > 0 { TidyEnds(l.out, RH(l.peer), x.snd.nxt); }
  }

  /** What the handler makes of a connection when it takes a segment's acknowledgement, before more is sent. */
  function Taken(x: Conn, g: Seg): Conn {
    if x.snd.una < g.ack <= x.snd.nxt then Acked(x, g.ack, g.opts.sack) else Mark(x, g.opts.sack)
  }

  /** The same on the send half. */
  function Heeded(s: Send, g: Seg): Send { MarkSACKed(Acknowledge(s, g.ack), g.opts.sack) }

  lemma HeededIs(x: Conn, g: Seg)
    requires x.cfg.sackOK && g.ack <= x.snd.nxt
    ensures Taken(x, g).snd == Heeded(x.snd, g)
  {
    hide Keep, Prune;
  }

  /**
   In every run, when the sender takes the answer the peer would give next: resending skips
   SND.UNA exactly when a FIN is misplaced; and what is resent, if anything, is what was written
   where the skip ends, although it goes out under the number SND.UNA.
   */
  lemma ResendMisledExactly(cfgA: Config, cfgB: Config, iss: int, e: Env, evs: seq<Event>, side: bool, f: Env, n: nat)
    requires Usable(cfgA) && Usable(cfgB)
    ensures var w := WorldAfter(cfgA, cfgB, iss, e, evs);
            var x, p := Me(w, side), Mine(w, side).peer;
            var s := Taken(x, AckSeg(p, f)).snd;
            w.accepted && p.hist.synced && p.cfg.sackOK && x.cfg.sackOK && Unacked(x.snd) < TWO31 ==>
              && s.una == p.rcv.nxt && (Resume(s) != s.una <==> Misplaced(p))
              && ResentFrom(Mine(w, side).out, s, RetransmitData(s, n))
  {
    hide WorldAfter, Inv, Dirs, Settled, Heeded, AckSeg, Resume, Misplaced, Taken, RetransmitData, ResentFrom;
    AfterInv(cfgA, cfgB, iss, e, evs);
    var w := WorldAfter(cfgA, cfgB, iss, e, evs);
    var x, l := Me(w, side), Mine(w, side);
    if w.accepted && l.peer.hist.synced && l.peer.cfg.sackOK && x.cfg.sackOK && Unacked(x.snd) < TWO31 {
      MineDirs(w, side);
      MineDirs(w, !side);
      AnswerIs(l.peer, f);
      PeerParked(x, l);
      HeededIs(x, AckSeg(l.peer, f));
      HeededUna(x.snd, AckSeg(l.peer, f));
      HeededBytes(x, l, AckSeg(l.peer, f), n);
      if Misplaced(l.peer) {
        MisplacedCovers(x.snd, l.out, l.peer, f);
      } else {
        HeededTrue(x, l, Mine(w, !side), f);
      }
    }
  }

  /** The bytes are those written from where resending resumes. */
  ghost predicate ResentFrom(d: Dir, s: Send, data: seq<byte>) {
    data != [] ==>
      && d.base <= Resume(s) && Resume(s) + |data| <= d.base + |d.written|
      && data == Bytes(d, Resume(s), Resume(s) + |data|)
  }

  lemma HeededBytes(x: Conn, l: Link, g: Seg, n: nat)
    requires Dirs(x, l) && g.ack <= x.snd.nxt
    ensures ResentFrom(l.out, Heeded(x.snd, g), RetransmitData(Heeded(x.snd, g), n))
  {
    hide SndOk, RcvOk, AcksOk, DataOk, AckOk, ResentFrom, RetransmitData;
    SndAcked(l.out, x.snd, g.ack);
    SndMarked(l.out, Acknowledge(x.snd, g.ack), g.opts.sack);
    ResendBytes(l.out, Heeded(x.snd, g), n);
  }

  lemma ResendBytes(d: Dir, s: Send, n: nat)
    requires SndOk(d, s)
    ensures ResentFrom(d, s, RetransmitData(s, n))
  {
    hide Resume;
    if RetransmitData(s, n) != [] {
      var i, a, b := s.una - d.base, Resume(s) - s.una, Min(Min(Unacked(s), |s.buf|), Resume(s) - s.una + n);
      assert 0 <= i && RetransmitData(s, n) == s.buf[a..b];
      if i > 0 { TailSlice(d.written, i, a, b); } else if a == 0 { assert d.written[0..b] == d.written[..b]; }
    }
  }

  lemma TailSlice(w: seq<byte>, i: nat, a: nat, b: nat)
    requires i <= |w| && a <= b <= |w| - i
    ensures w[i..][a..b] == w[i + a..i + b]
  {
  }

  lemma AnswerIs(p: Conn, f: Env)
    ensures AckSeg(p, f).ack == p.rcv.nxt && (p.cfg.sackOK ==> AckSeg(p, f).opts.sack == SACKBlocks(p.rcv))
  {
    hide RcvWindow, SACKBlocks;
  }

  lemma HeededUna(s: Send, g: Seg)
    requires s.una <= g.ack <= s.nxt
    ensures Heeded(s, g).una == g.ack
  {
    hide Keep, Prune;
  }

  /** The first block starts at the number acknowledged, is kept, and covers it. */
  lemma MisplacedCovers(s: Send, d: Dir, p: Conn, f: Env)
    requires Parked(d, p.rcv, s.nxt) && Misplaced(p) && p.cfg.sackOK && s.una <= p.rcv.nxt <= s.nxt < s.una + TWO31
    ensures var s1 := Heeded(s, AckSeg(p, f)); Resume(s1) != s1.una
  {
    hide Resume, AckSeg, Prune, SACKBlocks, Wrap, At;
    InsideExactly(p.rcv);
    FirstEnds(p.rcv.nxt, p.rcv.ooo, s.nxt);
    AnswerIs(p, f);
    FirstBlock(p.rcv);
    var b := SACKBlocks(p.rcv)[0];
    SerialOrder(b.left, s.nxt);
    var s0 := Acknowledge(s, p.rcv.nxt);
    var s1 := Heeded(s, AckSeg(p, f));
    assert s1.sacked == [b] + Keep(s0, SACKBlocks(p.rcv)[1..]);
    assert Covers(s1.sacked[0], s1.una);
    ResumeAtUna(s1);
  }

  lemma FirstBlock(r: Recv)
    requires r.ooo != []
    ensures SACKBlocks(r) != [] && SACKBlocks(r)[0] == Block(r.ooo[0].pos, r.ooo[0].End())
  {
  }

  /** Otherwise the answer, once sent and taken, leaves a scoreboard that misses SND.UNA. */
  lemma HeededTrue(x: Conn, l: Link, m: Link, f: Env)
    requires Dirs(x, l) && Dirs(l.peer, m) && Settled(l.peer, m) && l.peer.hist.synced && !Misplaced(l.peer)
    ensures var s := Heeded(x.snd, AckSeg(l.peer, f)); Resume(s) == s.una
  {
    hide DirInv, AckSeg, Resume, At, RcvWindow, ShiftLeft, SACKBlocks, Acknowledge, MarkSACKed, Coherent;
    var g := AckSeg(l.peer, f);
    BuildTruthful(l.peer, f, l.peer.snd.nxt, ACK, []);
    WindowOk(l.peer, m);
    AnswerWindow(l.peer, f);
    RecvAnswer(l.out, SH(x), RH(l.peer), l.xs, l.ps, g);
    var d := Heard(l.out, g);
    SendAcked(d, SH(x), RH(l.peer), l.xs, l.ps + {g}, g.ack);
    var s1 := SH(x).(snd := Acknowledge(x.snd, g.ack));
    SendMarked(d, s1, RH(l.peer), l.xs, l.ps + {g}, g.opts.sack);
    ResendExact(d, s1.(snd := Heeded(x.snd, g)), RH(l.peer), l.xs, l.ps + {g}, 0);
  }

  lemma AnswerWindow(p: Conn, f: Env)
    ensures AckSeg(p, f) == Build(p, f, p.snd.nxt, ACK, []) && AckSeg(p, f).wnd == RcvWindow(p)
  {
    hide RcvWindow, SACKBlocks;
  }

  // ------------------------------------------------------------------------- one FIN

  /** Between two such endpoints the peer's FIN is consumed at most once, in every run. */
  lemma FinOnce(cfgA: Config, cfgB: Config, iss: int, e: Env, evs: seq<Event>, side: bool)
    requires Usable(cfgA) && Usable(cfgB)
    ensures var w := WorldAfter(cfgA, cfgB, iss, e, evs);
            w.accepted ==> Me(w, side).hist.finsIn <= 1
  {
    hide WorldAfter, Inv, SndOk, AcksOk, DataOk, AckOk, Settled;
    AfterInv(cfgA, cfgB, iss, e, evs);
    var w := WorldAfter(cfgA, cfgB, iss, e, evs);
    if w.accepted { MineDirs(w, side); }
  }
}
