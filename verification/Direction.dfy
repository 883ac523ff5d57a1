/**
 One direction of a connection: the send half of one endpoint, the receive half
 of the other, and everything either ever put on the network for it. DirInv says
 how they agree with the bytes written; each lemma is one primitive step that
 keeps it.
 */
module Direction {
  import opened SeqSpace
  import opened RecvModel
  import opened SendModel
  import opened ConnModel

  /**
   The history of a direction: where the stream starts, what was written and read, where
   FINs were sent, and every acknowledgement and SACK block the receiver ever sent back.
   */
  datatype Dir = Dir(base: int, written: seq<byte>, read: seq<byte>, fins: set<int>, acks: set<int>, blocks: set<Block>)

  /** What a direction sees of the sending and of the receiving connection. */
  datatype SHalf = SHalf(snd: Send, sndWnd: nat, sndShift: nat)
  datatype RHalf = RHalf(rcv: Recv, deferred: Option<int>, synced: bool, finsIn: nat, recvCap: nat, rcvShift: nat)

  function SH(c: Conn): SHalf { SHalf(c.snd, c.sndWnd, c.cfg.sndShift) }

  function RH(c: Conn): RHalf {
    RHalf(c.rcv, c.deferred, c.hist.synced, c.hist.finsIn, c.cfg.recvCap, c.cfg.rcvShift)
  }

  /** A receiver that has not seen the SYN stands for an empty buffer at the start of the stream. */
  function Eff(d: Dir, r: RHalf): Recv { if r.synced then r.rcv else NewRecv(d.base, r.recvCap) }

  /** The bytes written for positions [p, q). */
  function Bytes(d: Dir, p: int, q: int): seq<byte>
    requires d.base <= p <= q <= d.base + |d.written|
  {
    if p == d.base then d.written[..q - d.base] else d.written[p - d.base..q - d.base]
  }

  /** The send buffer is the unacknowledged tail of what was written. */
  ghost predicate SndOk(d: Dir, s: Send) {
    && d.base - 1 <= s.una && d.base <= s.nxt
    && (s.una < d.base ==> d.written == [])
    && (s.una <= d.base ==> s.buf == d.written)
    && (d.base < s.una <= d.base + |d.written| ==> s.buf == d.written[s.una - d.base..])
    && (d.base + |d.written| < s.una ==> s.buf == [])
    && (d.fins == {} ==> s.nxt <= d.base + |d.written|)
    && (forall f :: f in d.fins ==> d.base <= f < s.nxt)
  }

  /** The receiver holds only bytes that were written, each at its own position. */
  ghost predicate HoldsWritten(d: Dir, r: Recv, hi: int) {
    forall p :: Held(r, p).Some? ==>
      d.base <= p < hi && p < d.base + |d.written| && Held(r, p).value == d.written[p - d.base]
  }

  /** Before the FIN: what was read and what is buffered continue each other, up to RCV.NXT. */
  ghost predicate RcvOpen(d: Dir, r: Recv, deferred: Option<int>, hi: int) {
    && ValidRecv(r)
    && HoldsWritten(d, r, hi)
    && d.base + |d.read| == r.nxt - |r.buf|
    && |d.read| <= |d.written| && d.read == d.written[..|d.read|]
    && (deferred.Some? ==> deferred.value in d.fins)
  }

  /** No FIN was sent more than one byte before the end of what was written. */
  ghost predicate Tidy(d: Dir) {
    forall f :: f in d.fins ==> d.base + |d.written| <= f + 1
  }

  /**
   After it: exactly the bytes before the FIN were read or are buffered; what still waits out of order
   was sent and lies at RCV.NXT or above.
   */
  ghost predicate RcvEnded(d: Dir, r: Recv, hi: int) {
    && r.nxt - 1 in d.fins && d.base <= r.nxt - 1 <= d.base + |d.written|
    && |d.read| + |r.buf| == r.nxt - 1 - d.base && d.read + r.buf <= d.written
    && Parked(d, r, hi)
  }

  /** The out-of-order list, in order, within what was sent and within a window of the receiver. */
  ghost predicate Parked(d: Dir, r: Recv, hi: int) {
    Sorted(r.nxt, r.ooo) && Below(r.ooo, d.base + |d.written|) && Below(r.ooo, hi) && Below(r.ooo, r.nxt + r.wnd)
  }

  ghost predicate RcvOk(d: Dir, r: RHalf, hi: int) {
    && r.recvCap > 0 && Eff(d, r).wnd == r.recvCap
    && (if r.finsIn == 0 then RcvOpen(d, Eff(d, r), r.deferred, hi)
        else r.finsIn == 1 && r.synced && RcvEnded(d, r.rcv, hi) && (r.deferred.Some? ==> r.deferred.value in d.fins))
  }

  /** A block reported earlier is still held: below RCV.NXT or out of order. */
  ghost predicate BlockHeld(b: Block, r: Recv) {
    forall q :: b.left <= q < b.right ==> q < r.nxt || At(r.ooo, q).Some?
  }

  /** A block is not empty, not longer than a window, and ends within what was sent. */
  ghost predicate BlockSized(b: Block, s: Send, r: Recv) { 0 < b.right - b.left <= r.wnd && b.right <= s.nxt }

  /** No acknowledgement ever sent falls into a block ever reported, and no block reaches past what was written. */
  ghost predicate Apart(d: Dir) {
    && (forall b :: b in d.blocks ==> b.right <= d.base + |d.written|)
    && (forall a, b :: a in d.acks && b in d.blocks ==> !(b.left <= a < b.right))
  }

  /** Acknowledgements and reports are true, and apart as long as RCV.NXT itself is not held out of order. */
  ghost predicate AcksOk(d: Dir, s: Send, r: Recv, finsIn: nat) {
    && s.una in d.acks
    && (forall a :: a in d.acks ==> a <= r.nxt)
    && (forall b :: b in s.sacked ==> b in d.blocks)
    && (forall b :: b in d.blocks ==> BlockHeld(b, r) && BlockSized(b, s, r))
    && (finsIn == 0 || At(r.ooo, r.nxt) == None ==> Apart(d))
  }

  /** A segment in flight carries written bytes under their own positions, and true FINs. */
  ghost predicate DataOk(d: Dir, nxt: int, g: Seg) {
    && (g.payload != [] ==>
          && d.base <= g.pos && g.End() <= nxt && g.End() <= d.base + |d.written|
          && g.payload == Bytes(d, g.pos, g.End()))
    && (g.flags.fin ==> g.payload == [] && g.pos in d.fins)
    && (g.flags.syn ==> g.pos == d.base - 1 && g.payload == [] && !g.flags.fin)
  }

  /** A segment in flight the other way acknowledges and reports what this direction's receiver did. */
  ghost predicate AckOk(d: Dir, r: RHalf, g: Seg) {
    g.flags.ack && !g.flags.rst ==>
      && g.ack in d.acks
      && (forall b :: b in g.opts.sack ==> b in d.blocks)
      && ShiftLeft(g.wnd, r.rcvShift) <= r.recvCap
  }

  /** An acknowledging segment is numbered at SND.NXT of its time or below. */
  ghost predicate PosOk(nxt: int, g: Seg) { g.flags.ack && !g.flags.rst ==> g.pos <= nxt }

  /** The invariant of a direction; sr and rs hold everything ever sent along and against it. */
  ghost predicate DirInv(d: Dir, s: SHalf, r: RHalf, sr: set<Seg>, rs: set<Seg>) {
    && SndOk(d, s.snd)
    && RcvOk(d, r, s.snd.nxt)
    && AcksOk(d, s.snd, Eff(d, r), r.finsIn)
    && s.snd.una <= Eff(d, r).nxt <= s.snd.nxt
    && (r.finsIn == 0 ==> forall g :: g in sr ==> DataOk(d, s.snd.nxt, g))
    && (forall g :: g in sr ==> PosOk(s.snd.nxt, g))
    && (forall g :: g in rs ==> AckOk(d, r, g))
    && (d.written == [] || s.sndWnd <= r.recvCap)
  }

  // ---------------------------------------------------------------- sender steps

  /** More bytes are written while no FIN was sent. */
  lemma SendWrite(d: Dir, s: SHalf, r: RHalf, sr: set<Seg>, rs: set<Seg>, p: seq<byte>)
    requires DirInv(d, s, r, sr, rs) && d.fins == {} && d.base <= s.snd.una && s.sndWnd <= r.recvCap
    ensures var q := p[..WriteCount(s.snd, p)];
            DirInv(d.(written := d.written + q), s.(snd := Write(s.snd, p)), r, sr, rs)
  {
    hide DataOk, SndOk, RcvOpen, AcksOk;
    var q := p[..WriteCount(s.snd, p)];
    SndMore(d, s.snd, p);
    NoFinOpen(d, r, s.snd.nxt);
    RcvMore(d, q, Eff(d, r), r.deferred, s.snd.nxt);
    AcksMore(d, q, s.snd, p, Eff(d, r), r.finsIn);
    forall g | g in sr ensures DataOk(d.(written := d.written + q), s.snd.nxt, g) { DataMore(d, q, s.snd.nxt, g); }
  }

  lemma SndMore(d: Dir, s: Send, p: seq<byte>)
    requires SndOk(d, s) && d.fins == {} && d.base <= s.una
    ensures SndOk(d.(written := d.written + p[..WriteCount(s, p)]), Write(s, p))
  {
    var w, q, i := d.written, p[..WriteCount(s, p)], s.una - d.base;
    assert w[i..] + q == (w + q)[i..];
  }

  lemma RcvMore(d: Dir, q: seq<byte>, r: Recv, deferred: Option<int>, hi: int)
    requires RcvOpen(d, r, deferred, hi)
    ensures RcvOpen(d.(written := d.written + q), r, deferred, hi)
  {
    hide ValidRecv, HoldsWritten;
    HoldsMore(d, q, r, hi);
    assert (d.written + q)[..|d.read|] == d.written[..|d.read|];
  }

  lemma AcksMore(d: Dir, q: seq<byte>, s: Send, p: seq<byte>, r: Recv, finsIn: nat)
    requires AcksOk(d, s, r, finsIn)
    ensures AcksOk(d.(written := d.written + q), Write(s, p), r, finsIn)
  {
    hide BlockHeld;
  }

  lemma HoldsMore(d: Dir, q: seq<byte>, r: Recv, hi: int)
    requires HoldsWritten(d, r, hi)
    ensures HoldsWritten(d.(written := d.written + q), r, hi)
  {
  }

  lemma DataMore(d: Dir, q: seq<byte>, nxt: int, g: Seg)
    requires DataOk(d, nxt, g)
    ensures DataOk(d.(written := d.written + q), nxt, g)
  {
    if g.payload != [] {
      assert (d.written + q)[g.pos - d.base..g.End() - d.base] == d.written[g.pos - d.base..g.End() - d.base];
    }
  }

  // Growing SND.NXT and the set of FIN positions keeps every clause.

  lemma SndForward(d: Dir, s: Send, nxt: int, fins: set<int>)
    requires SndOk(d, s) && s.nxt <= nxt
    requires d.fins + fins == {} ==> nxt <= d.base + |d.written|
    requires forall f :: f in fins ==> d.base <= f < nxt
    ensures SndOk(d.(fins := d.fins + fins), s.(nxt := nxt))
  {
  }

  lemma RcvForward(d: Dir, r: RHalf, hi: int, hi1: int, fins: set<int>)
    requires RcvOk(d, r, hi) && hi <= hi1
    ensures RcvOk(d.(fins := d.fins + fins), r, hi1)
    ensures Eff(d.(fins := d.fins + fins), r) == Eff(d, r)
  {
    hide ValidRecv;
    var d1 := d.(fins := d.fins + fins);
    if r.finsIn == 0 { assert HoldsWritten(d1, Eff(d, r), hi1); }
  }

  lemma AcksForward(d: Dir, s: Send, r: Recv, finsIn: nat, nxt: int, fins: set<int>)
    requires AcksOk(d, s, r, finsIn) && s.nxt <= nxt
    ensures AcksOk(d.(fins := d.fins + fins), s.(nxt := nxt), r, finsIn)
  {
    hide BlockHeld;
  }

  lemma DataForward(d: Dir, g: Seg, nxt: int, nxt1: int, fins: set<int>)
    requires DataOk(d, nxt, g) && nxt <= nxt1
    ensures DataOk(d.(fins := d.fins + fins), nxt1, g)
  {
  }

  lemma AckForward(d: Dir, r: RHalf, g: Seg, fins: set<int>)
    requires AckOk(d, r, g)
    ensures AckOk(d.(fins := d.fins + fins), r, g)
  {
    hide ShiftLeft, ShiftRight;
  }

  /** A step of SND.NXT within what was written, or over a FIN. */
  lemma Later(d: Dir, s: SHalf, r: RHalf, sr: set<Seg>, rs: set<Seg>, nxt: int, fins: set<int>)
    requires DirInv(d, s, r, sr, rs) && s.snd.nxt <= nxt
    requires d.fins + fins == {} ==> nxt <= d.base + |d.written|
    requires forall f :: f in fins ==> d.base <= f < nxt
    ensures DirInv(d.(fins := d.fins + fins), s.(snd := s.snd.(nxt := nxt)), r, sr, rs)
  {
    hide SndOk, RcvOk, AcksOk, DataOk, AckOk;
    SndForward(d, s.snd, nxt, fins);
    RcvForward(d, r, s.snd.nxt, nxt, fins);
    AcksForward(d, s.snd, Eff(d, r), r.finsIn, nxt, fins);
    var d1 := d.(fins := d.fins + fins);
    forall g | g in sr && r.finsIn == 0 ensures DataOk(d1, nxt, g) { DataForward(d, g, s.snd.nxt, nxt, fins); }
    forall g | g in rs ensures AckOk(d1, r, g) { AckForward(d, r, g, fins); }
  }

  /** Unsent bytes are the written ones from SND.NXT on. */
  lemma UnsentWritten(d: Dir, s: Send, n: nat)
    requires SndOk(d, s) && 0 < n <= Pending(s)
    ensures d.base <= s.una && s.nxt + n <= d.base + |d.written|
    ensures PeekUnsent(s, n) == Bytes(d, s.nxt, s.nxt + n)
  {
  }

  lemma SndEdges(d: Dir, s: Send)
    requires SndOk(d, s)
    ensures d.base - 1 <= s.una && d.base <= s.nxt
  {
  }

  lemma AcksBelow(d: Dir, s: Send, r: Recv, finsIn: nat, ack: int)
    requires AcksOk(d, s, r, finsIn) && ack in d.acks
    ensures ack <= r.nxt
  {
  }

  lemma NoFinOpen(d: Dir, r: RHalf, hi: int)
    requires RcvOk(d, r, hi) && d.fins == {}
    ensures r.finsIn == 0
  {
  }

  lemma SndMarked(d: Dir, s: Send, bs: seq<Block>)
    requires SndOk(d, s)
    ensures SndOk(d, MarkSACKed(s, bs))
  {
    hide Keep;
  }

  /** Moving SND.NXT over written bytes and sending them. */
  lemma SendData(d: Dir, s: SHalf, r: RHalf, sr: set<Seg>, rs: set<Seg>, n: nat, g: Seg)
    requires DirInv(d, s, r, sr, rs) && 0 < n <= Pending(s.snd)
    requires g.pos == s.snd.nxt && g.payload == PeekUnsent(s.snd, n) && !g.flags.fin && !g.flags.syn
    ensures DirInv(d, s.(snd := AdvanceSent(s.snd, n)), r, sr + {g}, rs)
  {
    hide SndOk, RcvOk, AcksOk, AckOk;
    UnsentWritten(d, s.snd, n);
    assert d.(fins := d.fins + {}) == d;
    Later(d, s, r, sr, rs, s.snd.nxt + n, {});
  }

  /** Sending the FIN, or another one. */
  lemma SendFin(d: Dir, s: SHalf, r: RHalf, sr: set<Seg>, rs: set<Seg>, g: Seg)
    requires DirInv(d, s, r, sr, rs)
    requires g.pos == s.snd.nxt && g.payload == [] && g.flags.fin && !g.flags.syn
    ensures DirInv(d.(fins := d.fins + {s.snd.nxt}), s.(snd := AdvanceSent(s.snd, 1)), r, sr + {g}, rs)
  {
    hide SndOk, RcvOk, AcksOk, AckOk;
    SndEdges(d, s.snd);
    Later(d, s, r, sr, rs, s.snd.nxt + 1, {s.snd.nxt});
  }

  /** Putting one more segment on the network along the direction. */
  lemma SendSeg(d: Dir, s: SHalf, r: RHalf, sr: set<Seg>, rs: set<Seg>, g: Seg)
    requires DirInv(d, s, r, sr, rs) && (r.finsIn == 0 ==> DataOk(d, s.snd.nxt, g)) && PosOk(s.snd.nxt, g)
    ensures DirInv(d, s, r, sr + {g}, rs)
  {
    hide SndOk, RcvOk, AcksOk, DataOk;
  }

  /** An acknowledgement from the network moves SND.UNA. */
  lemma SendAcked(d: Dir, s: SHalf, r: RHalf, sr: set<Seg>, rs: set<Seg>, ack: int)
    requires DirInv(d, s, r, sr, rs) && ack in d.acks
    ensures ack <= s.snd.nxt
    ensures DirInv(d, s.(snd := Acknowledge(s.snd, ack)), r, sr, rs)
  {
    hide SndOk, RcvOk, AcksOk, DataOk, AckOk, Prune;
    AcksBelow(d, s.snd, Eff(d, r), r.finsIn, ack);
    SndAcked(d, s.snd, ack);
    AcksAcked(d, s.snd, Eff(d, r), r.finsIn, ack);
  }

  lemma SndAcked(d: Dir, s: Send, ack: int)
    requires SndOk(d, s) && ack <= s.nxt
    ensures SndOk(d, Acknowledge(s, ack))
  {
    hide Prune;
    if ack > s.una {
      var n := AckCount(s, ack);
      assert Acknowledge(s, ack).buf == s.buf[n..] && Acknowledge(s, ack).una == ack;
      if s.una >= d.base {
        if ack <= d.base + |d.written| {
          DropDrop(d.written, s.una - d.base, ack - d.base);
          assert n == ack - s.una;
        } else {
          assert s.buf[n..] == [];
        }
      }
    }
  }

  lemma DropDrop(w: seq<byte>, i: nat, j: nat)
    requires i <= j <= |w|
    ensures w[i..][j - i..] == w[j..] && (i == 0 ==> w[j - i..] == w[j..])
  {
  }

  lemma AcksAcked(d: Dir, s: Send, r: Recv, finsIn: nat, ack: int)
    requires AcksOk(d, s, r, finsIn) && ack in d.acks && ack <= s.nxt
    ensures AcksOk(d, Acknowledge(s, ack), r, finsIn)
  {
    hide BlockHeld;
    PruneSub(ack, s.sacked);
  }

  /** A SACK report from the network replaces the scoreboard. */
  lemma SendMarked(d: Dir, s: SHalf, r: RHalf, sr: set<Seg>, rs: set<Seg>, bs: seq<Block>)
    requires DirInv(d, s, r, sr, rs) && forall b :: b in bs ==> b in d.blocks
    ensures DirInv(d, s.(snd := MarkSACKed(s.snd, bs)), r, sr, rs)
  {
    hide SndOk, RcvOk, AcksOk, DataOk, AckOk, Keep;
    SndMarked(d, s.snd, bs);
    AcksMarked(d, s.snd, Eff(d, r), r.finsIn, bs);
  }

  lemma AcksMarked(d: Dir, s: Send, r: Recv, finsIn: nat, bs: seq<Block>)
    requires AcksOk(d, s, r, finsIn) && forall b :: b in bs ==> b in d.blocks
    ensures AcksOk(d, MarkSACKed(s, bs), r, finsIn)
  {
    hide BlockHeld;
    KeepSub(s, bs);
  }

  /**
   What is resent from SND.UNA is what was written there: SND.UNA was acknowledged, so no
   block ever reported covers it and the skip loop does not move.
   */
  lemma ResendExact(d: Dir, s: SHalf, r: RHalf, sr: set<Seg>, rs: set<Seg>, n: nat)
    requires DirInv(d, s, r, sr, rs) && (r.finsIn == 0 || At(r.rcv.ooo, r.rcv.nxt) == None)
    ensures !IsSACKed(s.snd.sacked, s.snd.una) && Resume(s.snd) == s.snd.una
    ensures var data := RetransmitData(s.snd, n);
            data != [] ==> d.base <= s.snd.una && s.snd.una + |data| <= Min(s.snd.nxt, d.base + |d.written|)
                           && data == Bytes(d, s.snd.una, s.snd.una + |data|)
  {
    hide RcvOpen, RcvEnded, DataOk, BlockHeld, BlockSized, At;
    forall i | 0 <= i < |s.snd.sacked| ensures !Covers(s.snd.sacked[i], s.snd.una) {
      assert s.snd.sacked[i] in s.snd.sacked;
    }
    ResumeAtUna(s.snd);
  }

  // -------------------------------------------------------------- receiver steps

  /** Inserting the payload of any segment of the direction. */
  lemma RecvInsert(d: Dir, s: SHalf, r: RHalf, sr: set<Seg>, rs: set<Seg>, g: Seg)
    requires DirInv(d, s, r, sr, rs) && r.synced && r.finsIn == 0 && g in sr
    ensures DirInv(d, s, r.(rcv := Insert(r.rcv, g.pos, g.payload)), sr, rs)
  {
    hide Insert, SndOk, ValidRecv;
    var r1 := Insert(r.rcv, g.pos, g.payload);
    InsertValid(r.rcv, g.pos, g.payload);
    assert DataOk(d, s.snd.nxt, g);
    forall p ensures Held(r1, p).Some? ==>
          d.base <= p < s.snd.nxt && p < d.base + |d.written| && Held(r1, p).value == d.written[p - d.base] {
      InsertRefines(r.rcv, g.pos, g.payload, p);
    }
    InsertRefines(r.rcv, g.pos, g.payload, r1.nxt - 1);
    HoldsReach(d, r1, s.snd.nxt);
    forall b | b in d.blocks ensures BlockHeld(b, r1) { BlockStaysHeld(b, r.rcv, g.pos, g.payload); }
  }

  /** RCV.NXT never passes what was sent. */
  lemma HoldsReach(d: Dir, r: Recv, hi: int)
    requires ValidRecv(r) && HoldsWritten(d, r, hi) && d.base <= hi && d.base + |d.read| == r.nxt - |r.buf| <= hi
    ensures r.nxt <= hi
  {
    if r.buf != [] { assert Held(r, r.nxt - 1).Some?; }
  }

  lemma BlockStaysHeld(b: Block, r: Recv, p: int, data: seq<byte>)
    requires ValidRecv(r) && BlockHeld(b, r)
    ensures BlockHeld(b, Insert(r, p, data))
  {
    hide Insert, ValidRecv;
    var r1 := Insert(r, p, data);
    forall q | b.left <= q < b.right ensures q < r1.nxt || At(r1.ooo, q).Some? {
      HeldForever(r, p, data, q);
    }
  }

  /** Deferring a FIN of the direction that came early. */
  lemma RecvDefer(d: Dir, s: SHalf, r: RHalf, sr: set<Seg>, rs: set<Seg>, f: int)
    requires DirInv(d, s, r, sr, rs) && f in d.fins
    ensures DirInv(d, s, r.(deferred := Some(f)), sr, rs)
  {
    hide SndOk, HoldsWritten, ValidRecv, DataOk, AcksOk;
  }

  /** Stepping over a FIN of the direction that is in order. */
  lemma RecvFin(d: Dir, s: SHalf, r: RHalf, sr: set<Seg>, rs: set<Seg>, deferred: Option<int>)
    requires DirInv(d, s, r, sr, rs) && r.synced && r.finsIn == 0 && r.rcv.nxt in d.fins
    requires deferred == None || deferred == r.deferred
    ensures DirInv(d, s, r.(rcv := r.rcv.(nxt := r.rcv.nxt + 1), finsIn := 1, deferred := deferred), sr, rs)
  {
    hide SndOk, RcvOpen, RcvEnded, AcksOk, DataOk, ShiftLeft;
    EndsAt(d, r.rcv, r.deferred, s.snd.nxt);
    AcksEnd(d, s.snd, r.rcv);
    SndAbove(d, s.snd, r.rcv.nxt);
    DeferredSent(d, r.rcv, r.deferred, s.snd.nxt);
  }

  lemma DeferredSent(d: Dir, r: Recv, deferred: Option<int>, hi: int)
    requires RcvOpen(d, r, deferred, hi)
    ensures deferred.Some? ==> deferred.value in d.fins
  {
    hide ValidRecv, HoldsWritten;
  }

  lemma SndAbove(d: Dir, s: Send, f: int)
    requires SndOk(d, s) && f in d.fins
    ensures f < s.nxt
  {
  }

  lemma EndsAt(d: Dir, r: Recv, deferred: Option<int>, hi: int)
    requires RcvOpen(d, r, deferred, hi) && r.wnd > 0 && r.nxt in d.fins
    ensures RcvEnded(d, r.(nxt := r.nxt + 1), hi)
  {
    hide RcvOpen;
    StreamSoFar(d, r, deferred, hi);
    TakePrefix(d.written, d.read + r.buf, r.nxt - d.base);
    OpenParked(d, r, deferred, hi);
  }

  /** Before the FIN everything out of order lies above RCV.NXT, so it stays parked when that takes one step. */
  lemma OpenParked(d: Dir, r: Recv, deferred: Option<int>, hi: int)
    requires RcvOpen(d, r, deferred, hi) && r.wnd > 0
    ensures Parked(d, r, hi) && Parked(d, r.(nxt := r.nxt + 1), hi) && At(r.ooo, r.nxt) == None
  {
    SortedPairwise(r.nxt + 1, r.ooo);
    forall e | e in r.ooo ensures e.End() <= d.base + |d.written| && e.End() <= hi {
      var i :| 0 <= i < |r.ooo| && r.ooo[i] == e;
      AtEntry(r.ooo, i, e.End() - 1);
      assert Held(r, e.End() - 1).Some?;
    }
    SortedWeaken(r.nxt + 1, r.nxt, r.ooo);
    NxtMissing(r);
  }

  lemma ParkedNow(d: Dir, r: RHalf, hi: int)
    requires RcvOk(d, r, hi) && r.synced
    ensures Parked(d, r.rcv, hi) && (r.finsIn == 0 ==> At(r.rcv.ooo, r.rcv.nxt) == None)
  {
    hide RcvOpen, Parked, At;
    if r.finsIn == 0 { OpenParked(d, r.rcv, r.deferred, hi); }
  }

  /** After a tidy FIN nothing waits out of order. */
  lemma TidyEnds(d: Dir, r: RHalf, hi: int)
    requires RcvOk(d, r, hi) && r.finsIn > 0 && Tidy(d)
    ensures r.rcv.ooo == []
  {
    hide RcvOpen, Tidy;
    TidyEnd(d, r.rcv.nxt - 1);
    FirstEnds(r.rcv.nxt, r.rcv.ooo, d.base + |d.written|);
  }

  lemma FirstEnds(lo: int, ooo: seq<Entry>, hi: int)
    requires Sorted(lo, ooo) && Below(ooo, hi)
    ensures ooo != [] ==> lo <= ooo[0].pos < ooo[0].End() <= hi
  {
  }

  lemma TidyEnd(d: Dir, f: int)
    requires Tidy(d) && f in d.fins
    ensures d.base + |d.written| <= f + 1
  {
  }

  lemma TakePrefix(w: seq<byte>, x: seq<byte>, n: nat)
    requires n <= |w| && x == w[..n]
    ensures |x| == n && x <= w
  {
  }

  lemma AcksEnd(d: Dir, s: Send, r: Recv)
    requires AcksOk(d, s, r, 0)
    ensures AcksOk(d, s, r.(nxt := r.nxt + 1), 1)
  {
    hide Apart, At;
  }

  /** Read and buffered bytes together are the written prefix up to RCV.NXT. */
  lemma StreamSoFar(d: Dir, r: Recv, deferred: Option<int>, hi: int)
    requires RcvOpen(d, r, deferred, hi)
    ensures d.base <= r.nxt <= d.base + |d.written|
    ensures d.read + r.buf == d.written[..r.nxt - d.base]
  {
    if r.buf != [] { assert Held(r, r.nxt - 1).Some?; }
    var x, y := d.read + r.buf, d.written[..r.nxt - d.base];
    forall i | 0 <= i < |x| ensures x[i] == y[i] {
      if i >= |d.read| { assert Held(r, d.base + i).Some?; }
    }
  }

  /** The application takes bytes. */
  lemma RecvRead(d: Dir, s: SHalf, r: RHalf, sr: set<Seg>, rs: set<Seg>, n: nat)
    requires DirInv(d, s, r, sr, rs) && r.synced
    ensures var k := Min(n, |r.rcv.buf|);
            DirInv(d.(read := d.read + r.rcv.buf[..k]), s, r.(rcv := Read(r.rcv, n)), sr, rs)
  {
    hide SndOk, ValidRecv, DataOk;
    var k := Min(n, |r.rcv.buf|);
    var d1, r1 := d.(read := d.read + r.rcv.buf[..k]), Read(r.rcv, n);
    assert r1.buf == r.rcv.buf[k..];
    ReadValid(r.rcv, n);
    if r.finsIn == 0 {
      StreamSoFar(d, r.rcv, r.deferred, s.snd.nxt);
      forall p ensures Held(r1, p).Some? ==> Held(r1, p) == Held(r.rcv, p) {
        ReadHeld(r.rcv, n, p);
      }
      assert d1.read == d.written[..|d1.read|] by { assert d1.read <= d.read + r.rcv.buf; }
    } else {
      assert d1.read + r1.buf == d.read + r.rcv.buf;
    }
    forall g | g in sr && r.finsIn == 0 ensures DataOk(d1, s.snd.nxt, g) { SameData(d, d1, s.snd.nxt, g); }
    assert SndOk(d1, s.snd) by { SameSnd(d, d1, s.snd); }
  }

  lemma SameData(d: Dir, d1: Dir, nxt: int, g: Seg)
    requires DataOk(d, nxt, g) && d1 == d.(read := d1.read, acks := d1.acks, blocks := d1.blocks)
    ensures DataOk(d1, nxt, g)
  {
  }

  lemma SameSnd(d: Dir, d1: Dir, s: Send)
    requires SndOk(d, s) && d1 == d.(read := d1.read, acks := d1.acks, blocks := d1.blocks)
    ensures SndOk(d1, s)
  {
  }

  lemma ReadValid(r: Recv, n: nat)
    ensures ValidRecv(r) ==> ValidRecv(Read(r, n))
    ensures Read(r, n).nxt == r.nxt && Read(r, n).ooo == r.ooo && Read(r, n).wnd == r.wnd
  {
  }

  lemma ReadHeld(r: Recv, n: nat, p: int)
    requires ValidRecv(r)
    ensures Held(Read(r, n), p).Some? ==> Held(Read(r, n), p) == Held(r, p)
  {
    if p <= r.nxt { SortedBound(r.nxt + 1, r.ooo, p); }
  }

  /** Acknowledging, and reporting what is held out of order. */
  lemma RecvAnswer(d: Dir, s: SHalf, r: RHalf, sr: set<Seg>, rs: set<Seg>, g: Seg)
    requires DirInv(d, s, r, sr, rs) && r.synced
    requires g.ack == r.rcv.nxt && (forall b :: b in g.opts.sack ==> b in SACKBlocks(r.rcv))
    requires ShiftLeft(g.wnd, r.rcvShift) <= r.recvCap
    ensures DirInv(Heard(d, g), s, r, sr, rs + {g})
  {
    hide SndOk, RcvOk, AcksOk, DataOk, AckOk, ShiftLeft, ShiftRight, SACKBlocks;
    var d1 := Heard(d, g);
    SameSnd(d, d1, s.snd);
    SameRcv(d, d1, r, s.snd.nxt);
    AcksAnswer(d, s.snd, r, g);
    forall h | h in sr && r.finsIn == 0 ensures DataOk(d1, s.snd.nxt, h) { SameData(d, d1, s.snd.nxt, h); }
    forall h | h in rs + {g} ensures AckOk(d1, r, h) { AckAnswer(d, r, g, h); }
  }

  /** The history after one more segment against the direction. */
  function Heard(d: Dir, g: Seg): Dir {
    d.(acks := d.acks + {g.ack}, blocks := d.blocks + set b | b in g.opts.sack)
  }

  lemma SameRcv(d: Dir, d1: Dir, r: RHalf, hi: int)
    requires RcvOk(d, r, hi) && d1 == d.(acks := d1.acks, blocks := d1.blocks)
    ensures RcvOk(d1, r, hi) && Eff(d1, r) == Eff(d, r)
  {
    hide ValidRecv, Held;
    if r.finsIn == 0 { assert HoldsWritten(d1, Eff(d, r), hi); }
  }

  lemma AckAnswer(d: Dir, r: RHalf, g: Seg, h: Seg)
    requires AckOk(d, r, h) || h == g
    requires ShiftLeft(g.wnd, r.rcvShift) <= r.recvCap
    ensures AckOk(Heard(d, g), r, h)
  {
    hide ShiftLeft, ShiftRight;
  }

  /**
   New blocks lie at RCV.NXT or above; if RCV.NXT is not held they lie above every acknowledgement,
   and RCV.NXT lies in no past block.
   */
  lemma AcksAnswer(d: Dir, s: Send, r: RHalf, g: Seg)
    requires AcksOk(d, s, r.rcv, r.finsIn) && RcvOk(d, r, s.nxt) && r.synced
    requires g.ack == r.rcv.nxt && (forall b :: b in g.opts.sack ==> b in SACKBlocks(r.rcv))
    ensures AcksOk(Heard(d, g), s, r.rcv, r.finsIn)
  {
    hide SACKBlocks, RcvOk, Parked, At;
    ParkedNow(d, r, s.nxt);
    forall b | b in SACKBlocks(r.rcv)
      ensures BlockHeld(b, r.rcv) && BlockSized(b, s, r.rcv) && b.right <= d.base + |d.written|
      ensures At(r.rcv.ooo, r.rcv.nxt) == None ==> r.rcv.nxt < b.left
    {
      NewBlock(d, r.rcv, b, s.nxt);
    }
    if At(r.rcv.ooo, r.rcv.nxt) == None {
      forall b | b in d.blocks ensures !(b.left <= r.rcv.nxt < b.right) { assert BlockHeld(b, r.rcv); }
    }
  }

  lemma NoBlocks(r: Recv)
    ensures SACKBlocks(r) == [] <==> r.ooo == []
  {
  }

  lemma NewBlock(d: Dir, r: Recv, b: Block, hi: int)
    requires Parked(d, r, hi) && b in SACKBlocks(r)
    ensures BlockHeld(b, r) && r.nxt <= b.left < b.right <= d.base + |d.written|
    ensures b.right <= hi && b.right - b.left <= r.wnd && (At(r.ooo, r.nxt) == None ==> r.nxt < b.left)
  {
    SortedPairwise(r.nxt, r.ooo);
    var i :| 0 <= i < |SACKBlocks(r)| && SACKBlocks(r)[i] == b;
    assert b == Block(r.ooo[i].pos, r.ooo[i].End()) && r.ooo[i] in r.ooo;
    forall q | b.left <= q < b.right ensures At(r.ooo, q).Some? { AtEntry(r.ooo, i, q); }
  }

  lemma NxtMissing(r: Recv)
    requires ValidRecv(r)
    ensures At(r.ooo, r.nxt) == None
  {
    SortedBound(r.nxt + 1, r.ooo, r.nxt);
  }

  /** A segment that acknowledges nothing. */
  lemma RecvMute(d: Dir, s: SHalf, r: RHalf, sr: set<Seg>, rs: set<Seg>, g: Seg)
    requires DirInv(d, s, r, sr, rs) && (!g.flags.ack || g.flags.rst)
    ensures DirInv(d, s, r, sr, rs + {g})
  {
    hide SndOk, RcvOk, AcksOk, DataOk, ShiftLeft, ShiftRight;
  }

  /** Seeing the peer's SYN makes the receiver what it already stood for. */
  lemma RecvSync(d: Dir, s: SHalf, r: RHalf, sr: set<Seg>, rs: set<Seg>)
    requires DirInv(d, s, r, sr, rs) && !r.synced
    ensures DirInv(d, s, r.(synced := true, rcv := NewRecv(d.base, r.recvCap)), sr, rs)
  {
    hide SndOk, AcksOk, DataOk, RcvOpen, ShiftLeft, ShiftRight;
  }

  /** The window field, scaled back, never exceeds the receive buffer. */
  lemma WindowHonest(c: Conn)
    requires c.cfg.wscaleOK && c.rcv.wnd == c.cfg.recvCap > 0
    ensures ShiftLeft(RcvWindow(c), c.cfg.rcvShift) <= c.cfg.recvCap
  {
    hide HeldOut;
    var avail := Window(c.rcv);
    var used := if avail < (if c.cfg.recvCap / 2 < c.cfg.mss then c.cfg.recvCap / 2 else c.cfg.mss) then 0 else avail;
    ShiftBack(used, c.cfg.rcvShift);
    ShiftMonotone(RcvWindow(c), ShiftRight(used, c.cfg.rcvShift), c.cfg.rcvShift);
  }

  lemma {:induction false} ShiftMonotone(a: nat, b: nat, k: nat)
    requires a <= b
    ensures ShiftLeft(a, k) <= ShiftLeft(b, k)
    decreases k
  {
    if k > 0 { ShiftMonotone(2 * a, 2 * b, k - 1); }
  }

  /** Shifting down and up again loses bits, never gains any. */
  lemma {:induction false} ShiftBack(n: nat, k: nat)
    ensures ShiftLeft(ShiftRight(n, k), k) <= n
    decreases k
  {
    if k > 0 {
      ShiftBack(n, k - 1);
      var y := ShiftRight(n, k - 1);
      ShiftMonotone(2 * (y / 2), y, k - 1);
    }
  }
}
