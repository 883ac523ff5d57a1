/**
 A run in which Close cuts the stream and the FIN's number turns a SACK report against
 the sender. Segments carry one byte and the congestion window holds one when Close is
 called, so it sends the first of four bytes and its FIN takes the number of the second. The last two go out
 later, above the FIN; the peer, told that the stream ended after one byte, acknowledges
 the FIN and reports the byte it holds above it at the very number it acknowledges.
 */
module CutStream {
  import opened SeqSpace
  import opened RecvModel
  import opened SendModel
  import opened ConnModel
  import opened ConnStates
  import opened Direction
  import opened Endpoint
  import opened Network
  import opened StreamTheorems
  import opened CloseTheorems

  const OFFERED := Config(1, 10, 10, 0, 0, false, true, false, false, false)
  const AGREED := Config(1, 10, 10, 0, 0, true, true, true, false, false)
  const NARROW := Env(false, 1, 0)
  const WIDE := Env(false, 4, 0)
  const SYN_OPTS := Opts(Some(1), Some(0), true, None, [])

  function Plain(pos: int, ack: int, flags: Flags, wnd: nat, sack: seq<Block>, payload: seq<byte>): Seg {
    Seg(pos, ack, flags, wnd, Opts(None, None, false, None, sack), payload)
  }

  // The segments, in the order they are first sent.
  const SYN_SEG := Seg(0, 0, SYN, 10, SYN_OPTS, [])
  const SYN_ACK_SEG := Seg(100, 1, SYN_ACK, 10, SYN_OPTS, [])
  const OPEN_ACK := Plain(1, 101, ACK, 10, [], [])
  const BYTE1 := Plain(1, 101, ACK_PSH, 10, [], [1])
  const FIN_SEG := Plain(2, 101, FIN_ACK, 10, [], [])
  const ACK2 := Plain(101, 2, ACK, 9, [], [])
  const BYTE3 := Plain(3, 101, ACK_PSH, 10, [], [3])
  const BYTE4 := Plain(4, 101, ACK_PSH, 10, [], [4])
  const ACK2_SACK := Plain(101, 2, ACK, 8, [Block(3, 4)], [])
  const ACK3_SACK := Plain(101, 3, ACK, 8, [Block(3, 4)], [])

  /** The connecting side. */
  function Sender(state: State, snd: Send, wnd: nat, timing: Option<int>, sampled: seq<int>,
      finOut: Option<int>): Conn {
    Conn(state, false, false, false, snd, NewRecv(101, 10), wnd, 0, None, 0, timing, AGREED,
        History(true, 0, finOut, sampled))
  }

  /** The accepting side. */
  function Receiver(state: State, una: int, wnd: nat, rcv: Recv, finsIn: nat): Conn
    requires una <= 101
  {
    Conn(state, false, finsIn > 0, false, Send([], 10, una, 101, []), rcv, wnd, 0, None, 0, None, AGREED,
         History(true, finsIn, None, []))
  }

  const A0 := Conn(SynSent, false, false, false, Send([], 10, 0, 1, []), NewRecv(0, 10), DEFAULT_WINDOW, 0, None, 0,
                   Some(0), OFFERED, History(false, 0, None, []))
  const A1 := Sender(Established, Send([], 10, 1, 1, []), 10, None, [0], None)
  const A2 := Sender(Established, Send([1, 2, 3, 4], 10, 1, 1, []), 10, None, [0], None)
  const A3 := Sender(Established, Send([1, 2, 3, 4], 10, 1, 2, []), 10, Some(1), [0], None)
  const A4 := Sender(FinWait1, Send([1, 2, 3, 4], 10, 1, 3, []), 10, Some(1), [0], Some(2))
  const A5 := Sender(FinWait1, Send([2, 3, 4], 10, 2, 5, []), 9, Some(3), [0, 1], Some(2))
  const A6 := Sender(FinWait1, Send([3, 4], 10, 3, 5, [Block(3, 4)]), 8, Some(3), [0, 1], Some(2))

  const B0 := Receiver(SynReceived, 100, DEFAULT_WINDOW, NewRecv(1, 10), 0)
  const B1 := Receiver(Established, 101, 10, NewRecv(1, 10), 0)
  const B2 := Receiver(Established, 101, 10, Recv([1], 2, [], 10), 0)
  const B3 := Receiver(Established, 101, 10, Recv([1], 2, [Entry(3, [3])], 10), 0)
  const B4 := Receiver(CloseWait, 101, 10, Recv([1], 3, [Entry(3, [3])], 10), 1)

  // ------------------------------------------------------------------- each step

  lemma Opens()
    ensures Connect(NewConn(OFFERED), 0, NARROW) == Out(A0, [SYN_SEG])
    ensures AcceptSYN(NewConn(OFFERED), SYN_SEG, 100, NARROW) == Out(B0, [SYN_ACK_SEG])
  {
  }

  lemma SynAckArrives()
    ensures HandleSegment(A0, SYN_ACK_SEG, NARROW) == Out(A1, [OPEN_ACK])
  {
  }

  lemma OpenAckArrives()
    ensures HandleSegment(B0, OPEN_ACK, NARROW) == Out(B1, [])
  {
  }

  lemma Writes()
    ensures Apply(A1, Buffer([1, 2, 3, 4]), NARROW) == Out(A2, [])
  {
    var p: seq<byte> := [1, 2, 3, 4];
    assert WriteCount(A1.snd, p) == 4 && p[..4] == p && [] + p == p;
  }

  /** One segment of a flush. */
  lemma OneMore(c: Conn, e: Env, n: nat, seg: Seg, next: Conn, rest: Out)
    requires Quota(c, e) == n > 0 && OneSegmentIn(c, n) == next && Flush(next, e) == rest
    requires Unacked(c.snd) <= |c.snd.buf| && Build(c, e, c.snd.nxt, ACK_PSH, PeekUnsent(c.snd, n)) == seg
    ensures Flush(c, e) == Out(rest.c, [seg] + rest.segs)
  {
    hide Quota, Build, PeekUnsent;
  }

  lemma PeekOne(s: Send, b: byte)
    requires Unacked(s) < |s.buf| && s.buf[Unacked(s)] == b
    ensures PeekUnsent(s, 1) == [b]
  {
  }

  /** Whatever the connecting side sends, it acknowledges 101 and announces ten bytes. */
  lemma SenderBuilds(c: Conn, e: Env, pos: int, flags: Flags, payload: seq<byte>)
    requires c.rcv == NewRecv(101, 10) && c.cfg == AGREED
    ensures Build(c, e, pos, flags, payload) == Plain(pos, 101, flags, 10, [], payload)
  {
  }

  lemma Pushes()
    ensures Flush(A2, NARROW) == Out(A3, [BYTE1])
  {
    hide Flush, PeekUnsent, Build;
    PeekOne(A2.snd, 1);
    SenderBuilds(A2, NARROW, 1, ACK_PSH, [1]);
    FlushIdle(A3, NARROW);
    OneMore(A2, NARROW, 1, BYTE1, A3, Out(A3, []));
  }

  /** Close sends the first byte and leaves three behind its FIN. */
  lemma Closes()
    ensures Close(A2, NARROW) == Out(A4, [BYTE1, FIN_SEG]) && LeftBehind(A2, NARROW) == 3
  {
    hide Flush, Build;
    Pushes();
    SenderBuilds(A3.(state := FinWait1), NARROW, 2, FIN_ACK, []);
    assert [BYTE1] + [FIN_SEG] == [BYTE1, FIN_SEG];
  }

  lemma Byte1Arrives()
    ensures HandleSegment(B1, BYTE1, NARROW) == Out(B2, [ACK2])
  {
  }

  const A4_ACKED := Sender(FinWait1, Send([2, 3, 4], 10, 2, 3, []), 10, None, [0, 1], Some(2))
  const A4_BYTE3 := Sender(FinWait1, Send([2, 3, 4], 10, 2, 4, []), 10, Some(3), [0, 1], Some(2))
  const A4_BYTE4 := Sender(FinWait1, Send([2, 3, 4], 10, 2, 5, []), 10, Some(3), [0, 1], Some(2))

  lemma TwoMore()
    ensures Flush(A4_ACKED, WIDE) == Out(A4_BYTE4, [BYTE3, BYTE4])
  {
    hide Flush, PeekUnsent, Build;
    PeekOne(A4_ACKED.snd, 3);
    SenderBuilds(A4_ACKED, WIDE, 3, ACK_PSH, [3]);
    LastByte();
    OneMore(A4_ACKED, WIDE, 1, BYTE3, A4_BYTE3, Out(A4_BYTE4, [BYTE4]));
  }

  lemma LastByte()
    ensures Flush(A4_BYTE3, WIDE) == Out(A4_BYTE4, [BYTE4])
  {
    hide Flush, PeekUnsent, Build;
    PeekOne(A4_BYTE3.snd, 4);
    SenderBuilds(A4_BYTE3, WIDE, 4, ACK_PSH, [4]);
    FlushIdle(A4_BYTE4, WIDE);
    OneMore(A4_BYTE3, WIDE, 1, BYTE4, A4_BYTE4, Out(A4_BYTE4, []));
  }

  lemma Ack2Acks()
    ensures Acked(A4, 2, []) == A4_ACKED
  {
    assert [1, 2, 3, 4][1..] == [2, 3, 4];
  }

  lemma Ack2Arrives()
    ensures HandleSegment(A4, ACK2, WIDE) == Out(A5, [BYTE3, BYTE4])
  {
    hide Flush, Acked, Build;
    Ack2Acks();
    TwoMore();
  }

  lemma Reported(r: Recv)
    requires r.ooo == [Entry(3, [3])]
    ensures SACKBlocks(r) == [Block(3, 4)]
  {
  }

  lemma Byte3Arrives()
    ensures HandleSegment(B2, BYTE3, NARROW) == Out(B3, [ACK2_SACK])
  {
    hide SACKBlocks;
    Reported(B3.rcv);
    assert [3][0..1] == [3];
    assert Insert(B2.rcv, 3, [3]) == B3.rcv;
  }

  lemma FinArrives()
    ensures HandleSegment(B3, FIN_SEG, NARROW) == Out(B4, [ACK3_SACK])
  {
    hide SACKBlocks;
    Reported(B4.rcv);
  }

  lemma Ack3Arrives()
    ensures HandleSegment(A5, ACK3_SACK, NARROW) == Out(A6, [])
  {
  }

  // ---------------------------------------------------------------------- the run

  const OPENING := [Accept(SYN_SEG, 100, NARROW), AtA(Deliver(SYN_ACK_SEG), NARROW), AtB(Deliver(OPEN_ACK), NARROW)]
  const CUT := [AtA(Buffer([1, 2, 3, 4]), NARROW), AtA(Shut, NARROW)]
  const MORE := [AtB(Deliver(BYTE1), NARROW), AtA(Deliver(ACK2), WIDE), AtB(Deliver(BYTE3), NARROW)]
  const ENDED := [AtB(Deliver(FIN_SEG), NARROW), AtA(Deliver(ACK3_SACK), NARROW)]

  /** Both connections, what is certainly on the network, and the stream of the connecting side. */
  ghost predicate Stands(w: World, a: Conn, b: Conn, ab: set<Seg>, ba: set<Seg>, written: seq<byte>) {
    && w.accepted && w.a == a && w.b == b && ab <= w.ab && ba <= w.ba
    && w.da.base == 1 && w.da.written == written && w.da.read == []
  }

  /** An event at the connecting side. */
  lemma StepA(w: World, a: Conn, b: Conn, ab: set<Seg>, ba: set<Seg>, written: seq<byte>, act: Act, e: Env, o: Out)
    requires Stands(w, a, b, ab, ba, written) && !IsOpen(act) && !act.Take? && (act.Deliver? ==> act.seg in ba)
    requires Apply(a, act, e) == o
    ensures var n := if act.Buffer? && CanWrite(a) then act.bytes[..WriteCount(a.snd, act.bytes)] else [];
            Stands(Next(w, AtA(act, e)), o.c, b, ab + SegSet(o.segs), ba, written + n)
  {
    hide Apply, WriteCount;
  }

  /** An arrival at the accepting side. */
  lemma StepB(w: World, a: Conn, b: Conn, ab: set<Seg>, ba: set<Seg>, written: seq<byte>, seg: Seg, e: Env, o: Out)
    requires Stands(w, a, b, ab, ba, written) && seg in ab && HandleSegment(b, seg, e) == o
    ensures Stands(Next(w, AtB(Deliver(seg), e)), a, o.c, ab, ba + SegSet(o.segs), written)
  {
    hide HandleSegment;
  }

  lemma ExecThree(w: World, x: Event, y: Event, z: Event)
    ensures Exec(w, [x, y, z]) == Next(Next(Next(w, x), y), z)
  {
    hide Next;
    assert [x, y, z] == [x, y] + [z];
    ExecSplit(w, [x, y], [z]);
    TwoEvents(w, x, y);
  }

  lemma Accepted()
    ensures Stands(Next(Start(OFFERED, OFFERED, 0, NARROW), OPENING[0]), A0, B0, {}, {SYN_ACK_SEG}, [])
  {
    hide Connect, AcceptSYN;
    Opens();
    assert SYN_SEG in Start(OFFERED, OFFERED, 0, NARROW).ab;
  }

  lemma Opened()
    ensures Stands(Exec(Start(OFFERED, OFFERED, 0, NARROW), OPENING), A1, B1, {}, {}, [])
  {
    hide HandleSegment, Exec, Next, Start;
    Accepted();
    var w := Start(OFFERED, OFFERED, 0, NARROW);
    var w1 := Next(w, OPENING[0]);
    SynAckArrives();
    StepA(w1, A0, B0, {}, {SYN_ACK_SEG}, [], Deliver(SYN_ACK_SEG), NARROW, Out(A1, [OPEN_ACK]));
    var w2 := Next(w1, OPENING[1]);
    OpenAckArrives();
    StepB(w2, A1, B0, {OPEN_ACK}, {}, [], OPEN_ACK, NARROW, Out(B1, []));
    ExecThree(w, OPENING[0], OPENING[1], OPENING[2]);
  }

  lemma CutShort(w: World)
    requires Stands(w, A1, B1, {}, {}, [])
    ensures Stands(Exec(w, CUT), A4, B1, {BYTE1, FIN_SEG}, {}, [1, 2, 3, 4])
  {
    hide Close, Flush, Exec, Next, Build;
    Writes();
    StepA(w, A1, B1, {}, {}, [], Buffer([1, 2, 3, 4]), NARROW, Out(A2, []));
    assert [1, 2, 3, 4][..WriteCount(A1.snd, [1, 2, 3, 4])] == [1, 2, 3, 4];
    var w1 := Next(w, CUT[0]);
    Closes();
    StepA(w1, A2, B1, {}, {}, [1, 2, 3, 4], Shut, NARROW, Out(A4, [BYTE1, FIN_SEG]));
    TwoEvents(w, CUT[0], CUT[1]);
  }

  lemma SentAbove(w: World)
    requires Stands(w, A4, B1, {BYTE1, FIN_SEG}, {}, [1, 2, 3, 4])
    ensures Stands(Exec(w, MORE), A5, B3, {FIN_SEG}, {}, [1, 2, 3, 4])
  {
    hide HandleSegment, Exec, Next;
    Byte1Arrives();
    StepB(w, A4, B1, {BYTE1, FIN_SEG}, {}, [1, 2, 3, 4], BYTE1, NARROW, Out(B2, [ACK2]));
    var w1 := Next(w, MORE[0]);
    Ack2Arrives();
    StepA(w1, A4, B2, {FIN_SEG}, {ACK2}, [1, 2, 3, 4], Deliver(ACK2), WIDE, Out(A5, [BYTE3, BYTE4]));
    var w2 := Next(w1, MORE[1]);
    Byte3Arrives();
    StepB(w2, A5, B2, {FIN_SEG, BYTE3}, {}, [1, 2, 3, 4], BYTE3, NARROW, Out(B3, [ACK2_SACK]));
    ExecThree(w, MORE[0], MORE[1], MORE[2]);
  }

  lemma EndedEarly(w: World)
    requires Stands(w, A5, B3, {FIN_SEG}, {}, [1, 2, 3, 4])
    ensures Stands(Exec(w, ENDED), A6, B4, {}, {ACK3_SACK}, [1, 2, 3, 4])
  {
    hide HandleSegment, Exec, Next;
    FinArrives();
    StepB(w, A5, B3, {FIN_SEG}, {}, [1, 2, 3, 4], FIN_SEG, NARROW, Out(B4, [ACK3_SACK]));
    var w1 := Next(w, ENDED[0]);
    Ack3Arrives();
    StepA(w1, A5, B4, {}, {ACK3_SACK}, [1, 2, 3, 4], Deliver(ACK3_SACK), NARROW, Out(A6, []));
    TwoEvents(w, ENDED[0], ENDED[1]);
  }

  /** The position and payload of what would be resent. */
  function Resent(c: Conn): Option<(int, seq<byte>)> {
    var o := Retransmit(c, NARROW);
    if o.segs == [] then None else Some((o.segs[0].pos, o.segs[0].payload))
  }

  /**
   The run: four bytes were written and the peer consumed a FIN after one; it reported a block
   that holds SND.UNA, and what would be resent at number 3 is the byte of number 4.
   */
  lemma CloseCutsStream()
    ensures var w := WorldAfter(OFFERED, OFFERED, 0, NARROW, OPENING + CUT + MORE + ENDED);
            && w.da.written == [1, 2, 3, 4] && w.b.hist.finsIn == 1 && w.da.read + w.b.rcv.buf == [1]
            && Misplaced(w.b) && ACK3_SACK in w.ba && w.a.snd.una == 3 && IsSACKed(w.a.snd.sacked, 3)
            && Resent(w.a) == Some((3, [4])) && w.da.base == 1 && Bytes(w.da, 3, 4) == [3]
  {
    hide Exec, Start, Build, RetransmitData;
    var w := Start(OFFERED, OFFERED, 0, NARROW);
    Opened();
    ExecSplit(w, OPENING, CUT);
    CutShort(Exec(w, OPENING));
    ExecSplit(w, OPENING + CUT, MORE);
    SentAbove(Exec(w, OPENING + CUT));
    ExecSplit(w, OPENING + CUT + MORE, ENDED);
    EndedEarly(Exec(w, OPENING + CUT + MORE));
    Misled(A6.snd);
    HeldAtNxt();
    BuildShape(A6, NARROW, 3, ACK_PSH, [4]);
    assert [1, 2, 3, 4][2..3] == [3];
    assert [] + [1] == [1];
  }

  lemma HeldAtNxt()
    ensures Misplaced(B4)
  {
  }

  lemma Misled(s: Send)
    requires s == Send([3, 4], 10, 3, 5, [Block(3, 4)])
    ensures IsSACKed(s.sacked, 3) && RetransmitData(s, 1) == [4]
  {
    assert Covers(s.sacked[0], 3);
  }
}
