/**
 One connection on unwrapped positions: the TCP state machine, loss recovery,
 flow control and close, as functions from a connection and an event to the
 connection after it and the segments it queues.

 The congestion controller, the clock and timer expiry are outside: a handler
 takes what they would answer as an Env, and a timer may fire at any moment.
 */
module ConnModel {
  import opened SeqSpace
  import opened RecvModel
  import opened SendModel

  const MAX_RETRIES: nat := 8
  const DEFAULT_WINDOW: nat := 65535

  datatype State = Closed | Listen | SynSent | SynReceived | Established | FinWait1 | FinWait2
                 | CloseWait | Closing | LastAck | TimeWait

  datatype Stamp = Stamp(val: u32, ecr: u32)

  datatype Opts = Opts(mss: Option<nat>, wscale: Option<nat>, sackPerm: bool, stamp: Option<Stamp>, sack: seq<Block>)

  const NO_OPTS := Opts(None, None, false, None, [])

  datatype Flags = Flags(syn: bool, ack: bool, fin: bool, rst: bool, psh: bool)

  const ACK := Flags(false, true, false, false, false)
  const ACK_PSH := Flags(false, true, false, false, true)
  const FIN_ACK := Flags(false, true, true, false, false)
  const SYN := Flags(true, false, false, false, false)
  const SYN_ACK := Flags(true, true, false, false, false)
  const RST := Flags(false, false, false, true, false)
  const RST_ACK := Flags(false, true, false, true, false)

  datatype Seg = Seg(pos: int, ack: int, flags: Flags, wnd: nat, opts: Opts, payload: seq<byte>) {
    /** Sequence space consumed: payload, plus one for SYN, plus one for FIN. */
    function Len(): nat {
      |payload| + (if flags.syn then 1 else 0) + (if flags.fin then 1 else 0)
    }

    function End(): int { pos + |payload| }
  }

  /** What the congestion controller and the clock answer during one call. */
  datatype Env = Env(fast: bool, cwnd: nat, now: u32)

  /** What is configured, and what the handshake settles. */
  datatype Config = Config(
    mss: nat, recvCap: nat, sendCap: nat, sndShift: nat, rcvShift: nat, wscaleOK: bool,
    sackEnabled: bool, sackOK: bool, tsEnabled: bool, tsOK: bool)

  /**
   History the code does not keep: whether RCV.NXT was taken from the peer's SYN,
   how often it stepped over a FIN, where our first FIN was queued, and the timed
   positions that gave an RTT sample.
   */
  datatype History = History(synced: bool, finsIn: nat, finOut: Option<int>, sampled: seq<int>)

  datatype Conn = Conn(
    state: State, closed: bool, finRecvd: bool, timeWaitArmed: bool,
    snd: Send, rcv: Recv, sndWnd: nat, tsRecent: u32, deferred: Option<int>,
    retries: nat, timing: Option<int>, cfg: Config, hist: History)

  datatype Out = Out(c: Conn, segs: seq<Seg>)

  function ShiftLeft(n: nat, k: nat): (r: nat)
    ensures r >= n
    decreases k
  {
    if k == 0 then n else ShiftLeft(2 * n, k - 1)
  }

  function ShiftRight(n: nat, k: nat): (r: nat)
    ensures r <= n
    decreases k
  {
    if k == 0 then n else ShiftRight(n, k - 1) / 2
  }

  /** A freshly created connection. */
  function NewConn(cfg: Config): Conn {
    Conn(Closed, false, false, false, NewSend(cfg.sendCap, 0), NewRecv(0, cfg.recvCap), DEFAULT_WINDOW, 0, None,
         0, None, cfg.(sndShift := 0, wscaleOK := false, sackOK := false, tsOK := false),
         History(false, 0, None, []))
  }

  // ---------------------------------------------------------- segment builders

  /** The window field: free space, zero when silly, scaled and capped to 16 bits. */
  function RcvWindow(c: Conn): nat {
    var thresh := if c.cfg.recvCap / 2 < c.cfg.mss then c.cfg.recvCap / 2 else c.cfg.mss;
    var avail := if Window(c.rcv) < thresh then 0 else Window(c.rcv);
    var scaled := if c.cfg.wscaleOK then ShiftRight(avail, c.cfg.rcvShift) else avail;
    if scaled > 65535 then 65535 else scaled
  }

  function Options(c: Conn, e: Env): Opts {
    Opts(None, None, false,
         if c.cfg.tsOK then Some(Stamp(e.now, c.tsRecent)) else None,
         if c.cfg.sackOK then SACKBlocks(c.rcv) else [])
  }

  function SynOptions(c: Conn, e: Env): Opts {
    Opts(Some(c.cfg.mss % 65536), Some(c.cfg.rcvShift), c.cfg.sackEnabled,
         if c.cfg.tsEnabled then Some(Stamp(e.now, 0)) else None, [])
  }

  function Build(c: Conn, e: Env, pos: int, flags: Flags, payload: seq<byte>): Seg {
    Seg(pos, c.rcv.nxt, flags, RcvWindow(c), Options(c, e), payload)
  }

  function AckSeg(c: Conn, e: Env): Seg { Build(c, e, c.snd.nxt, ACK, []) }

  function RstSeg(pos: int): Seg { Seg(pos, 0, RST, 0, NO_OPTS, []) }

  function SynSeg(c: Conn, e: Env): Seg { Seg(c.snd.una, 0, SYN, RcvWindow(c), SynOptions(c, e), []) }

  function SynAckSeg(c: Conn, e: Env): Seg { Seg(c.snd.una, c.rcv.nxt, SYN_ACK, RcvWindow(c), SynOptions(c, e), []) }

  // ------------------------------------------------------------------- sending

  function StartTiming(t: Option<int>, p: int): Option<int> { if t.Some? then t else Some(p) }

  /** How much the next queued segment may carry; 0 means stop. */
  function Quota(c: Conn, e: Env): nat {
    var avail := Min(c.sndWnd, e.cwnd) - Unacked(c.snd);
    var n := Min(avail, Min(c.cfg.mss, Pending(c.snd)));
    if n <= 0 || (n < c.cfg.mss && Unacked(c.snd) > 0) then 0 else n
  }

  /** The connection after one segment of n unsent bytes. */
  function OneSegmentIn(c: Conn, n: nat): Conn {
    c.(snd := AdvanceSent(c.snd, n), timing := StartTiming(c.timing, c.snd.nxt))
  }

  /** Queue unsent data as far as both windows and the small-segment rule allow. */
  function Flush(c: Conn, e: Env): Out
    decreases if Pending(c.snd) > 0 then Pending(c.snd) else 0
  {
    var n := Quota(c, e);
    if n == 0 then Out(c, [])
    else
      var seg := Build(c, e, c.snd.nxt, ACK_PSH, PeekUnsent(c.snd, n));
      var rest := Flush(OneSegmentIn(c, n), e);
      Out(rest.c, [seg] + rest.segs)
  }

  /** Resend from SND.UNA, skipping what the peer reported. */
  function Retransmit(c: Conn, e: Env): Out {
    var data := RetransmitData(c.snd, c.cfg.mss);
    if data == [] then Out(c, [])
    else Out(c.(timing := None), [Build(c, e, c.snd.una, ACK_PSH, data)])
  }

  function QueueFin(c: Conn, e: Env): Out {
    Out(c.(snd := AdvanceSent(c.snd, 1),
           hist := c.hist.(finOut := if c.hist.finOut.None? then Some(c.snd.nxt) else c.hist.finOut)),
        [Build(c, e, c.snd.nxt, FIN_ACK, [])])
  }

  function Mark(c: Conn, sack: seq<Block>): Conn {
    if c.cfg.sackOK then c.(snd := MarkSACKed(c.snd, sack)) else c
  }

  function AckTiming(c: Conn, ack: int): Conn {
    if c.timing.Some? && ack > c.timing.value
    then c.(timing := None, hist := c.hist.(sampled := c.hist.sampled + [c.timing.value]))
    else c
  }

  /** The effect of an ACK of something in flight, before more is sent. */
  function Acked(c: Conn, ack: int, sack: seq<Block>): Conn {
    AckTiming(Mark(c.(snd := Acknowledge(c.snd, ack), retries := 0), sack), ack)
  }

  function ProcessACK(c: Conn, ack: int, sack: seq<Block>, e: Env): Out {
    if ack <= c.snd.una then
      var o := if e.fast then Retransmit(c, e) else Out(c, []);
      Out(Mark(o.c, sack), o.segs)
    else if ack > c.snd.nxt then Out(c, [AckSeg(c, e)])
    else
      Flush(Acked(c, ack, sack), e)
  }

  // ----------------------------------------------------------------- receiving

  function EnterTimeWait(c: Conn): Conn { c.(state := TimeWait, timeWaitArmed := true) }

  /** The transition an in-order FIN causes. */
  function FinTransition(c: Conn): Conn {
    match c.state
    case Established => c.(state := CloseWait, finRecvd := true)
    case FinWait1 =>
      if Unacked(c.snd) == 0 then EnterTimeWait(c.(finRecvd := true)) else c.(state := Closing, finRecvd := true)
    case FinWait2 => EnterTimeWait(c.(finRecvd := true))
    case _ => c
  }

  /** Step RCV.NXT over an in-order FIN. */
  function ConsumeFin(c: Conn): Conn {
    FinTransition(c.(rcv := c.rcv.(nxt := c.rcv.nxt + 1), hist := c.hist.(finsIn := c.hist.finsIn + 1)))
  }

  /** Insert payload; a FIN deferred earlier is consumed when the gap before it closes. */
  function ProcessData(c: Conn, seg: Seg): Conn {
    var c1 := c.(rcv := Insert(c.rcv, seg.pos, seg.payload));
    if c1.deferred == Some(c1.rcv.nxt) then ConsumeFin(c1.(deferred := None)) else c1
  }

  /** Consume an in-order FIN, defer one that is early. */
  function ProcessFin(c: Conn, seg: Seg): Conn {
    if seg.End() == c.rcv.nxt then ConsumeFin(c) else c.(deferred := Some(seg.End()))
  }

  /** True when the timestamp shows an old duplicate. */
  predicate Stale(c: Conn, seg: Seg) {
    c.cfg.tsOK && seg.opts.stamp.Some? && c.tsRecent != 0 && Int32(Sub32(seg.opts.stamp.value.val, c.tsRecent)) < 0
  }

  function UpdateStamp(c: Conn, seg: Seg): Conn {
    if c.cfg.tsOK && seg.opts.stamp.Some? then c.(tsRecent := seg.opts.stamp.value.val) else c
  }

  function TakeWindow(c: Conn, seg: Seg): Conn { c.(sndWnd := ShiftLeft(seg.wnd, c.cfg.sndShift)) }

  /** The FIN flag; without one, the FIN-WAIT-1 to FIN-WAIT-2 step. */
  function Finish(c: Conn, seg: Seg): Conn {
    if seg.flags.fin then ProcessFin(c, seg)
    else if c.state == FinWait1 && seg.ack == c.snd.nxt then c.(state := FinWait2)
    else c
  }

  /** Data and FIN of a segment. */
  function Absorb(c: Conn, seg: Seg): Conn {
    Finish(if seg.payload != [] then ProcessData(c, seg) else c, seg)
  }

  /** The common handler of the states that take data. */
  function HandleData(c: Conn, seg: Seg, e: Env): Out {
    if Stale(c, seg) then Out(c, [AckSeg(c, e)])
    else
      var o := ProcessACK(UpdateStamp(c, seg), seg.ack, seg.opts.sack, e);
      var c1 := Absorb(TakeWindow(o.c, seg), seg);
      Out(c1, o.segs + if seg.payload != [] || seg.flags.fin then [AckSeg(c1, e)] else [])
  }

  predicate InRange(p: int, lo: int, n: nat) { lo <= p < lo + n }

  /** The acceptance test of section 3.10.7.4 of RFC 9293, against the whole buffer. */
  predicate Acceptable(c: Conn, seg: Seg) {
    InRange(seg.pos, c.rcv.nxt, c.cfg.recvCap)
    || (seg.Len() > 0 && InRange(seg.pos + seg.Len() - 1, c.rcv.nxt, c.cfg.recvCap))
  }

  function Shutdown(c: Conn): Conn { c.(state := Closed, closed := true) }

  function HandleRst(c: Conn, seg: Seg, e: Env): Out {
    if seg.pos == c.rcv.nxt then Out(Shutdown(c).(finRecvd := true), [])
    else if InRange(seg.pos, c.rcv.nxt, Window(c.rcv)) then Out(c, [AckSeg(c, e)])
    else Out(c, [])
  }

  function HandleSynReceived(c: Conn, seg: Seg, e: Env): Out {
    if seg.ack != c.snd.nxt then Out(c, [RstSeg(seg.ack)])
    else HandleData(TakeWindow(c.(snd := Acknowledge(c.snd, seg.ack), retries := 0, state := Established), seg), seg, e)
  }

  /** A simultaneous open's SYN-ACK repeats the SYN below RCV.NXT; its ACK makes it good. */
  predicate SynRcvdOK(c: Conn, seg: Seg) {
    c.state == SynReceived && seg.flags.syn && seg.flags.ack && seg.ack == c.snd.nxt
  }

  function HandleSynchronized(c: Conn, seg: Seg, e: Env): Out {
    if !Acceptable(c, seg) && !SynRcvdOK(c, seg) then Out(c, if seg.flags.rst then [] else [AckSeg(c, e)])
    else if seg.flags.rst then HandleRst(c, seg, e)
    else if seg.flags.syn && c.state != SynReceived then Out(c, [AckSeg(c, e)])
    else if !seg.flags.ack then Out(c, [])
    else
      match c.state
      case SynReceived => HandleSynReceived(c, seg, e)
      case Established => HandleData(c, seg, e)
      case FinWait1 => HandleData(c, seg, e)
      case FinWait2 => HandleData(c, seg, e)
      case CloseWait =>
        var o := ProcessACK(c, seg.ack, seg.opts.sack, e);
        Out(TakeWindow(o.c, seg), o.segs)
      case Closing =>
        var c1 := if seg.ack == c.snd.nxt then EnterTimeWait(c) else c;
        Out(c1, [AckSeg(c1, e)])
      case LastAck => Out(if seg.ack == c.snd.nxt then Shutdown(c) else c, [])
      case _ => Out(c, [AckSeg(c, e)])
  }

  // ----------------------------------------------------------------- handshake

  /** Take what the peer's SYN offers. */
  function Negotiate(c: Conn, o: Opts): Conn {
    var mss := if o.mss.Some? && 0 < o.mss.value < c.cfg.mss then o.mss.value else c.cfg.mss;
    var shift := if o.wscale.Some? then Min(o.wscale.value, 14) else c.cfg.sndShift;
    var ts := c.cfg.tsEnabled && o.stamp.Some?;
    c.(cfg := c.cfg.(mss := mss, sndShift := shift,
                     wscaleOK := c.cfg.wscaleOK || o.wscale.Some?,
                     sackOK := c.cfg.sackOK || (c.cfg.sackEnabled && o.sackPerm),
                     tsOK := c.cfg.tsOK || ts),
       tsRecent := if ts then o.stamp.value.val else c.tsRecent)
  }

  /** RCV.NXT follows the peer's SYN; data riding on it is kept. */
  function Synchronize(c: Conn, seg: Seg): Conn {
    c.(rcv := Insert(NewRecv(seg.pos + 1, c.cfg.recvCap), seg.pos + 1, seg.payload), hist := c.hist.(synced := true))
  }

  function HandleSynSent(c: Conn, seg: Seg, e: Env): Out {
    if seg.flags.ack && (seg.ack <= c.snd.una || seg.ack > c.snd.nxt) then
      Out(c, if seg.flags.rst then [] else [RstSeg(seg.ack)])
    else if seg.flags.rst then Out(if seg.flags.ack then Shutdown(c).(finRecvd := true) else c, [])
    else if !seg.flags.syn then Out(c, [])
    else
      var c1 := Synchronize(TakeWindow(Negotiate(c, seg.opts), seg), seg);
      if seg.flags.ack then
        var c2 := AckTiming(c1.(snd := Acknowledge(c1.snd, seg.ack), retries := 0, state := Established), seg.ack);
        var o := Flush(c2, e);
        Out(o.c, [AckSeg(c2, e)] + o.segs)
      else
        var c2 := c1.(state := SynReceived, retries := 0);
        Out(c2, [SynAckSeg(c2, e)])
  }

  function HandleClosed(c: Conn, seg: Seg): Out {
    if seg.flags.rst then Out(c, [])
    else if seg.flags.ack then Out(c, [RstSeg(seg.ack)])
    else Out(c, [Seg(0, seg.pos + seg.Len(), RST_ACK, 0, NO_OPTS, [])])
  }

  function HandleSegment(c: Conn, seg: Seg, e: Env): Out {
    match c.state
    case Closed => HandleClosed(c, seg)
    case Listen => Out(c, [])
    case SynSent => HandleSynSent(c, seg, e)
    case _ => HandleSynchronized(c, seg, e)
  }

  // ----------------------------------------------------- opening and application

  function Opened(h: History, synced: bool): History { h.(synced := synced, finsIn := 0, finOut := None) }

  function Connect(c: Conn, iss: int, e: Env): Out {
    if c.state != Closed then Out(c, [])
    else
      var c1 := c.(snd := AdvanceSent(NewSend(c.cfg.sendCap, iss), 1), rcv := NewRecv(0, c.cfg.recvCap),
                   state := SynSent, timing := StartTiming(c.timing, iss), hist := Opened(c.hist, false));
      Out(c1, [SynSeg(c1, e)])
  }

  function AcceptSYN(c: Conn, syn: Seg, iss: int, e: Env): Out {
    if c.state != Closed && c.state != Listen then Out(c, [])
    else
      var c1 := Negotiate(c, syn.opts).(snd := NewSend(c.cfg.sendCap, iss), rcv := NewRecv(syn.pos + 1, c.cfg.recvCap),
                                        state := SynReceived, hist := Opened(c.hist, true));
      Out(Synchronize(c1.(snd := AdvanceSent(c1.snd, 1)), syn), [SynAckSeg(c1, e)])
  }

  function AcceptCookie(c: Conn, remotePos: int, iss: int, mss: nat, data: seq<byte>, e: Env): Out {
    if c.state != Closed && c.state != Listen then Out(c, [])
    else
      var c1 := c.(cfg := c.cfg.(mss := Min(mss, c.cfg.mss)), snd := NewSend(c.cfg.sendCap, iss + 1),
                   rcv := Insert(NewRecv(remotePos, c.cfg.recvCap), remotePos, data),
                   state := Established, hist := Opened(c.hist, true));
      Out(c1, [Seg(c1.snd.nxt, c1.rcv.nxt, ACK, RcvWindow(c1), NO_OPTS, [])])
  }

  predicate CanWrite(c: Conn) { !c.closed && (c.state == Established || c.state == CloseWait) }

  function Close(c: Conn, e: Env): Out {
    if c.closed then Out(c, [])
    else
      match c.state
      case Established =>
        var o := Flush(c, e);
        var f := QueueFin(o.c.(state := FinWait1), e);
        Out(f.c, o.segs + f.segs)
      case CloseWait => QueueFin(c.(state := LastAck), e)
      case SynSent => Out(Shutdown(c), [])
      case SynReceived => QueueFin(c.(state := FinWait1), e)
      case FinWait1 => Out(c, [])
      case FinWait2 => Out(c, [])
      case _ => Out(Shutdown(c), [])
  }

  function Abort(c: Conn): Out {
    if c.state == Closed then Out(c, [])
    else Out(Shutdown(c).(finRecvd := true), if c.state == SynSent then [] else [RstSeg(c.snd.nxt)])
  }

  /** What one look of Read at the connection gives: bytes, the end of the stream, or a wait. */
  datatype Answer = Got(bytes: seq<byte>) | Eof | Waits

  function ReadAnswer(c: Conn, n: nat): Answer {
    if c.rcv.buf != [] then Got(c.rcv.buf[..Min(n, |c.rcv.buf|)])
    else if c.closed || c.finRecvd then Eof
    else Waits
  }

  // -------------------------------------------------------------------- timers

  function OnRTO(c: Conn, e: Env): Out {
    if c.closed || c.state == Closed then Out(c, [])
    else if c.retries + 1 > MAX_RETRIES then Out(Shutdown(c).(retries := c.retries + 1), [])
    else
      var c1 := c.(retries := c.retries + 1, timing := None);
      match c.state
      case SynSent => Out(c1, [SynSeg(c1, e)])
      case SynReceived => Out(c1, [SynAckSeg(c1, e)])
      case Established => Retransmit(c1, e)
      case CloseWait => Retransmit(c1, e)
      case FinWait1 => QueueFin(c1, e)
      case LastAck => QueueFin(c1, e)
      case _ => Out(c1, [])
  }

  /** The persist timer: flush if the window opened, otherwise probe with one byte. */
  function OnPersist(c: Conn, e: Env): Out {
    if c.closed || c.state == Closed then Out(c, [])
    else if c.sndWnd > 0 then Flush(c, e)
    else if Pending(c.snd) > 0 then
      Out(c.(snd := AdvanceSent(c.snd, 1)),
          [Seg(c.snd.nxt, c.rcv.nxt, ACK, RcvWindow(c), NO_OPTS, PeekUnsent(c.snd, 1))])
    else Out(c, [])
  }

  function OnTimeWait(c: Conn): Out {
    if c.timeWaitArmed then Out(Shutdown(c).(timeWaitArmed := false), []) else Out(c, [])
  }

  function OnKeepalive(c: Conn, idle: bool, exhausted: bool, e: Env): Out {
    if c.closed || (c.state != Established && c.state != CloseWait) || !idle then Out(c, [])
    else if exhausted then Out(Shutdown(c).(finRecvd := true), [])
    else Out(c, [Build(c, e, c.snd.nxt - 1, ACK, [])])
  }

  // -------------------------------------------------------------------- events

  datatype Act =
    | Opening(iss: int)
    | Accepting(syn: Seg, iss: int)
    | AcceptingCookie(remotePos: int, iss: int, cookieMss: nat, data: seq<byte>)
    | Deliver(seg: Seg)
    | Buffer(bytes: seq<byte>)
    | Push
    | Take(count: nat)
    | Shut
    | Kill
    | Retry
    | Persist
    | Expire
    | Probe(idle: bool, exhausted: bool)

  /**
   One atomic step. A blocking Write is Buffer steps followed by Push, both in a
   state that takes writes; Take is the part of Read that hands bytes over.
   */
  function Apply(c: Conn, a: Act, e: Env): Out {
    match a
    case Opening(iss) => Connect(c, iss, e)
    case Accepting(syn, iss) => AcceptSYN(c, syn, iss, e)
    case AcceptingCookie(p, iss, mss, data) => AcceptCookie(c, p, iss, mss, data, e)
    case Deliver(seg) => HandleSegment(c, seg, e)
    case Buffer(p) => Out(if CanWrite(c) then c.(snd := Write(c.snd, p)) else c, [])
    case Push => if CanWrite(c) then Flush(c, e) else Out(c, [])
    case Take(n) => Out(c.(rcv := Read(c.rcv, n)), [])
    case Shut => Close(c, e)
    case Kill => Abort(c)
    case Retry => OnRTO(c, e)
    case Persist => OnPersist(c, e)
    case Expire => OnTimeWait(c)
    case Probe(idle, exhausted) => OnKeepalive(c, idle, exhausted, e)
  }

  /** A run: events one after another, each with its environment. */
  function Run(c: Conn, acts: seq<(Act, Env)>): Conn
    decreases acts
  {
    if acts == [] then c else Run(Apply(c, acts[0].0, acts[0].1).c, acts[1..])
  }
}
