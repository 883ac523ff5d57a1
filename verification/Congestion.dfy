/**
 NewReno congestion control (RFC 5681): the window over any sequence of events,
 when fast retransmit may repeat, and how fast congestion avoidance grows.
 */
module Congestion {
  import opened SeqSpace

  const INITIAL_BYTES: nat := 14600

  datatype Reno = Reno(cwnd: nat, ssthresh: nat, mss: nat, dupAcks: nat, recovery: bool, recoverySeq: u32)

  // ------------------------------------------------------------------ operations

  /** min(10 MSS, max(2 MSS, 14600)), as RFC 6928 says. */
  function NewReno(mss: nat): Reno {
    Reno(Min(10 * mss, Max(2 * mss, INITIAL_BYTES)), TWO32 - 1, mss, 0, false, 0)
  }

  /** The congestion-avoidance increment: MSS^2 / cwnd, at least one byte. */
  function Step(mss: nat, cwnd: nat): nat
    requires cwnd > 0
  {
    if mss * mss / cwnd == 0 then 1 else mss * mss / cwnd
  }

  function OnACK(r: Reno, acked: nat): Reno
    requires r.cwnd > 0
  {
    var r1 := r.(dupAcks := 0);
    if r.cwnd < r.ssthresh then r1.(cwnd := r.cwnd + Min(acked, r.mss)) else r1.(cwnd := r.cwnd + Step(r.mss, r.cwnd))
  }

  /** True on the third duplicate outside recovery: time for fast retransmit. */
  predicate Third(r: Reno) { r.dupAcks + 1 == 3 && !r.recovery }

  function OnDupACK(r: Reno): Reno {
    var r1 := r.(dupAcks := r.dupAcks + 1);
    if r.recovery && r.dupAcks + 1 > 3 then r1.(cwnd := r.cwnd + r.mss) else r1
  }

  function OnFastRetransmit(r: Reno, flight: nat, sndNxt: u32): Reno {
    var t := Max(flight / 2, 2 * r.mss);
    r.(ssthresh := t, cwnd := t + 3 * r.mss, recovery := true, recoverySeq := sndNxt)
  }

  function ExitRecovery(r: Reno): Reno { r.(cwnd := r.ssthresh, recovery := false, dupAcks := 0, recoverySeq := 0) }

  function OnTimeout(r: Reno): Reno {
    Reno(r.mss, Max(r.cwnd / 2, 2 * r.mss), r.mss, 0, false, 0)
  }

  // ---------------------------------------------------------------------- events

  /** What a connection reports: new data acknowledged, a duplicate, or a timeout. */
  datatype Event =
    | Acked(bytes: nat, reached: bool)
    | Duplicate(flight: nat, sndNxt: u32)
    | Timeout

  /** One event as the ACK handler drives it: recovery ends only by an ACK that reaches the recovery point. */
  function Apply(r: Reno, ev: Event): Reno
    requires r.cwnd > 0
  {
    match ev
    case Acked(n, reached) =>
      var r1 := OnACK(r, n);
      if r1.recovery && reached then ExitRecovery(r1) else r1
    case Duplicate(flight, sndNxt) =>
      if Third(r) then OnFastRetransmit(OnDupACK(r), flight, sndNxt) else OnDupACK(r)
    case Timeout => OnTimeout(r)
  }

  predicate Fires(r: Reno, ev: Event) { ev.Duplicate? && Third(r) }

  /** The window never falls below one segment nor the threshold below two. */
  predicate Sound(r: Reno) { 0 < r.mss <= r.cwnd && 2 * r.mss <= r.ssthresh }

  lemma NewSound(mss: nat)
    requires 0 < mss < TWO31
    ensures Sound(NewReno(mss))
  {
  }

  lemma ApplySound(r: Reno, ev: Event)
    requires Sound(r)
    ensures Sound(Apply(r, ev)) && Apply(r, ev).mss == r.mss
  {
  }

  function Run(r: Reno, evs: seq<Event>): (q: Reno)
    requires Sound(r)
    ensures Sound(q) && q.mss == r.mss
    decreases evs
  {
    if evs == [] then r else ApplySound(r, evs[0]); Run(Apply(r, evs[0]), evs[1..])
  }

  /** An event that ends recovery. */
  predicate Ends(ev: Event) { ev.Timeout? || (ev.Acked? && ev.reached) }

  /** Recovery lasts until something ends it. */
  lemma {:induction false} RecoveryLasts(r: Reno, evs: seq<Event>)
    requires Sound(r) && r.recovery && forall i :: 0 <= i < |evs| ==> !Ends(evs[i])
    ensures Run(r, evs).recovery
    decreases evs
  {
    if evs != [] {
      ApplySound(r, evs[0]);
      RecoveryLasts(Apply(r, evs[0]), evs[1..]);
    }
  }

  /** Two fast retransmits are always separated by the end of a recovery or a timeout. */
  lemma FastRetransmitsSeparated(r: Reno, first: Event, between: seq<Event>, second: Event)
    requires Sound(r) && Fires(r, first)
    requires Fires(Run(Apply(r, first), between), second)
    ensures exists i :: 0 <= i < |between| && Ends(between[i])
  {
    ApplySound(r, first);
    if forall i :: 0 <= i < |between| ==> !Ends(between[i]) {
      RecoveryLasts(Apply(r, first), between);
    }
  }

  // ------------------------------------------------------------ slow start and recovery

  /** The initial window of RFC 6928: ten segments, two of large ones, 14600 bytes in between. */
  lemma InitialWindow(mss: nat)
    ensures var r := NewReno(mss);
            && r.cwnd == (if mss <= 1460 then 10 * mss else if mss <= 7300 then 14600 else 2 * mss)
            && r.ssthresh == 0xFFFF_FFFF && !r.recovery && r.dupAcks == 0
  {
  }

  /** Below the threshold k ACKs of whole segments add k segments: a round of them doubles the window. */
  lemma {:induction false} SlowStart(r: Reno, acks: seq<Event>)
    requires Sound(r) && r.cwnd + |acks| * r.mss <= r.ssthresh && !r.recovery
    requires forall i :: 0 <= i < |acks| ==> acks[i].Acked? && acks[i].bytes >= r.mss
    ensures Run(r, acks) == r.(cwnd := r.cwnd + |acks| * r.mss, dupAcks := if acks == [] then r.dupAcks else 0)
    decreases acks
  {
    if acks != [] {
      ApplySound(r, acks[0]);
      assert |acks| * r.mss == r.mss + |acks[1..]| * r.mss;
      SlowStart(Apply(r, acks[0]), acks[1..]);
    }
  }

  /** An ACK of less than a segment adds just what it acknowledges. */
  lemma SmallAck(r: Reno, n: nat)
    requires Sound(r) && r.cwnd < r.ssthresh && n <= r.mss && !r.recovery
    ensures Apply(r, Acked(n, false)).cwnd == r.cwnd + n
  {
  }

  function Duplicates(k: nat, flight: nat, sndNxt: u32): seq<Event> {
    if k == 0 then [] else Duplicates(k - 1, flight, sndNxt) + [Duplicate(flight, sndNxt)]
  }

  lemma {:induction false} RunLast(r: Reno, evs: seq<Event>, ev: Event)
    requires Sound(r)
    ensures Run(r, evs + [ev]) == Apply(Run(r, evs), ev)
    decreases evs
  {
    if evs == [] {
      ApplySound(r, ev);
      assert Run(r, [ev]) == Run(Apply(r, ev), []);
    } else {
      ApplySound(r, evs[0]);
      RunLast(Apply(r, evs[0]), evs[1..], ev);
      assert (evs + [ev])[1..] == evs[1..] + [ev];
    }
  }

  /** t is half of x, rounded down, but no less than two segments. */
  ghost predicate HalfOf(x: nat, mss: nat, t: nat) {
    t >= 2 * mss && (2 * t <= x < 2 * t + 2 || (t == 2 * mss && x < 4 * mss))
  }

  /**
   Outside recovery nothing happens on the first two duplicates; the third sets the threshold to
   half of what is in flight and the window three segments above it; each further one adds one.
   */
  lemma {:induction false} DuplicatesRun(r: Reno, k: nat, flight: nat, sndNxt: u32)
    requires Sound(r) && !r.recovery && r.dupAcks == 0
    ensures var q := Run(r, Duplicates(k, flight, sndNxt));
            && q.dupAcks == k && q.mss == r.mss && (q.recovery <==> k >= 3)
            && (k < 3 ==> q.cwnd == r.cwnd && q.ssthresh == r.ssthresh)
            && (k >= 3 ==>
                  HalfOf(flight, r.mss, q.ssthresh) && q.cwnd == q.ssthresh + k * r.mss && q.recoverySeq == sndNxt)
    decreases k
  {
    if k > 0 {
      DuplicatesRun(r, k - 1, flight, sndNxt);
      RunLast(r, Duplicates(k - 1, flight, sndNxt), Duplicate(flight, sndNxt));
      assert k * r.mss == (k - 1) * r.mss + r.mss;
    }
  }

  /** Fast retransmit happens on the third duplicate in a row, and on no other. */
  lemma ThirdFires(r: Reno, k: nat, flight: nat, sndNxt: u32)
    requires Sound(r) && !r.recovery && r.dupAcks == 0
    ensures Fires(Run(r, Duplicates(k, flight, sndNxt)), Duplicate(flight, sndNxt)) <==> k == 2
  {
    DuplicatesRun(r, k, flight, sndNxt);
  }

  /** A recovery, however many duplicates it saw, ends with the window at half of what was in flight when it began. */
  lemma RecoveryHalves(r: Reno, k: nat, flight: nat, sndNxt: u32, n: nat)
    requires Sound(r) && !r.recovery && r.dupAcks == 0 && k >= 3
    ensures var q := Run(r, Duplicates(k, flight, sndNxt) + [Acked(n, true)]);
            q.cwnd == q.ssthresh && HalfOf(flight, r.mss, q.cwnd) && !q.recovery && q.dupAcks == 0
  {
    DuplicatesRun(r, k, flight, sndNxt);
    RunLast(r, Duplicates(k, flight, sndNxt), Acked(n, true));
  }

  /** A timeout leaves one segment, and half the window as the threshold. */
  lemma TimeoutHalves(r: Reno)
    requires Sound(r)
    ensures var q := Apply(r, Timeout);
            q.cwnd == r.mss && HalfOf(r.cwnd, r.mss, q.ssthresh) && !q.recovery && q.dupAcks == 0
  {
  }

  // ------------------------------------------------------------ congestion avoidance

  /** The window after k ACKs in congestion avoidance. */
  function Grow(mss: nat, cwnd: nat, k: nat): (w: nat)
    requires cwnd > 0
    ensures w >= cwnd
    decreases k
  {
    if k == 0 then cwnd else Grow(mss, cwnd + Step(mss, cwnd), k - 1)
  }

  /** One ACK at or above the threshold adds MSS^2 / cwnd, rounded down, but at least one byte. */
  lemma AvoidanceStep(r: Reno, n: nat)
    requires Sound(r) && r.cwnd >= r.ssthresh && !r.recovery
    ensures var inc := Apply(r, Acked(n, false)).cwnd - r.cwnd;
            if r.mss * r.mss < r.cwnd then inc == 1 else inc * r.cwnd <= r.mss * r.mss < (inc + 1) * r.cwnd
  {
    var q, m := r.mss * r.mss / r.cwnd, r.mss * r.mss;
    assert m == q * r.cwnd + m % r.cwnd;
    assert (q + 1) * r.cwnd == q * r.cwnd + r.cwnd;
    if m >= r.cwnd { Positive(m, r.cwnd); } else { Zero(m, r.cwnd); }
  }

  lemma Positive(a: nat, b: nat)
    requires 0 < b <= a
    ensures a / b > 0
  {
    assert a == a / b * b + a % b;
  }

  lemma Zero(a: nat, b: nat)
    requires a < b
    ensures a / b == 0
  {
  }

  /** Grow is what k events do. */
  lemma {:induction false} GrowIsRun(r: Reno, acks: seq<Event>)
    requires Sound(r) && !r.recovery && r.cwnd >= r.ssthresh && forall i :: 0 <= i < |acks| ==> acks[i].Acked?
    ensures Run(r, acks).cwnd == Grow(r.mss, r.cwnd, |acks|)
    decreases acks
  {
    if acks != [] {
      ApplySound(r, acks[0]);
      GrowIsRun(Apply(r, acks[0]), acks[1..]);
    }
  }

  lemma DivMonotone(a: nat, b: nat, c: nat)
    requires 0 < b <= c
    ensures a / c <= a / b
  {
    if a / c > a / b {
      var x, y := a / b, a / c;
      assert a < (x + 1) * b;
      MulLe(x + 1, y, b);
      MulLe2(y, b, c);
    }
  }

  lemma MulLe(x: nat, y: nat, b: nat)
    requires x <= y
    ensures x * b <= y * b
  {
  }

  lemma MulLe2(y: nat, b: nat, c: nat)
    requires b <= c
    ensures y * b <= y * c
  {
  }

  /** k steps add at most k times the first. */
  lemma {:induction false} GrowBound(mss: nat, cwnd: nat, step: nat, k: nat)
    requires cwnd > 0 && step >= Step(mss, cwnd)
    ensures Grow(mss, cwnd, k) <= cwnd + k * step
    decreases k
  {
    if k > 0 {
      var c1 := cwnd + Step(mss, cwnd);
      DivMonotone(mss * mss, cwnd, c1);
      GrowBound(mss, c1, step, k - 1);
      assert (k - 1) * step + step == k * step;
    }
  }

  /** k steps add at least k bytes. */
  lemma {:induction false} GrowAtLeast(mss: nat, cwnd: nat, k: nat)
    requires cwnd > 0
    ensures Grow(mss, cwnd, k) >= cwnd + k
    decreases k
  {
    if k > 0 { GrowAtLeast(mss, cwnd + Step(mss, cwnd), k - 1); }
  }

  lemma Regroup(k: nat, q: nat, mss: nat)
    ensures (k * mss) * q == (k * q) * mss
  {
  }

  lemma CancelMss(x: nat, mss: nat)
    requires mss > 0 && x * mss <= mss * mss
    ensures x <= mss
  {
    if x > mss { MulLe(mss + 1, x, mss); }
  }

  lemma ProductOf(k: nat, q: nat, mss: nat, cwnd: nat)
    requires mss > 0 && k * mss <= cwnd && q * cwnd <= mss * mss
    ensures k * q <= mss
  {
    var a, b, c := k * mss, k * q, q * cwnd;
    MulLe(a, cwnd, q);
    Regroup(k, q, mss);
    Commute(cwnd, q);
    CancelMss(b, mss);
  }

  lemma Commute(x: nat, y: nat)
    ensures x * y == y * x
  {
  }

  /** floor(cwnd/mss) * floor(mss^2/cwnd) <= mss. */
  lemma ProductBound(mss: nat, cwnd: nat)
    requires 0 < mss && 0 < cwnd
    ensures (cwnd / mss) * (mss * mss / cwnd) <= mss
  {
    Quotient(cwnd, mss);
    Quotient(mss * mss, cwnd);
    ProductOf(cwnd / mss, mss * mss / cwnd, mss, cwnd);
  }

  lemma Quotient(a: nat, b: nat)
    requires b > 0
    ensures a / b * b <= a
  {
  }

  /**
   One round trip of congestion avoidance, that is floor(cwnd / MSS) ACKs, adds at most one
   MSS exactly when the window is at most MSS segments; beyond that the one-byte floor of the
   increment adds more.
   */
  lemma OneSegmentPerRound(mss: nat, cwnd: nat)
    requires 0 < mss <= cwnd
    ensures Grow(mss, cwnd, cwnd / mss) <= cwnd + mss <==> cwnd / mss <= mss
  {
    var k := cwnd / mss;
    if k <= mss {
      GrowBound(mss, cwnd, Step(mss, cwnd), k);
      ProductBound(mss, cwnd);
      if mss * mss / cwnd == 0 { assert k * 1 <= mss; }
    } else {
      GrowAtLeast(mss, cwnd, k);
    }
  }

  const ONE := Acked(1, false)

  /** Slow start from one segment of one byte up to the threshold a timeout left. */
  lemma BackAtThreshold()
    requires Sound(NewReno(1))
    ensures Run(NewReno(1), [Timeout, ONE, ONE, ONE, ONE]) == Reno(5, 5, 1, 0, false, 0)
  {
    hide Run;
    assert [ONE, ONE, ONE, ONE] == [ONE] + [ONE, ONE, ONE] && [ONE, ONE, ONE] == [ONE] + [ONE, ONE];
    assert [ONE, ONE] == [ONE] + [ONE] && [ONE] == [ONE] + [];
    assert [Timeout, ONE, ONE, ONE, ONE] == [Timeout] + [ONE, ONE, ONE, ONE];
    RunFirst(NewReno(1), Timeout, [ONE, ONE, ONE, ONE]);
    RunFirst(Reno(1, 5, 1, 0, false, 0), ONE, [ONE, ONE, ONE]);
    RunFirst(Reno(2, 5, 1, 0, false, 0), ONE, [ONE, ONE]);
    RunFirst(Reno(3, 5, 1, 0, false, 0), ONE, [ONE]);
    RunFirst(Reno(4, 5, 1, 0, false, 0), ONE, []);
    RunNone(Reno(5, 5, 1, 0, false, 0));
  }

  lemma RunFirst(r: Reno, ev: Event, rest: seq<Event>)
    requires Sound(r)
    ensures Sound(Apply(r, ev)) && Run(r, [ev] + rest) == Run(Apply(r, ev), rest)
  {
    ApplySound(r, ev);
    assert ([ev] + rest)[1..] == rest;
  }

  lemma RunNone(r: Reno)
    requires Sound(r)
    ensures Run(r, []) == r
  {
  }

  /** With an MSS of one byte, a round of five ACKs from a window of five segments doubles it. */
  lemma RoundDoubles()
    ensures Sound(NewReno(1))
    ensures var r := Run(NewReno(1), [Timeout, ONE, ONE, ONE, ONE]);
            r.cwnd == 5 == r.ssthresh && Run(r, [ONE, ONE, ONE, ONE, ONE]).cwnd == 10
  {
    hide Run;
    NewSound(1);
    BackAtThreshold();
    GrowIsRun(Reno(5, 5, 1, 0, false, 0), [ONE, ONE, ONE, ONE, ONE]);
    GrowByOne(5, 5);
  }

  lemma {:induction false} GrowByOne(cwnd: nat, k: nat)
    requires cwnd > 1
    ensures Grow(1, cwnd, k) == cwnd + k
    decreases k
  {
    hide Step;
    if k > 0 {
      StepOfOne(cwnd);
      GrowByOne(cwnd + 1, k - 1);
    }
  }

  lemma StepOfOne(cwnd: nat)
    requires cwnd > 1
    ensures Step(1, cwnd) == 1
  {
  }

  // ------------------------------------------------------------ the controller as it runs

  lemma Fits(x: nat)
    requires x < TWO32
    ensures Wrap(x) == x
  {
  }

  lemma SquareFits(mss: nat)
    requires mss < 65536
    ensures Wrap(mss * mss) == mss * mss
  {
    MulLe(mss, 65535, mss);
    MulLe(mss, 65535, 65535);
    Fits(mss * mss);
  }

  /** The controller on 32-bit words. Each method is exact as long as the window fits its word. */
  class NewRenoController {
    var cwnd: u32
    var ssthresh: u32
    const mss: u32
    var dupAckCnt: nat
    var recovery: bool
    var recoverySeq: u32

    function State(): Reno
      reads this
    {
      Reno(cwnd, ssthresh, mss, dupAckCnt, recovery, recoverySeq)
    }

    constructor (mss: u32)
      requires 10 * mss < TWO32
      ensures State() == NewReno(mss)
    {
      var initial := 10 * mss;
      var alt := if 2 * mss > INITIAL_BYTES then 2 * mss else INITIAL_BYTES;
      if alt < initial { initial := alt; }
      cwnd, ssthresh, this.mss := initial, TWO32 - 1, mss;
      dupAckCnt, recovery, recoverySeq := 0, false, 0;
    }

    method Ack(bytesAcked: u32)
      requires cwnd > 0 && mss < 65536 && OnACK(State(), bytesAcked).cwnd < TWO32
      modifies this
      ensures State() == OnACK(old(State()), bytesAcked)
    {
      hide Wrap;
      dupAckCnt := 0;
      if cwnd < ssthresh {
        var inc := bytesAcked;
        if inc > mss { inc := mss; }
        Fits(cwnd + inc);
        cwnd := Add32(cwnd, inc);
      } else {
        SquareFits(mss);
        var inc := Wrap(mss * mss) / cwnd;
        if inc == 0 { inc := 1; }
        Fits(cwnd + inc);
        cwnd := Wrap(cwnd + inc);
      }
    }

    method DupAck() returns (fire: bool)
      requires cwnd + mss < TWO32
      modifies this
      ensures State() == OnDupACK(old(State())) && (fire <==> Third(old(State())))
    {
      dupAckCnt := dupAckCnt + 1;
      if dupAckCnt == 3 && !recovery { return true; }
      if recovery && dupAckCnt > 3 { cwnd := Add32(cwnd, mss); }
      fire := false;
    }

    method FastRetransmit(flightSize: u32, sndNxt: u32)
      requires flightSize / 2 + 5 * mss < TWO32
      modifies this
      ensures State() == OnFastRetransmit(old(State()), flightSize, sndNxt)
    {
      ssthresh := if flightSize / 2 > 2 * mss then flightSize / 2 else 2 * mss;
      cwnd := Add32(ssthresh, 3 * mss);
      recovery, recoverySeq := true, sndNxt;
    }

    method LeaveRecovery()
      modifies this
      ensures State() == ExitRecovery(old(State()))
    {
      cwnd, recovery, dupAckCnt, recoverySeq := ssthresh, false, 0, 0;
    }

    method Expire()
      requires 2 * mss < TWO32
      modifies this
      ensures State() == OnTimeout(old(State()))
    {
      ssthresh := if cwnd / 2 > 2 * mss then cwnd / 2 else 2 * mss;
      cwnd, recovery, dupAckCnt, recoverySeq := mss, false, 0, 0;
    }
  }
}
