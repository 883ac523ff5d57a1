/**
 The retransmission timer (RFC 6298): smoothed round-trip time, its variation,
 the bounds of the timeout over any history, and exponential backoff.
 */
module RetransmissionTimer {
  import opened SeqSpace

  // Nanoseconds.
  const DEFAULT_RTO: nat := 1_000_000_000
  const MIN_RTO: nat := 200_000_000
  const MAX_RTO: nat := 60_000_000_000

  datatype Rto = Rto(srtt: nat, rttvar: nat, rto: nat, measured: bool)

  function Clamp(x: nat): nat { if x < MIN_RTO then MIN_RTO else if x > MAX_RTO then MAX_RTO else x }

  function Distance(a: nat, b: nat): nat { if a < b then b - a else a - b }

  function NewRto(): Rto { Rto(0, 0, DEFAULT_RTO, false) }

  /** One measurement: the variation is updated from the old average, then the average. */
  function Sample(r: Rto, rtt: nat): Rto {
    var s := if r.measured then (7 * r.srtt + rtt) / 8 else rtt;
    var v := if r.measured then (3 * r.rttvar + Distance(r.srtt, rtt)) / 4 else rtt / 2;
    Rto(s, v, Clamp(s + 4 * v), true)
  }

  function Backoff(r: Rto): Rto { r.(rto := Clamp(2 * r.rto)) }

  datatype Event = Measured(rtt: nat) | Expired

  function Apply(r: Rto, ev: Event): Rto {
    match ev
    case Measured(rtt) => Sample(r, rtt)
    case Expired => Backoff(r)
  }

  function Run(r: Rto, evs: seq<Event>): Rto
    decreases evs
  {
    if evs == [] then r else Run(Apply(r, evs[0]), evs[1..])
  }

  /** Every sample of a history lies in [lo, hi]. */
  ghost predicate Within(evs: seq<Event>, lo: nat, hi: nat) {
    forall i :: 0 <= i < |evs| && evs[i].Measured? ==> lo <= evs[i].rtt <= hi
  }

  /** The averages lie where the samples do; the timeout lies between its bounds. */
  ghost predicate Bounded(r: Rto, lo: nat, hi: nat) {
    && (r.measured ==> lo <= r.srtt <= hi && r.rttvar <= hi)
    && MIN_RTO <= r.rto <= MAX_RTO
  }

  lemma ApplyBounded(r: Rto, ev: Event, lo: nat, hi: nat)
    requires Bounded(r, lo, hi) && (ev.Measured? ==> lo <= ev.rtt <= hi)
    ensures Bounded(Apply(r, ev), lo, hi)
  {
  }

  lemma {:induction false} RunBounded(r: Rto, evs: seq<Event>, lo: nat, hi: nat)
    requires Bounded(r, lo, hi) && Within(evs, lo, hi)
    ensures Bounded(Run(r, evs), lo, hi)
    decreases evs
  {
    if evs != [] {
      ApplyBounded(r, evs[0], lo, hi);
      RunBounded(Apply(r, evs[0]), evs[1..], lo, hi);
    }
  }

  /**
   Over any history, despite integer truncation: SRTT between the smallest and the largest
   sample, RTTVAR at most the largest, the timeout within [200 ms, 60 s].
   */
  lemma HistoryBounds(evs: seq<Event>, lo: nat, hi: nat)
    requires Within(evs, lo, hi)
    ensures Bounded(Run(NewRto(), evs), lo, hi)
  {
    RunBounded(NewRto(), evs, lo, hi);
  }

  function Times(n: nat, ev: Event): seq<Event> { if n == 0 then [] else [ev] + Times(n - 1, ev) }

  /** k timeouts in a row double the timeout k times, up to the limit exactly. */
  lemma {:induction false} BackoffExact(r: Rto, k: nat)
    requires MIN_RTO <= r.rto <= MAX_RTO
    ensures Run(r, Times(k, Expired)) == r.(rto := if r.rto * Pow(2, k) < MAX_RTO then r.rto * Pow(2, k) else MAX_RTO)
    decreases k
  {
    if k > 0 {
      assert Times(k, Expired)[1..] == Times(k - 1, Expired);
      BackoffExact(Backoff(r), k - 1);
      Doubles(r.rto, Pow(2, k - 1));
    }
  }

  /** Doubling, then multiplying by p, is the same on either side of the limit. */
  lemma Doubles(rto: nat, p: nat)
    requires p >= 1 && MIN_RTO <= rto
    ensures Clamp(2 * rto) * p < MAX_RTO <==> rto * (2 * p) < MAX_RTO
    ensures rto * (2 * p) < MAX_RTO ==> Clamp(2 * rto) * p == rto * (2 * p)
  {
    assert rto * (2 * p) == 2 * rto * p;
    if 2 * rto > MAX_RTO {
      Grows(MAX_RTO, p);
      Grows(2 * rto, p);
    }
  }

  lemma Grows(x: nat, p: nat)
    requires p >= 1
    ensures x * p >= x
  {
  }

  // ------------------------------------------------------------ what a sample does

  /** q is p moved by one n-th of the way to x, rounded down. */
  ghost predicate MovedBy(p: nat, x: nat, n: nat, q: nat) { 0 <= n * p + (x - p) - n * q < n }

  /** How far apart two times are. */
  function Gap(a: nat, b: nat): nat { Max(a, b) - Min(a, b) }

  /** The first sample of a history is the average; half of it is the variation. */
  lemma FirstSample(x: nat)
    ensures var q := Run(NewRto(), [Measured(x)]); q.srtt == x && 2 * q.rttvar <= x <= 2 * q.rttvar + 1
  {
    assert [Measured(x)][1..] == [];
  }

  /**
   After every history that holds a sample, one more sample moves SRTT an eighth of the way to it,
   and RTTVAR a quarter of the way to its distance from the average before it.
   */
  lemma SampleMoves(evs: seq<Event>, x: nat)
    requires exists i :: 0 <= i < |evs| && evs[i].Measured?
    ensures var r, q := Run(NewRto(), evs), Run(NewRto(), evs + [Measured(x)]);
            MovedBy(r.srtt, x, 8, q.srtt) && MovedBy(r.rttvar, Gap(r.srtt, x), 4, q.rttvar)
  {
    RunSplit(NewRto(), evs, Measured(x));
    RunMeasured(NewRto(), evs);
    SampleStep(Run(NewRto(), evs), x);
  }

  lemma SampleStep(r: Rto, x: nat)
    requires r.measured
    ensures var q := Sample(r, x);
            MovedBy(r.srtt, x, 8, q.srtt) && MovedBy(r.rttvar, Gap(r.srtt, x), 4, q.rttvar)
  {
  }

  lemma {:induction false} RunMeasured(r: Rto, evs: seq<Event>)
    ensures Run(r, evs).measured <==> r.measured || exists i :: 0 <= i < |evs| && evs[i].Measured?
    decreases evs
  {
    if evs != [] {
      RunMeasured(Apply(r, evs[0]), evs[1..]);
      if i :| 0 <= i < |evs| && evs[i].Measured? { if i > 0 { assert evs[1..][i - 1] == evs[i]; } }
      if i :| 0 <= i < |evs[1..]| && evs[1..][i].Measured? { assert evs[i + 1] == evs[1..][i]; }
    }
  }

  lemma {:induction false} RunSplit(r: Rto, evs: seq<Event>, ev: Event)
    ensures Run(r, evs + [ev]) == Apply(Run(r, evs), ev)
    decreases evs
  {
    if evs == [] {
      assert Run(r, [ev]) == Run(Apply(r, ev), []);
    } else {
      RunSplit(Apply(r, evs[0]), evs[1..], ev);
      assert (evs + [ev])[1..] == evs[1..] + [ev];
    }
  }

  /**
   A second before anything is known; after every history that ends in a sample, the average plus
   four variations, no less than 200 milliseconds and no more than a minute.
   */
  lemma TimeoutAfterSample(evs: seq<Event>, x: nat)
    ensures Run(NewRto(), []).rto == 1_000_000_000
    ensures var q := Run(NewRto(), evs + [Measured(x)]);
            var t := q.srtt + 4 * q.rttvar;
            && (200_000_000 <= t <= 60_000_000_000 ==> q.rto == t)
            && (t < 200_000_000 ==> q.rto == 200_000_000) && (t > 60_000_000_000 ==> q.rto == 60_000_000_000)
  {
    RunSplit(NewRto(), evs, Measured(x));
  }

  /**
   The timeout leaves room for an outlier at once: it covers the average plus the outlier's distance, up to
   rounding.
   */
  lemma OutlierCovered(evs: seq<Event>, x: nat)
    requires exists i :: 0 <= i < |evs| && evs[i].Measured?
    ensures var r, q := Run(NewRto(), evs), Run(NewRto(), evs + [Measured(x)]);
            q.rto + 3 >= Min(60_000_000_000, q.srtt + Gap(r.srtt, x))
  {
    SampleMoves(evs, x);
    TimeoutAfterSample(evs, x);
  }

  /** The three nanoseconds of rounding do occur. */
  lemma RoundingCosts()
    ensures var r, q := Run(NewRto(), [Measured(0)]), Run(NewRto(), [Measured(0)] + [Measured(500_000_003)]);
            q.rto + 3 == q.srtt + (500_000_003 - r.srtt)
  {
    RunSplit(NewRto(), [Measured(0)], Measured(500_000_003));
    FirstSample(0);
    RunSplit(NewRto(), [], Measured(0));
  }

  /** On a steady path SRTT is the sample, and RTTVAR shrinks by a quarter each time. */
  lemma {:induction false} SteadyPath(x: nat, k: nat)
    ensures var q := Run(NewRto(), Times(k + 1, Measured(x)));
            q.measured && q.srtt == x && 2 * Pow(4, k) * q.rttvar <= Pow(3, k) * x
    decreases k
  {
    TimesLast(k, Measured(x));
    RunSplit(NewRto(), Times(k, Measured(x)), Measured(x));
    if k == 0 {
      assert Times(0, Measured(x)) == [];
    } else {
      SteadyPath(x, k - 1);
      var r := Run(NewRto(), Times(k, Measured(x)));
      Shrinks(Pow(4, k - 1), Pow(3, k - 1), r.rttvar, Sample(r, x).rttvar, x);
    }
  }

  lemma Shrinks(p: nat, q: nat, v: nat, v1: nat, x: nat)
    requires 2 * p * v <= q * x && 4 * v1 <= 3 * v
    ensures 2 * (4 * p) * v1 <= 3 * q * x
  {
    assert 2 * (4 * p) * v1 == 2 * p * (4 * v1);
    MulMono(2 * p, 4 * v1, 3 * v);
    assert 2 * p * (3 * v) == 3 * (2 * p * v);
    assert 3 * (q * x) == 3 * q * x;
  }

  lemma MulMono(p: nat, a: nat, b: nat)
    requires a <= b
    ensures p * a <= p * b
  {
  }

  lemma {:induction false} TimesLast(k: nat, ev: Event)
    ensures Times(k + 1, ev) == Times(k, ev) + [ev]
    decreases k
  {
    if k > 0 { TimesLast(k - 1, ev); }
  }

  // --------------------------------------------------------- the calculator as it runs

  class RTOCalculator {
    var srtt: nat
    var rttvar: nat
    var rto: nat
    var measured: bool
    var timing: bool
    var timeSent: nat
    var timeSeq: u32

    function State(): Rto
      reads this
    {
      Rto(srtt, rttvar, rto, measured)
    }

    constructor ()
      ensures State() == NewRto() && !timing
    {
      srtt, rttvar, rto, measured := 0, 0, DEFAULT_RTO, false;
      timing, timeSent, timeSeq := false, 0, 0;
    }

    method TakeSample(rtt: nat)
      modifies this`srtt, this`rttvar, this`rto, this`measured
      ensures State() == Sample(old(State()), rtt)
    {
      if !measured {
        srtt := rtt;
        rttvar := rtt / 2;
        measured := true;
      } else {
        var diff := srtt as int - rtt;
        if diff < 0 { diff := -diff; }
        rttvar := (3 * rttvar + diff) / 4;
        srtt := (7 * srtt + rtt) / 8;
      }
      rto := srtt + 4 * rttvar;
      ClampRTO();
    }

    method DoubleRTO()
      modifies this`rto
      ensures State() == Backoff(old(State()))
    {
      rto := rto * 2;
      ClampRTO();
    }

    method ClampRTO()
      modifies this`rto
      ensures rto == Clamp(old(rto))
    {
      if rto < MIN_RTO { rto := MIN_RTO; }
      if rto > MAX_RTO { rto := MAX_RTO; }
    }

    /** Timing starts only when nothing is being timed. */
    method StartTiming(seqno: u32, now: nat)
      modifies this`timing, this`timeSent, this`timeSeq
      ensures timing
      ensures if old(timing) then timeSeq == old(timeSeq) && timeSent == old(timeSent)
              else timeSeq == seqno && timeSent == now
    {
      if timing { return; }
      timing, timeSent, timeSeq := true, now, seqno;
    }

    /** A sample is taken, and timing stops, exactly when the ACK is past what is timed. */
    method AckReceived(ack: u32, now: nat) returns (sampled: bool)
      requires timing ==> timeSent <= now
      modifies this
      ensures sampled <==> old(timing) && SeqAfter(ack, old(timeSeq))
      ensures timing == (old(timing) && !sampled) && timeSeq == old(timeSeq) && timeSent == old(timeSent)
      ensures State() == if sampled then Sample(old(State()), now - old(timeSent)) else old(State())
    {
      if !timing { return false; }
      if SeqAfter(ack, timeSeq) {
        TakeSample(now - timeSent);
        timing := false;
        return true;
      }
      sampled := false;
    }

    method InvalidateTiming()
      modifies this`timing
      ensures !timing
    {
      timing := false;
    }
  }
}
