/**
 The same flush called from several goroutines at once, one atomic step at a time. No packet
 is ever lost or written twice and only one goroutine writes; but a packet can be left in the
 queue with nobody to write it, exactly when a put-back comes too late.
 */
module FlushRace {
  type Packet = nat

  /** Where a goroutine stands in the flush. */
  datatype Place =
    | Idle
    | Holding(pkts: seq<Packet>)   // drained the queue, about to compare-and-swap
    | PuttingBack(pkts: seq<Packet>) // lost the compare-and-swap
    | Writing(pkts: seq<Packet>)
    | Clearing                     // found the queue empty, about to clear the flag

  datatype State = State(flushing: bool, outgoing: seq<Packet>, written: seq<Packet>, at: seq<Place>)

  datatype Step =
    | Take(t: nat, made: seq<Packet>) // a handler queues packets and drains, under the lock
    | Claim(t: nat)
    | PutBack(t: nat)
    | Write(t: nat)
    | Drain(t: nat)
    | Clear(t: nat)

  predicate Enabled(s: State, e: Step) {
    && e.t < |s.at|
    && match e {
         case Take(t, _) => s.at[t].Idle?
         case Claim(t) => s.at[t].Holding?
         case PutBack(t) => s.at[t].PuttingBack?
         case Write(t) => s.at[t].Writing? && s.at[t].pkts != []
         case Drain(t) => s.at[t].Writing? && s.at[t].pkts == []
         case Clear(t) => s.at[t].Clearing?
       }
  }

  function Next(s: State, e: Step): State
    requires Enabled(s, e)
  {
    var p := s.at[e.t];
    match e
    case Take(t, made) => s.(outgoing := [], at := s.at[t := Holding(s.outgoing + made)])
    case Claim(t) =>
      if p.pkts == [] then s.(at := s.at[t := Idle])
      else if s.flushing then s.(at := s.at[t := PuttingBack(p.pkts)])
      else s.(flushing := true, at := s.at[t := Writing(p.pkts)])
    case PutBack(t) => s.(outgoing := s.outgoing + p.pkts, at := s.at[t := Idle])
    case Write(t) => s.(written := s.written + [p.pkts[0]], at := s.at[t := Writing(p.pkts[1..])])
    case Drain(t) =>
      if s.outgoing == [] then s.(at := s.at[t := Clearing])
      else s.(outgoing := [], at := s.at[t := Writing(s.outgoing)])
    case Clear(t) => s.(flushing := false, at := s.at[t := Idle])
  }

  function Start(n: nat): State { State(false, [], [], seq(n, _ => Idle)) }

  ghost predicate Runs(s: State, run: seq<Step>)
    decreases run
  {
    run == [] || (Enabled(s, run[0]) && Runs(Next(s, run[0]), run[1..]))
  }

  ghost function Final(s: State, run: seq<Step>): State
    requires Runs(s, run)
    decreases run
  {
    if run == [] then s else Final(Next(s, run[0]), run[1..])
  }

  /** How often packet x was made by the handlers during a run. */
  ghost function Issued(run: seq<Step>, x: Packet): nat {
    if run == [] then 0 else IssuedBy(run[0], x) + Issued(run[1..], x)
  }

  ghost function IssuedBy(e: Step, x: Packet): nat { if e.Take? then Count(e.made, x) else 0 }

  ghost function Count(s: seq<Packet>, x: Packet): nat { multiset(s)[x] }

  // -------------------------------------------------------------------- conservation

  function Held(p: Place): seq<Packet> { if p.Idle? || p.Clearing? then [] else p.pkts }

  ghost function HeldAll(at: seq<Place>, x: Packet): nat {
    if at == [] then 0 else Count(Held(at[0]), x) + HeldAll(at[1..], x)
  }

  /** Copies of packet x: written, queued, or in some goroutine's hands. */
  ghost function Copies(s: State, x: Packet): nat { Count(s.written, x) + Count(s.outgoing, x) + HeldAll(s.at, x) }

  lemma CountSum(a: seq<Packet>, b: seq<Packet>, x: Packet)
    ensures Count(a + b, x) == Count(a, x) + Count(b, x)
  {
  }

  lemma {:induction false} HeldUpdate(at: seq<Place>, t: nat, p: Place, x: Packet)
    requires t < |at|
    ensures HeldAll(at[t := p], x) - Count(Held(p), x) == HeldAll(at, x) - Count(Held(at[t]), x)
    decreases t
  {
    hide Count, Held;
    if t == 0 {
      assert at[0 := p][1..] == at[1..];
    } else {
      HeldUpdate(at[1..], t - 1, p, x);
      assert at[t := p][1..] == at[1..][t - 1 := p];
    }
  }

  lemma NextConserves(s: State, e: Step, x: Packet)
    requires Enabled(s, e)
    ensures Copies(Next(s, e), x) == Copies(s, x) + IssuedBy(e, x)
  {
    hide HeldAll, Count;
    var q := Next(s, e);
    HeldUpdate(s.at, e.t, q.at[e.t], x);
    assert q.at == s.at[e.t := q.at[e.t]];
    CountNone(x);
    match e
    case Take(t, made) => CountSum(s.outgoing, made, x);
    case PutBack(t) => CountSum(s.outgoing, s.at[t].pkts, x);
    case Write(t) =>
      var p := s.at[t].pkts;
      CountSum(s.written, [p[0]], x);
      CountSum([p[0]], p[1..], x);
      assert p == [p[0]] + p[1..];
    case _ =>
  }

  lemma CountNone(x: Packet)
    ensures Count([], x) == 0
  {
  }

  /** Under every interleaving, each packet made is in exactly one place: written, queued or held. */
  lemma {:induction false} NothingLostOrTwice(s: State, run: seq<Step>, x: Packet)
    requires Runs(s, run)
    ensures Copies(Final(s, run), x) == Copies(s, x) + Issued(run, x)
    decreases run
  {
    hide Copies, Next, Enabled, IssuedBy;
    if run != [] {
      NextConserves(s, run[0], x);
      NothingLostOrTwice(Next(s, run[0]), run[1..], x);
    }
  }

  // ----------------------------------------------------------------- mutual exclusion

  predicate Active(p: Place) { p.Writing? || p.Clearing? }

  /** The flag is up exactly while one goroutine, and no other, is inside. */
  ghost predicate Exclusive(s: State) {
    && (forall i, j :: 0 <= i < |s.at| && 0 <= j < |s.at| && Active(s.at[i]) && Active(s.at[j]) ==> i == j)
    && (s.flushing <==> exists i :: 0 <= i < |s.at| && Active(s.at[i]))
    && (forall i :: 0 <= i < |s.at| && s.at[i].PuttingBack? ==> s.at[i].pkts != [])
  }

  lemma NextExclusive(s: State, e: Step)
    requires Enabled(s, e) && Exclusive(s)
    ensures Exclusive(Next(s, e))
  {
    var q := Next(s, e);
    assert forall i :: 0 <= i < |s.at| && i != e.t ==> q.at[i] == s.at[i];
    if Active(q.at[e.t]) || Active(s.at[e.t]) {
      assert forall i :: 0 <= i < |s.at| && i != e.t ==> !Active(q.at[i]);
    } else {
      assert forall i :: 0 <= i < |s.at| ==> (Active(q.at[i]) <==> Active(s.at[i]));
    }
  }

  // ---------------------------------------------------------------------- late put-backs

  ghost predicate SomeoneWrites(s: State) { exists i :: 0 <= i < |s.at| && s.at[i].Writing? }

  /** Whether a put-back that came after the last writer had looked is still in the queue. */
  ghost predicate Late(s: State, run: seq<Step>, was: bool)
    requires Runs(s, run)
    decreases run
  {
    if run == [] then was else Late(Next(s, run[0]), run[1..], LateNext(s, run[0], was))
  }

  ghost predicate LateNext(s: State, e: Step, was: bool)
    requires Enabled(s, e)
  {
    match e
    case Take(_, _) => false
    case Drain(_) => false
    case PutBack(_) => was || !SomeoneWrites(s)
    case _ => was
  }

  /** A packet waits only for someone who is writing, unless its put-back was late. */
  ghost predicate Tracked(s: State, late: bool) {
    && (late ==> s.outgoing != [])
    && (s.outgoing != [] ==> late || SomeoneWrites(s))
  }

  lemma NextTracked(s: State, e: Step, late: bool)
    requires Enabled(s, e) && Exclusive(s) && Tracked(s, late)
    ensures Tracked(Next(s, e), LateNext(s, e, late))
  {
    var q := Next(s, e);
    if SomeoneWrites(s) {
      var w :| 0 <= w < |s.at| && s.at[w].Writing?;
      if e.t != w { assert q.at[w].Writing?; } else { assert e.Write? ==> q.at[w].Writing?; }
    }
  }

  lemma {:induction false} RunTracked(s: State, run: seq<Step>, late: bool)
    requires Runs(s, run) && Exclusive(s) && Tracked(s, late)
    ensures Exclusive(Final(s, run)) && Tracked(Final(s, run), Late(s, run, late))
    decreases run
  {
    hide Next, Enabled, Exclusive, Tracked, LateNext;
    if run != [] {
      NextExclusive(s, run[0]);
      NextTracked(s, run[0], late);
      RunTracked(Next(s, run[0]), run[1..], LateNext(s, run[0], late));
    }
  }

  ghost predicate Quiet(s: State) { forall i :: 0 <= i < |s.at| ==> s.at[i].Idle? }

  lemma {:induction false} QuietHoldsNothing(at: seq<Place>, x: Packet)
    requires forall i :: 0 <= i < |at| ==> at[i].Idle?
    ensures HeldAll(at, x) == 0
    decreases at
  {
    if at != [] { QuietHoldsNothing(at[1..], x); }
  }

  lemma StartSound(n: nat)
    ensures Exclusive(Start(n)) && Tracked(Start(n), false)
  {
  }

  lemma QuietCopies(n: nat, run: seq<Step>, x: Packet)
    requires Runs(Start(n), run) && Quiet(Final(Start(n), run))
    ensures var s := Final(Start(n), run); Count(s.written, x) + Count(s.outgoing, x) == Issued(run, x)
  {
    hide Runs, Final, Issued, HeldAll, Count;
    NothingLostOrTwice(Start(n), run, x);
    QuietHoldsNothing(Final(Start(n), run).at, x);
    QuietHoldsNothing(Start(n).at, x);
    CountNone(x);
  }

  /** Every packet made has been written, exactly as often as it was made. */
  ghost predicate AllWritten(s: State, run: seq<Step>) {
    forall x :: Count(s.written, x) == Issued(run, x)
  }

  /**
   Once every flush has returned, every packet made has been written exactly once if and only
   if no late put-back is left.
   */
  lemma AllWrittenExactly(n: nat, run: seq<Step>)
    requires Runs(Start(n), run) && Quiet(Final(Start(n), run))
    ensures AllWritten(Final(Start(n), run), run) <==> !Late(Start(n), run, false)
  {
    hide Runs, Final, Issued, Late, Exclusive, Start;
    StartSound(n);
    RunTracked(Start(n), run, false);
    var s := Final(Start(n), run);
    if s.outgoing == [] {
      forall x ensures Count(s.written, x) == Issued(run, x) { QuietCopies(n, run, x); }
    } else {
      QuietCopies(n, run, s.outgoing[0]);
      assert s.outgoing[0] in multiset(s.outgoing);
    }
  }

  /** Flushes do not overlap: each begins when every goroutine is idle. */
  ghost predicate Serial(s: State, run: seq<Step>)
    requires Runs(s, run)
    decreases run
  {
    run == [] || ((run[0].Take? ==> Quiet(s)) && Serial(Next(s, run[0]), run[1..]))
  }

  /** At most one goroutine is inside, and it has not lost the flag. */
  ghost predicate Alone(s: State) {
    && Exclusive(s)
    && (forall i, j :: 0 <= i < |s.at| && 0 <= j < |s.at| && !s.at[i].Idle? && !s.at[j].Idle? ==> i == j)
    && (forall i :: 0 <= i < |s.at| ==> !s.at[i].PuttingBack?)
  }

  lemma NextAlone(s: State, e: Step)
    requires Enabled(s, e) && Alone(s) && (e.Take? ==> Quiet(s))
    ensures Alone(Next(s, e)) && !LateNext(s, e, false)
  {
    hide Exclusive;
    NextExclusive(s, e);
    if e.Claim? { FlagDown(s, e.t); }
  }

  /** Alone and not inside yet, a goroutine finds the flag down. */
  lemma FlagDown(s: State, t: nat)
    requires Alone(s) && t < |s.at| && s.at[t].Holding?
    ensures !s.flushing
  {
  }

  lemma {:induction false} SerialOnTime(s: State, run: seq<Step>)
    requires Runs(s, run) && Alone(s) && Serial(s, run)
    ensures !Late(s, run, false)
    decreases run
  {
    hide Next, Enabled, Alone, LateNext;
    if run != [] {
      NextAlone(s, run[0]);
      SerialOnTime(Next(s, run[0]), run[1..]);
    }
  }

  /** Flushes of any number of goroutines that do not overlap leave nothing behind. */
  lemma OneAtATime(n: nat, run: seq<Step>)
    requires Runs(Start(n), run) && Serial(Start(n), run)
    ensures !Late(Start(n), run, false)
    ensures Quiet(Final(Start(n), run)) ==> AllWritten(Final(Start(n), run), run)
  {
    hide Runs, Final, Late, Serial, AllWritten, Quiet;
    assert Alone(Start(n)) by { StartSound(n); }
    SerialOnTime(Start(n), run);
    if Quiet(Final(Start(n), run)) { AllWrittenExactly(n, run); }
  }

  // ------------------------------------------------------------------ the order of serial flushes

  /** The packets made during a run, in order. */
  ghost function MadeInOrder(run: seq<Step>): seq<Packet> {
    if run == [] then [] else (if run[0].Take? then run[0].made else []) + MadeInOrder(run[1..])
  }

  ghost function InHand(at: seq<Place>): seq<Packet> { if at == [] then [] else Held(at[0]) + InHand(at[1..]) }

  lemma {:induction false} NothingInHand(at: seq<Place>)
    requires forall i :: 0 <= i < |at| ==> at[i].Idle?
    ensures InHand(at) == []
    decreases at
  {
    if at != [] { NothingInHand(at[1..]); }
  }

  lemma {:induction false} InHandOf(at: seq<Place>, t: nat)
    requires t < |at| && forall i :: 0 <= i < |at| && i != t ==> at[i].Idle?
    ensures InHand(at) == Held(at[t])
    decreases t
  {
    if t == 0 {
      NothingInHand(at[1..]);
    } else {
      assert at[1..][t - 1] == at[t];
      InHandOf(at[1..], t - 1);
    }
  }

  /** What one step does to the packets written and to those its goroutine holds. */
  lemma StepInOrder(s: State, e: Step)
    requires Enabled(s, e) && s.outgoing == [] && !e.PutBack? && (e.Claim? ==> !s.flushing)
    ensures var q := Next(s, e);
            && q.outgoing == [] && q.at == s.at[e.t := q.at[e.t]]
            && q.written + Held(q.at[e.t]) == s.written + Held(s.at[e.t]) + (if e.Take? then e.made else [])
  {
    if e.Write? {
      var p := s.at[e.t].pkts;
      assert p == [p[0]] + p[1..];
      assert s.written + [p[0]] + p[1..] == s.written + p;
    }
  }

  lemma NextInOrder(s: State, e: Step)
    requires Enabled(s, e) && Alone(s) && (e.Take? ==> Quiet(s)) && s.outgoing == []
    ensures var q := Next(s, e);
            && q.outgoing == []
            && q.written + InHand(q.at) == s.written + InHand(s.at) + (if e.Take? then e.made else [])
  {
    OnlyThisOne(s, e);
    if e.Claim? { FlagDown(s, e.t); }
    hide Exclusive, Alone, Next, Held, InHand, Quiet;
    StepInOrder(s, e);
    InHandOf(s.at, e.t);
    InHandOf(Next(s, e).at, e.t);
  }

  lemma OnlyThisOne(s: State, e: Step)
    requires Enabled(s, e) && Alone(s) && (e.Take? ==> Quiet(s))
    ensures !e.PutBack? && forall i :: 0 <= i < |s.at| && i != e.t ==> s.at[i].Idle?
  {
    hide Exclusive;
  }

  lemma {:induction false} SerialInOrder(s: State, run: seq<Step>)
    requires Runs(s, run) && Alone(s) && Serial(s, run) && s.outgoing == []
    ensures var q := Final(s, run);
            q.outgoing == [] && q.written + InHand(q.at) == s.written + InHand(s.at) + MadeInOrder(run)
    decreases run
  {
    hide Next, Enabled, Alone, InHand;
    if run != [] {
      NextAlone(s, run[0]);
      NextInOrder(s, run[0]);
      SerialInOrder(Next(s, run[0]), run[1..]);
      var made := if run[0].Take? then run[0].made else [];
      assert s.written + InHand(s.at) + made + MadeInOrder(run[1..]) == s.written + InHand(s.at) +
            (made + MadeInOrder(run[1..]));
    }
  }

  /** Flushes that do not overlap hand all packets over in the order they were made. */
  lemma InOrderApart(n: nat, run: seq<Step>)
    requires Runs(Start(n), run) && Serial(Start(n), run) && Quiet(Final(Start(n), run))
    ensures Final(Start(n), run).written == MadeInOrder(run) && Final(Start(n), run).outgoing == []
  {
    hide Runs, Final, Serial, MadeInOrder;
    assert Alone(Start(n)) by { StartSound(n); }
    SerialInOrder(Start(n), run);
    NothingInHand(Start(n).at);
    NothingInHand(Final(Start(n), run).at);
    var q := Final(Start(n), run);
    assert q.written + [] == q.written && [] + [] + MadeInOrder(run) == MadeInOrder(run);
  }

  /** Two goroutines: the second loses the flag while the first has already looked. */
  lemma StrandedPacket()
    ensures var run := [Take(0, [7]), Claim(0), Write(0), Take(1, [8])] + [Claim(1), Drain(0), PutBack(1), Clear(0)];
      && Runs(Start(2), run)
      && Final(Start(2), run) == State(false, [8], [7], [Idle, Idle])
  {
    hide Next, Enabled;
    var tail := [Claim(1), Drain(0), PutBack(1), Clear(0)];
    StrandedTail();
    StrandedHead();
    var s0 := State(false, [], [], [Idle, Idle]);
    var s1 := State(false, [], [], [Holding([7]), Idle]);
    var s2 := State(true, [], [], [Writing([7]), Idle]);
    var s3 := State(true, [], [7], [Writing([]), Idle]);
    assert Start(2) == s0;
    RunCons(s3, Take(1, [8]), tail);
    RunCons(s2, Write(0), [Take(1, [8])] + tail);
    RunCons(s1, Claim(0), [Write(0)] + ([Take(1, [8])] + tail));
    RunCons(s0, Take(0, [7]), [Claim(0)] + ([Write(0)] + ([Take(1, [8])] + tail)));
    assert [Take(0, [7])] + ([Claim(0)] + ([Write(0)] + ([Take(1, [8])] + tail)))
        == [Take(0, [7]), Claim(0), Write(0), Take(1, [8])] + tail;
  }

  ghost predicate Goes(s: State, e: Step, q: State) { Enabled(s, e) && Next(s, e) == q }

  lemma StrandedHead()
    ensures Goes(State(false, [], [], [Idle, Idle]), Take(0, [7]), State(false, [], [], [Holding([7]), Idle]))
    ensures Goes(State(false, [], [], [Holding([7]), Idle]), Claim(0), State(true, [], [], [Writing([7]), Idle]))
    ensures Goes(State(true, [], [], [Writing([7]), Idle]), Write(0), State(true, [], [7], [Writing([]), Idle]))
    ensures Goes(State(true, [], [7], [Writing([]), Idle]), Take(1, [8]),
        State(true, [], [7], [Writing([]), Holding([8])]))
  {
    assert [7][1..] == [] && [] + [7] == [7] && [] + [8] == [8];
  }

  lemma StrandedTail()
    ensures Runs(State(true, [], [7], [Writing([]), Holding([8])]), [Claim(1), Drain(0), PutBack(1), Clear(0)])
    ensures Final(State(true, [], [7], [Writing([]), Holding([8])]), [Claim(1), Drain(0), PutBack(1), Clear(0)])
         == State(false, [8], [7], [Idle, Idle])
  {
    var s5 := State(true, [], [7], [Writing([]), PuttingBack([8])]);
    var s6 := State(true, [], [7], [Clearing, PuttingBack([8])]);
    var s7 := State(true, [8], [7], [Clearing, Idle]);
    assert [] + [8] == [8];
    RunLast(s7, Clear(0));
    RunCons(s6, PutBack(1), [Clear(0)]);
    RunCons(s5, Drain(0), [PutBack(1), Clear(0)]);
    RunCons(State(true, [], [7], [Writing([]), Holding([8])]), Claim(1), [Drain(0), PutBack(1), Clear(0)]);
  }

  lemma RunLast(s: State, e: Step)
    requires Enabled(s, e)
    ensures Runs(s, [e]) && Final(s, [e]) == Next(s, e)
  {
    assert [e][1..] == [];
  }

  lemma RunCons(s: State, e: Step, run: seq<Step>)
    requires Enabled(s, e) && Runs(Next(s, e), run)
    ensures Runs(s, [e] + run) && Final(s, [e] + run) == Final(Next(s, e), run)
  {
    assert ([e] + run)[1..] == run;
  }
}
