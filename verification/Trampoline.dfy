/**
 The flush trampoline. Writing a packet may call straight back into the connection, to any
 depth; re-entrant flushes re-queue their packets and the outermost one writes them.
 */
module Trampoline {
  type Packet = nat

  /**
   What one call of the writer does to the same connection before it returns: queue a
   packet, or drain the queue, do more of the same, and only then flush what was drained.
   */
  datatype Acts =
    | Done
    | Queue(p: Packet, rest: Acts)
    | DrainFlush(inner: Acts, rest: Acts)

  /** The packets a writer call brings into being. */
  ghost function Made(a: Acts): multiset<Packet> {
    match a
    case Done => multiset{}
    case Queue(p, rest) => multiset{p} + Made(rest)
    case DrainFlush(inner, rest) => Made(inner) + Made(rest)
  }

  ghost function MadeBy(script: seq<Acts>): multiset<Packet> {
    if script == [] then multiset{} else Made(script[0]) + MadeBy(script[1..])
  }

  /**
   What a flush hands over, each exactly once: what it was given, what was queued, and what the
   writer's own calls made while it ran.
   */
  ghost predicate HandedOnce(before: seq<Packet>, after: seq<Packet>, given: seq<Packet>, queued: seq<Packet>,
                             s: seq<Acts>, t: seq<Acts>) {
    && Suffix(t, s)
    && multiset(after) == multiset(before) + multiset(given) + multiset(queued) + MadeBy(s[..|s| - |t|])
  }

  ghost predicate Suffix(t: seq<Acts>, s: seq<Acts>) {
    |t| <= |s| && t == s[|s| - |t|..]
  }

  // ------------------------------------------------------------------------- the order

  /** The queue after a writer call: a nested flush puts what it drained behind what was queued meanwhile. */
  ghost function Queued(outgoing: seq<Packet>, a: Acts): seq<Packet>
    decreases a
  {
    match a
    case Done => outgoing
    case Queue(p, rest) => Queued(outgoing + [p], rest)
    case DrainFlush(inner, rest) => Queued(Queued([], inner) + outgoing, rest)
  }

  /** What a flush hands over, in order: todo, and whenever that is used up, the queue. */
  ghost function Handed(todo: seq<Packet>, outgoing: seq<Packet>, script: seq<Acts>): seq<Packet>
    decreases |script|, |todo| + |outgoing|
  {
    if todo == [] then []
    else
      var queue := if script == [] then outgoing else Queued(outgoing, script[0]);
      var rest := if script == [] then [] else script[1..];
      [todo[0]] + if |todo| > 1 then Handed(todo[1..], queue, rest) else Handed(queue, [], rest)
  }

  /** The queue and the script after one write. */
  ghost predicate Called(out0: seq<Packet>, s0: seq<Acts>, out1: seq<Packet>, s1: seq<Acts>) {
    if s0 == [] then out1 == out0 && s1 == [] else out1 == Queued(out0, s0[0]) && s1 == s0[1..]
  }

  /** One write hands over exactly the next packet. */
  lemma HandedNext(todo: seq<Packet>, out0: seq<Packet>, s0: seq<Acts>, w: seq<Packet>, out1: seq<Packet>,
      s1: seq<Acts>)
    requires todo != [] && Called(out0, s0, out1, s1)
    ensures w + Handed(todo, out0, s0)
         == w + [todo[0]] + if todo[1..] != [] then Handed(todo[1..], out1, s1) else Handed(out1, [], s1)
  {
  }

  lemma HandedNothing(out: seq<Packet>, s: seq<Acts>)
    ensures Handed([], out, s) == []
  {
  }

  /** A writer that does not call back gets what was given, then what was queued, in order. */
  lemma {:induction false} NoCallBacks(todo: seq<Packet>, outgoing: seq<Packet>, script: seq<Acts>)
    requires todo != [] && forall i :: 0 <= i < |script| ==> script[i].Done?
    ensures Handed(todo, outgoing, script) == todo + outgoing
    decreases |todo| + |outgoing|
  {
    hide Handed;
    var rest := if script == [] then [] else script[1..];
    HandedNext(todo, outgoing, script, [], outgoing, rest);
    HandedNothing([], rest);
    var h := Handed(todo, outgoing, script);
    assert [] + h == h;
    if |todo| > 1 {
      NoCallBacks(todo[1..], outgoing, rest);
      Rejoin(todo, outgoing);
    } else {
      if outgoing != [] { NoCallBacks(outgoing, [], rest); }
      assert todo == [todo[0]] && outgoing + [] == outgoing;
    }
  }

  lemma Rejoin(todo: seq<Packet>, out: seq<Packet>)
    requires todo != []
    ensures [todo[0]] + (todo[1..] + out) == todo + out
  {
    assert todo == [todo[0]] + todo[1..];
  }

  /** A writer that only queues, never flushes. */
  ghost predicate QueuesOnly(a: Acts) {
    match a
    case Done => true
    case Queue(_, rest) => QueuesOnly(rest)
    case DrainFlush(_, _) => false
  }

  ghost function Sequence(a: Acts): seq<Packet> {
    match a
    case Done => []
    case Queue(p, rest) => [p] + Sequence(rest)
    case DrainFlush(_, rest) => Sequence(rest)
  }

  ghost function SequenceBy(script: seq<Acts>): seq<Packet> {
    if script == [] then [] else Sequence(script[0]) + SequenceBy(script[1..])
  }

  lemma {:induction false} QueuedInOrder(outgoing: seq<Packet>, a: Acts)
    requires QueuesOnly(a)
    ensures Queued(outgoing, a) == outgoing + Sequence(a)
    decreases a
  {
    match a
    case Done =>
    case Queue(p, rest) => QueuedInOrder(outgoing + [p], rest);
  }

  /** First in, first out: without nested flushes packets are handed over in the order they came into being. */
  lemma {:induction false} FirstInFirstOut(todo: seq<Packet>, outgoing: seq<Packet>, script: seq<Acts>)
    requires todo != [] && forall i :: 0 <= i < |script| ==> QueuesOnly(script[i])
    ensures var h := Handed(todo, outgoing, script);
            h <= todo + outgoing + SequenceBy(script) && |h| >= |todo| + |outgoing|
    decreases |script|, |todo| + |outgoing|
  {
    hide QueuesOnly, Queued, Sequence;
    var rest := if script == [] then [] else script[1..];
    var queue := if script == [] then outgoing else Queued(outgoing, script[0]);
    NextQueue(outgoing, script, queue, rest);
    Regrouped(todo, outgoing, SequenceBy(script), queue, SequenceBy(rest));
    if |todo| > 1 {
      FirstInFirstOut(todo[1..], queue, rest);
      Front(todo[0], Handed(todo[1..], queue, rest), todo[1..] + queue + SequenceBy(rest));
    } else {
      if queue != [] { FirstInFirstOut(queue, [], rest); assert queue + [] == queue; }
      Front(todo[0], Handed(queue, [], rest), queue + SequenceBy(rest));
      assert todo[1..] + queue == queue;
    }
  }

  lemma NextQueue(outgoing: seq<Packet>, script: seq<Acts>, queue: seq<Packet>, rest: seq<Acts>)
    requires rest == if script == [] then [] else script[1..]
    requires queue == if script == [] then outgoing else Queued(outgoing, script[0])
    requires script != [] ==> QueuesOnly(script[0])
    ensures queue + SequenceBy(rest) == outgoing + SequenceBy(script) && |queue| >= |outgoing|
  {
    hide Queued, Sequence, QueuesOnly;
    if script != [] {
      QueuedInOrder(outgoing, script[0]);
      assert outgoing + Sequence(script[0]) + SequenceBy(rest) == outgoing + (Sequence(script[0]) + SequenceBy(rest));
    }
  }

  lemma Regrouped(todo: seq<Packet>, out: seq<Packet>, s: seq<Packet>, queue: seq<Packet>, s1: seq<Packet>)
    requires todo != [] && queue + s1 == out + s
    ensures [todo[0]] + (todo[1..] + queue + s1) == todo + out + s
  {
    assert todo == [todo[0]] + todo[1..];
    assert todo[1..] + queue + s1 == todo[1..] + (queue + s1);
    assert todo + out + s == todo + (out + s);
  }

  lemma Front(x: Packet, h: seq<Packet>, t: seq<Packet>)
    requires h <= t
    ensures [x] + h <= [x] + t
  {
  }

  /** All that a running flush still has to hand over. */
  ghost function Load(todo: seq<Packet>, outgoing: seq<Packet>, script: seq<Acts>): multiset<Packet> {
    multiset(todo) + multiset(outgoing) + MadeBy(script)
  }

  /** One write takes exactly its packet off the load, whatever the writer does meanwhile. */
  lemma LoadStep(todo: seq<Packet>, out0: seq<Packet>, s0: seq<Acts>, out1: seq<Packet>, s1: seq<Acts>)
    requires todo != [] && multiset(out1) + MadeBy(s1) == multiset(out0) + MadeBy(s0)
    ensures Load(todo, out0, s0) == multiset{todo[0]} + Load(todo[1..], out1, s1)
  {
    assert todo == [todo[0]] + todo[1..];
    var x, m := multiset(todo[1..]), multiset(out1) + MadeBy(s1);
    assert Load(todo, out0, s0) == multiset(todo) + m;
    assert Load(todo[1..], out1, s1) == x + m;
  }

  lemma LoadDrain(outgoing: seq<Packet>, script: seq<Acts>)
    ensures Load([], outgoing, script) == Load(outgoing, [], script)
  {
  }

  lemma {:induction false} MadeBySplit(s: seq<Acts>, k: nat)
    requires k <= |s|
    ensures MadeBy(s) == MadeBy(s[..k]) + MadeBy(s[k..])
    decreases k
  {
    if k > 0 {
      MadeBySplit(s[1..], k - 1);
      assert s[..k][1..] == s[1..][..k - 1] && s[1..][k - 1..] == s[k..];
    } else {
      assert s[..0] == [] && s[0..] == s;
    }
  }

  /** When nothing is left to do, all of the load has been handed over. */
  lemma LoadDone(before: seq<Packet>, after: seq<Packet>, given: seq<Packet>, queued: seq<Packet>, s: seq<Acts>,
      t: seq<Acts>)
    requires Suffix(t, s) && multiset(after) + Load([], [], t) == multiset(before) + Load(given, queued, s)
    ensures HandedOnce(before, after, given, queued, s, t)
  {
    MadeBySplit(s, |s| - |t|);
    var x, y, z := MadeBy(s[..|s| - |t|]), MadeBy(t), multiset(before) + multiset(given) + multiset(queued);
    assert t == s[|s| - |t|..] && Load([], [], t) == y;
    assert multiset(before) + Load(given, queued, s) == (z + x) + y;
    assert (multiset(after) + y) - y == multiset(after);
    assert ((z + x) + y) - y == z + x;
  }

  /** One connection, whose n-th written packet provokes the n-th entry of the script. */
  class Flusher {
    var flushing: bool
    var outgoing: seq<Packet>
    var written: seq<Packet>
    var script: seq<Acts>

    constructor (script: seq<Acts>)
      ensures !flushing && outgoing == [] && written == [] && this.script == script
    {
      this.script := script;
      flushing, outgoing, written := false, [], [];
    }

    /**
     Re-entrant: everything goes back to the queue and nothing is written. Outermost: what was
     given, what was queued, and whatever the writer's own calls made on the way is handed to
     the writer, each exactly once, and the queue is left empty.
     */
    method FlushPackets(pkts: seq<Packet>)
      modifies this
      ensures flushing == old(flushing)
      ensures pkts == [] || flushing ==>
                written == old(written) && script == old(script) && outgoing == old(outgoing) + pkts
      ensures pkts != [] && !flushing ==>
        && outgoing == [] && HandedOnce(old(written), written, pkts, old(outgoing), old(script), script)
        && written == old(written) + Handed(pkts, old(outgoing), old(script))
      decreases if flushing then 0 else 4
    {
      if pkts == [] { return; }
      if flushing {
        outgoing := outgoing + pkts;
        return;
      }
      flushing := true;
      WriteAll(pkts);
      flushing := false;
    }

    /** The loop of the outermost flush: write everything, then whatever was queued meanwhile. */
    method WriteAll(pkts: seq<Packet>)
      requires flushing && pkts != []
      modifies this
      ensures flushing && outgoing == []
      ensures HandedOnce(old(written), written, pkts, old(outgoing), old(script), script)
      ensures written == old(written) + Handed(pkts, old(outgoing), old(script))
      decreases 3
    {
      hide Load, MadeBy, HandedOnce, Handed, Queued;
      var todo := pkts;
      ghost var total := multiset(written) + Load(pkts, outgoing, script);
      while todo != []
        invariant flushing && (todo == [] ==> outgoing == []) && Suffix(script, old(script))
        invariant multiset(written) + Load(todo, outgoing, script) == total
        invariant written + Handed(todo, outgoing, script) == old(written) + Handed(pkts, old(outgoing), old(script))
        decreases |Load(todo, outgoing, script)|
      {
        ghost var w, out, s := written, outgoing, script;
        Write(todo[0]);
        HandedNext(todo, out, s, w, outgoing, script);
        LoadStep(todo, out, s, outgoing, script);
        assert multiset(written) == multiset(w) + multiset{todo[0]};
        todo := todo[1..];
        if todo == [] {
          LoadDrain(outgoing, script);
          todo, outgoing := outgoing, [];
        }
      }
      HandedNothing(outgoing, script);
      LoadDone(old(written), written, pkts, old(outgoing), old(script), script);
    }

    /** Hand one packet to the writer, and let the writer call back. */
    method Write(p: Packet)
      requires flushing
      modifies this
      ensures flushing && written == old(written) + [p] && Suffix(script, old(script))
      ensures multiset(outgoing) + MadeBy(script) == multiset(old(outgoing)) + MadeBy(old(script))
      ensures Called(old(outgoing), old(script), outgoing, script)
      decreases 2
    {
      written := written + [p];
      if script != [] {
        var a := script[0];
        script := script[1..];
        React(a);
      }
    }

    /** The writer calls back: however deep, nothing is written and nothing is lost. */
    method React(a: Acts)
      requires flushing
      modifies this
      ensures flushing && written == old(written) && script == old(script)
      ensures multiset(outgoing) == multiset(old(outgoing)) + Made(a) && outgoing == Queued(old(outgoing), a)
      decreases 1, a
    {
      match a
      case Done =>
      case Queue(p, rest) =>
        outgoing := outgoing + [p];
        React(rest);
      case DrainFlush(inner, rest) =>
        var pkts := outgoing;
        outgoing := [];
        React(inner);
        FlushPackets(pkts);
        React(rest);
    }
  }
}
