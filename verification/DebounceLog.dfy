/**
 The debounced log: equal messages within a second are merged into one counted line, a timer
 prints what is pending, and a generation counter disarms timers that were overtaken.
 */
module DebounceLog {
  import opened SeqSpace

  const DELAY: int := 1_000_000_000

  /** A pending line; `id` stands for its address. */
  datatype Entry = Entry(id: nat, firstFull: string, count: nat, firstAt: int)

  /** A timer callback, with the generation and the entry it captured. */
  datatype Fire = Fire(gen: nat, id: nat)

  datatype Line = Line(full: string, count: nat)

  /** `armed` is the running timer; `late` holds the callbacks that have fired but not yet got the lock. */
  datatype Log = Log(cur: Option<Entry>, curKey: string, gen: nat, made: nat,
                     armed: Option<Fire>, late: seq<Fire>, out: seq<Line>)

  function NewLog(): Log { Log(None, "", 0, 0, None, [], []) }

  // --------------------------------------------------------------------- operations

  function LineOf(e: Entry): Line { Line(e.firstFull, e.count) }

  function Printed(l: Log): Log {
    if l.cur.Some? then l.(out := l.out + [LineOf(l.cur.value)]) else l
  }

  /** A timestamp of eight characters, a blank, then the key. */
  function Full(ts: string, key: string): string { ts + " " + key }

  predicate Merges(l: Log, key: string, now: int) {
    key == l.curKey && l.cur.Some? && now - l.cur.value.firstAt < DELAY
  }

  function Printf(l: Log, ts: string, key: string, now: int): Log {
    if Merges(l, key, now) then
      var e := l.cur.value;
      l.(cur := Some(e.(count := e.count + 1)), gen := l.gen + 1, armed := Some(Fire(l.gen + 1, e.id)))
    else
      Printed(l).(cur := Some(Entry(l.made, Full(ts, key), 1, now)), curKey := key, gen := l.gen + 1,
                  made := l.made + 1, armed := Some(Fire(l.gen + 1, l.made)))
  }

  function ExitFlush(l: Log): Log { if l.cur.Some? then Printed(l).(cur := None, curKey := "") else l }

  predicate Current(l: Log, f: Fire) { f.gen == l.gen && l.cur.Some? && l.cur.value.id == f.id }

  /** A callback prints the pending line only when nothing has overtaken it. */
  function Flush(l: Log, f: Fire): Log {
    if Current(l, f) then Printed(l).(cur := None, curKey := "") else l
  }

  // ---------------------------------------------------------------------------- runs

  datatype Event =
    | Call(ts: string, key: string, now: int)
    | Expire              // the timer goes off
    | Callback(i: nat)    // one of the fired callbacks gets the lock
    | Exit

  predicate Happens(l: Log, ev: Event) {
    match ev
    case Call(ts, key, _) => |ts| == 8 && key != ""
    case Expire => l.armed.Some?
    case Callback(i) => i < |l.late|
    case Exit => true
  }

  function Apply(l: Log, ev: Event): Log
    requires Happens(l, ev)
  {
    match ev
    case Call(ts, key, now) => Printf(l, ts, key, now)
    case Expire => l.(armed := None, late := l.late + [l.armed.value])
    case Callback(i) => Flush(l, l.late[i]).(late := l.late[..i] + l.late[i + 1..])
    case Exit => ExitFlush(l)
  }

  ghost predicate Runs(l: Log, evs: seq<Event>)
    decreases evs
  {
    evs == [] || (Happens(l, evs[0]) && Runs(Apply(l, evs[0]), evs[1..]))
  }

  ghost function Final(l: Log, evs: seq<Event>): Log
    requires Runs(l, evs)
    decreases evs
  {
    if evs == [] then l else Final(Apply(l, evs[0]), evs[1..])
  }

  /** The messages logged during a run, in order. */
  ghost function Calls(evs: seq<Event>): seq<string> {
    if evs == [] then [] else (if evs[0].Call? then [evs[0].key] else []) + Calls(evs[1..])
  }

  // ------------------------------------------------------------------- what was said

  ghost function Copies(n: nat, key: string): seq<string> { seq(n, _ => key) }

  /** A line with its timestamp cut off, as often as it counts. */
  ghost function Said(line: Line): seq<string> { Copies(line.count, if |line.full| >= 9 then line.full[9..] else []) }

  ghost function SaidAll(out: seq<Line>): seq<string> {
    if out == [] then [] else SaidAll(out[..|out| - 1]) + Said(out[|out| - 1])
  }

  /** Everything printed, then everything pending. */
  ghost function Transcript(l: Log): seq<string> {
    SaidAll(l.out) + if l.cur.Some? then Said(LineOf(l.cur.value)) else []
  }

  /** The key is that of the pending entry; timers carry generations and entries of the past. */
  ghost predicate Sound(l: Log) {
    && (l.cur.None? ==> l.curKey == "")
    && (l.cur.Some? ==>
          && |l.cur.value.firstFull| >= 9 && l.cur.value.firstFull[9..] == l.curKey
          && l.curKey != "" && l.cur.value.id < l.made)
    && (l.cur.Some? ==> Due(l))
    && (l.armed.Some? ==> Aged(l, l.armed.value))
    && (forall i :: 0 <= i < |l.late| ==> Aged(l, l.late[i]))
  }

  /** A callback of the current generation belongs to the pending entry, if there is one. */
  ghost predicate Aged(l: Log, f: Fire) {
    f.gen <= l.gen && (f.gen == l.gen && l.cur.Some? ==> f.id == l.cur.value.id)
  }

  /** The pending entry has a timer of the current generation, running or just gone off. */
  ghost predicate Due(l: Log)
    requires l.cur.Some?
  {
    var f := Fire(l.gen, l.cur.value.id);
    l.armed == Some(f) || f in l.late
  }

  lemma PrintedTranscript(l: Log)
    ensures Transcript(Printed(l).(cur := None)) == Transcript(l)
  {
    if l.cur.Some? {
      var out := l.out + [LineOf(l.cur.value)];
      assert out[..|out| - 1] == l.out;
    }
  }

  lemma PrintfTranscript(l: Log, ts: string, key: string, now: int)
    requires Sound(l) && |ts| == 8
    ensures Transcript(Printf(l, ts, key, now)) == Transcript(l) + [key]
  {
    hide SaidAll;
    var q := Printf(l, ts, key, now);
    if Merges(l, key, now) {
      var n := l.cur.value.count;
      assert Copies(n + 1, key) == Copies(n, key) + [key];
    } else {
      PrintedTranscript(l);
      assert Full(ts, key)[9..] == key;
      assert Copies(1, key) == [key];
      assert Transcript(q) == SaidAll(Printed(l).out) + [key];
    }
  }

  lemma ApplyTranscript(l: Log, ev: Event)
    requires Sound(l) && Happens(l, ev)
    ensures Transcript(Apply(l, ev)) == Transcript(l) + Calls([ev])
    ensures Apply(l, ev).gen == l.gen + |Calls([ev])|
  {
    hide SaidAll;
    assert Calls([ev]) == if ev.Call? then [ev.key] else [];
    if ev.Call? { PrintfTranscript(l, ev.ts, ev.key, ev.now); } else { PrintedTranscript(l); }
  }

  lemma ApplySound(l: Log, ev: Event)
    requires Sound(l) && Happens(l, ev)
    ensures Sound(Apply(l, ev))
  {
    var q := Apply(l, ev);
    match ev
    case Call(ts, key, now) => assert Full(ts, key)[9..] == key;
    case Callback(i) =>
      if q.cur.Some? {
        var f := Fire(l.gen, l.cur.value.id);
        assert l.late[i] != f;
        if f in l.late {
          var j :| 0 <= j < |l.late| && l.late[j] == f;
          assert q.late[if j < i then j else j - 1] == f;
        }
      }
    case _ =>
  }

  lemma CallsSplit(evs: seq<Event>)
    requires evs != []
    ensures Calls(evs) == Calls([evs[0]]) + Calls(evs[1..])
  {
    assert [evs[0]][1..] == [];
  }

  lemma {:induction false} RunTranscript(l: Log, evs: seq<Event>)
    requires Sound(l) && Runs(l, evs)
    ensures Sound(Final(l, evs)) && Transcript(Final(l, evs)) == Transcript(l) + Calls(evs)
    ensures Final(l, evs).gen == l.gen + |Calls(evs)|
    decreases evs
  {
    hide Sound, Transcript, Apply, Happens;
    if evs != [] {
      CallsSplit(evs);
      hide Calls;
      ApplySound(l, evs[0]);
      ApplyTranscript(l, evs[0]);
      RunTranscript(Apply(l, evs[0]), evs[1..]);
    } else {
      assert Transcript(l) + [] == Transcript(l);
    }
  }

  /**
   Under every interleaving of calls, timers, overtaken callbacks and exits: the printed lines,
   each as often as it counts, followed by the pending one, are the logged messages in order;
   and whatever is pending has a timer of the current generation.
   */
  lemma TranscriptExact(evs: seq<Event>)
    requires Runs(NewLog(), evs)
    ensures Transcript(Final(NewLog(), evs)) == Calls(evs)
    ensures Final(NewLog(), evs).cur.Some? ==> Due(Final(NewLog(), evs))
  {
    RunTranscript(NewLog(), evs);
  }

  ghost function Total(out: seq<Line>): nat { if out == [] then 0 else Total(out[..|out| - 1]) + out[|out| - 1].count }

  lemma {:induction false} SaidLength(out: seq<Line>)
    ensures |SaidAll(out)| == Total(out)
    decreases out
  {
    if out != [] { SaidLength(out[..|out| - 1]); }
  }

  /** Printed counts plus the pending count are the number of calls. */
  lemma CountsConserved(evs: seq<Event>)
    requires Runs(NewLog(), evs)
    ensures var l := Final(NewLog(), evs); Total(l.out) + (if l.cur.Some? then l.cur.value.count else 0) == |Calls(evs)|
  {
    TranscriptExact(evs);
    SaidLength(Final(NewLog(), evs).out);
  }

  /**
   After any run a callback changes nothing exactly when it was not armed by the latest call, or
   when the pending line has been printed already.
   */
  lemma OvertakenExactly(evs: seq<Event>, i: nat)
    requires Runs(NewLog(), evs) && i < |Final(NewLog(), evs).late|
    ensures var l := Final(NewLog(), evs); Flush(l, l.late[i]) == l <==> l.late[i].gen != |Calls(evs)| || l.cur.None?
  {
    RunTranscript(NewLog(), evs);
    var l := Final(NewLog(), evs);
    assert Aged(l, l.late[i]);
  }

  // ---------------------------------------------------------------- which calls share a line

  /** Lines so far: those printed and the one still open. */
  ghost function Lines(l: Log): nat { |l.out| + if l.cur.Some? then 1 else 0 }

  /** The call that began the open line, told from the number of lines alone. */
  ghost function Began(l: Log, evs: seq<Event>, was: Option<Event>): Option<Event>
    requires Runs(l, evs)
    decreases evs
  {
    if evs == [] then was else Began(Apply(l, evs[0]), evs[1..], BeganNext(l, evs[0], was))
  }

  ghost function BeganNext(l: Log, ev: Event, was: Option<Event>): Option<Event>
    requires Happens(l, ev)
  {
    var q := Apply(l, ev);
    if Lines(q) > Lines(l) then Some(ev) else if q.cur.None? then None else was
  }

  /** The open line shows the timestamp and message of the call that began it. */
  ghost predicate Opened(l: Log, b: Option<Event>) {
    match b
    case None => l.cur.None?
    case Some(Call(ts, key, now)) =>
      l.cur.Some? && l.cur.value.firstFull == ts + " " + key && l.curKey == key && l.cur.value.firstAt == now
    case _ => false
  }

  lemma NextOpened(l: Log, ev: Event, b: Option<Event>)
    requires Sound(l) && Happens(l, ev) && Opened(l, b)
    ensures Opened(Apply(l, ev), BeganNext(l, ev, b))
  {
  }

  lemma {:induction false} RunOpened(l: Log, evs: seq<Event>, b: Option<Event>)
    requires Sound(l) && Runs(l, evs) && Opened(l, b)
    ensures Opened(Final(l, evs), Began(l, evs, b))
    decreases evs
  {
    hide Sound, Opened, BeganNext, Apply, Happens;
    if evs != [] {
      ApplySound(l, evs[0]);
      NextOpened(l, evs[0], b);
      RunOpened(Apply(l, evs[0]), evs[1..], BeganNext(l, evs[0], b));
    }
  }

  /**
   After any run a call shares the open line exactly when there is one, with the same message,
   begun less than a second before; otherwise it begins one more line, and any open one is printed.
   */
  lemma SharesLineExactly(evs: seq<Event>, ts: string, key: string, now: int)
    requires Runs(NewLog(), evs) && |ts| == 8 && key != ""
    ensures var l, b := Final(NewLog(), evs), Began(NewLog(), evs, None);
            var q := Apply(l, Call(ts, key, now));
            var shares := b.Some? && b.value.Call? && b.value.key == key && now - b.value.now < 1_000_000_000;
            && Opened(l, b)
            && Lines(q) == Lines(l) + (if shares then 0 else 1)
            && q.out == l.out + (if shares || b.None? then [] else [LineOf(l.cur.value)])
  {
    RunTranscript(NewLog(), evs);
    RunOpened(NewLog(), evs, None);
  }

  // --------------------------------------------------------------- the logger as it runs

  class DDLogger {
    var cur: Option<Entry>
    var curKey: string
    var gen: nat
    var made: nat
    var armed: Option<Fire>
    var late: seq<Fire>
    var out: seq<Line>

    function State(): Log
      reads this
    {
      Log(cur, curKey, gen, made, armed, late, out)
    }

    constructor ()
      ensures State() == NewLog()
    {
      cur, curKey, gen, made, armed, late, out := None, "", 0, 0, None, [], [];
    }

    /** The test of the key also guards the look at the pending entry, which may be absent. */
    method Print(ts: string, key: string, now: int)
      requires Sound(State()) && key != ""
      modifies this
      ensures State() == Printf(old(State()), ts, key, now)
    {
      var full := ts + " " + key;
      if key == curKey && now - cur.value.firstAt < DELAY {
        var e := cur.value;
        cur := Some(e.(count := e.count + 1));
        gen := gen + 1;
        Trigger(gen, e.id);
        return;
      }
      if cur.Some? { PrintEntry(cur.value); }
      gen := gen + 1;
      cur := Some(Entry(made, full, 1, now));
      made := made + 1;
      curKey := key;
      Trigger(gen, cur.value.id);
    }

    /** Debounce: the new timer replaces the running one; callbacks already under way stay. */
    method Trigger(g: nat, id: nat)
      modifies this`armed
      ensures armed == Some(Fire(g, id))
    {
      armed := Some(Fire(g, id));
    }

    method FlushFrom(f: Fire)
      modifies this
      ensures State() == Flush(old(State()), f)
    {
      if f.gen != gen || cur.None? || cur.value.id != f.id { return; }
      PrintEntry(cur.value);
      cur, curKey := None, "";
    }

    method FlushAtExit()
      modifies this
      ensures State() == ExitFlush(old(State()))
    {
      if cur.Some? {
        PrintEntry(cur.value);
        cur, curKey := None, "";
      }
    }

    method PrintEntry(e: Entry)
      modifies this`out
      ensures out == old(out) + [LineOf(e)]
    {
      out := out + [Line(e.firstFull, e.count)];
    }
  }
}
