/**
 What one flush of the send queue does: which bytes, in which segments, how many in
 flight, and when it stops.
 */
module Sending {
  import opened SeqSpace
  import opened RecvModel
  import opened SendModel
  import opened ConnModel
  import opened ConnStates

  // ------------------------------------------------------------------ one flush

  function Concat(segs: seq<Seg>): seq<byte> {
    if segs == [] then [] else segs[0].payload + Concat(segs[1..])
  }

  /** Segments lie end to end from p to q. */
  ghost predicate Contiguous(segs: seq<Seg>, p: int, q: int)
    decreases segs
  {
    if segs == [] then p == q else segs[0].pos == p && segs[0].payload != [] && Contiguous(segs[1..], segs[0].End(), q)
  }

  /** The first segment of a flush that sends anything. */
  lemma FirstSegment(c: Conn, e: Env)
    requires Quota(c, e) > 0
    ensures var n := Quota(c, e);
            var o := Flush(c, e);
            && o.segs != [] && o.segs[1..] == Flush(OneSegmentIn(c, n), e).segs && o.c == Flush(OneSegmentIn(c, n), e).c
            && o.segs[0].pos == c.snd.nxt && |o.segs[0].payload| == n
            && Unacked(c.snd) + n <= |c.snd.buf| && o.segs[0].payload == c.snd.buf[Unacked(c.snd)..Unacked(c.snd) + n]
            && Unacked(c.snd) + n <= Min(c.sndWnd, e.cwnd) && n <= Pending(c.snd)
            && (n < c.cfg.mss ==> c.snd.nxt == c.snd.una)
  {
    hide RcvWindow, Options;
  }

  lemma {:induction false} FlushContiguous(c: Conn, e: Env)
    ensures Contiguous(Flush(c, e).segs, c.snd.nxt, Flush(c, e).c.snd.nxt)
    decreases if Pending(c.snd) > 0 then Pending(c.snd) else 0
  {
    hide Quota;
    if Quota(c, e) > 0 {
      FirstSegment(c, e);
      FlushContiguous(OneSegmentIn(c, Quota(c, e)), e);
    }
  }

  lemma {:induction false} FlushPayload(c: Conn, e: Env)
    ensures var o := Flush(c, e);
            && Unacked(c.snd) <= Unacked(o.c.snd)
            && (o.segs != [] ==>
                  Unacked(o.c.snd) <= |c.snd.buf| && Concat(o.segs) == c.snd.buf[Unacked(c.snd)..Unacked(o.c.snd)])
            && (o.segs == [] ==> o.c.snd == c.snd)
    decreases if Pending(c.snd) > 0 then Pending(c.snd) else 0
  {
    hide Quota, Build;
    if Quota(c, e) > 0 {
      FirstSegment(c, e);
      var c1 := OneSegmentIn(c, Quota(c, e));
      FlushPayload(c1, e);
      FlushFrame(c1, e);
      var o := Flush(c, e);
      assert c.snd.buf[Unacked(c.snd)..Unacked(c1.snd)] + c.snd.buf[Unacked(c1.snd)..Unacked(o.c.snd)]
          == c.snd.buf[Unacked(c.snd)..Unacked(o.c.snd)];
      if o.segs[1..] == [] { assert Concat(o.segs) == o.segs[0].payload; }
    }
  }

  lemma {:induction false} FlushInFlight(c: Conn, e: Env)
    ensures var o := Flush(c, e);
            && (Unacked(o.c.snd) <= Unacked(c.snd) || Unacked(o.c.snd) <= Min(c.sndWnd, e.cwnd))
            && (forall g :: g in o.segs && |g.payload| < c.cfg.mss ==> g.pos == c.snd.una)
            && Quota(o.c, e) == 0
    decreases if Pending(c.snd) > 0 then Pending(c.snd) else 0
  {
    hide Quota, Build;
    if Quota(c, e) > 0 {
      FirstSegment(c, e);
      FlushInFlight(OneSegmentIn(c, Quota(c, e)), e);
      var o := Flush(c, e);
      assert o.segs == [o.segs[0]] + o.segs[1..];
    }
  }

  /**
   A flush sends a prefix of the unsent bytes in order and end to end, never raises the bytes
   in flight above the smaller window, sends less than a full segment only at SND.UNA, that is
   with nothing in flight, and stops only when no further segment is allowed.
   */
  lemma FlushSends(c: Conn, e: Env)
    ensures var o := Flush(c, e);
            && Contiguous(o.segs, c.snd.nxt, o.c.snd.nxt)
            && Unacked(c.snd) <= Unacked(o.c.snd)
            && (o.segs != [] ==>
                  Unacked(o.c.snd) <= |c.snd.buf| && Concat(o.segs) == c.snd.buf[Unacked(c.snd)..Unacked(o.c.snd)])
            && (o.segs == [] ==> o.c.snd == c.snd)
            && (Unacked(o.c.snd) <= Unacked(c.snd) || Unacked(o.c.snd) <= Min(c.sndWnd, e.cwnd))
            && (forall g :: g in o.segs && |g.payload| < c.cfg.mss ==> g.pos == c.snd.una)
            && Quota(o.c, e) == 0
  {
    hide Flush, Quota, Concat, Contiguous;
    FlushContiguous(c, e);
    FlushPayload(c, e);
    FlushInFlight(c, e);
  }
}
