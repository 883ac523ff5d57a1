/**
 The send buffer on unwrapped positions: buf[0] is the byte at SND.UNA, and the
 scoreboard holds the blocks the peer last reported.
 */
module SendModel {
  import opened SeqSpace
  import opened RecvModel

  datatype SendFields = Send(buf: seq<byte>, cap: int, una: int, nxt: int, sacked: seq<Block>)

  /** Nothing is acknowledged before it is sent. */
  type Send = s: SendFields | s.una <= s.nxt witness Send([], 0, 0, 0, [])

  /** Sent lies at or after acknowledged, and the scoreboard ends within reach above SND.UNA. */
  ghost predicate ValidSend(s: Send) {
    && s.nxt - s.una < TWO31
    && forall b :: b in s.sacked ==> s.una < b.right < s.una + TWO31 && 0 <= b.right - b.left < TWO32
  }

  // -------------------------------------------------------------- operations

  function NewSend(cap: int, p: int): Send { Send([], cap, p, p, []) }

  function WriteCount(s: Send, p: seq<byte>): nat {
    if s.cap <= |s.buf| then 0 else Min(|p|, s.cap - |s.buf|)
  }

  function Write(s: Send, p: seq<byte>): Send { s.(buf := s.buf + p[..WriteCount(s, p)]) }

  function Unacked(s: Send): int { s.nxt - s.una }

  function Pending(s: Send): int { |s.buf| - (s.nxt - s.una) }

  /** Up to n unsent bytes. */
  function PeekUnsent(s: Send, n: nat): seq<byte>
    requires Unacked(s) <= |s.buf|
  {
    s.buf[Unacked(s)..Min(|s.buf|, Unacked(s) + n)]
  }

  function AdvanceSent(s: Send, n: nat): Send { s.(nxt := s.nxt + n) }

  function Prune(una: int, bs: seq<Block>): seq<Block> {
    if bs == [] then []
    else (if bs[0].right > una then [bs[0]] else []) + Prune(una, bs[1..])
  }

  /** How many bytes leave the buffer: a FIN or SYN acknowledged beyond it frees nothing more. */
  function AckCount(s: Send, ack: int): nat {
    if ack <= s.una then 0 else Min(Min(ack, s.nxt) - s.una, |s.buf|)
  }

  function Acknowledge(s: Send, ack: int): Send {
    if ack <= s.una then s
    else
      var a := Min(ack, s.nxt);
      s.(buf := s.buf[AckCount(s, ack)..], una := a, sacked := Prune(a, s.sacked))
  }

  /** The blocks worth keeping: ending above SND.UNA and, as 32-bit numbers, starting before SND.NXT. */
  function Keep(s: Send, bs: seq<Block>): seq<Block> {
    if bs == [] then []
    else (if bs[0].right > s.una && SeqBefore(Wrap(bs[0].left), Wrap(s.nxt)) then [bs[0]] else []) + Keep(s, bs[1..])
  }

  /** The latest report replaces the scoreboard; an empty report is ignored. */
  function MarkSACKed(s: Send, bs: seq<Block>): Send {
    if bs == [] then s else s.(sacked := Keep(s, bs))
  }

  /** What the 32-bit membership test says of a position in [UNA, UNA + 2^31). */
  predicate Covers(b: Block, q: int) { b.left <= q < b.right && q - b.left < TWO31 }

  predicate IsSACKed(bs: seq<Block>, q: int) { exists i :: 0 <= i < |bs| && Covers(bs[i], q) }

  /** One pass over the scoreboard: every block that covers the cursor moves it to its right edge. */
  function Hop(bs: seq<Block>, q: int): (r: int)
    ensures r >= q
    ensures r == q || exists i :: 0 <= i < |bs| && bs[i].right == r
  {
    if bs == [] then q
    else
      var q1 := if Covers(bs[0], q) then bs[0].right else q;
      var r := Hop(bs[1..], q1);
      assert r == q1 || exists i :: 1 <= i < |bs| && bs[i] == bs[1..][i - 1] && bs[i].right == r by {
        if r != q1 {
          var i :| 0 <= i < |bs[1..]| && bs[1..][i].right == r;
          assert bs[i + 1] == bs[1..][i];
        }
      }
      r
  }

  function MaxRight(bs: seq<Block>): (r: int)
    ensures forall b :: b in bs ==> b.right <= r
    ensures bs != [] ==> exists b :: b in bs && b.right == r
  {
    if bs == [] then 0
    else if |bs| == 1 then assert bs == [bs[0]]; bs[0].right
    else
      var r := MaxRight(bs[1..]);
      if bs[0].right > r then bs[0].right else r
  }

  /** Passes repeat until the cursor stands still. */
  function Skip(bs: seq<Block>, q: int): int
    decreases MaxRight(bs) - q
  {
    var r := Hop(bs, q);
    if r == q then q else Skip(bs, r)
  }

  /** Where retransmission starts. */
  function Resume(s: Send): (q: int)
    ensures s.una <= q
  {
    SkipStops(s.sacked, s.una);
    Skip(s.sacked, s.una)
  }

  function RetransmitData(s: Send, n: nat): seq<byte> {
    var unacked := Min(Unacked(s), |s.buf|);
    var off := Resume(s) - s.una;
    if Resume(s) >= s.nxt || off >= unacked then [] else s.buf[off..Min(unacked, off + n)]
  }

  // ------------------------------------------------------------------ lemmas

  lemma PruneSub(una: int, bs: seq<Block>)
    ensures forall b :: b in Prune(una, bs) <==> b in bs && b.right > una
  {
  }

  lemma KeepSub(s: Send, bs: seq<Block>)
    ensures forall b :: b in Keep(s, bs) <==> b in bs && b.right > s.una && SeqBefore(Wrap(b.left), Wrap(s.nxt))
  {
    hide Wrap, SeqBefore;
  }

  /** A pass that does not move the cursor met no block covering it. */
  lemma {:induction false} HopStill(bs: seq<Block>, q: int)
    requires Hop(bs, q) == q
    ensures !IsSACKed(bs, q)
  {
    if bs != [] {
      assert !Covers(bs[0], q);
      HopStill(bs[1..], q);
      forall i | 0 <= i < |bs| ensures !Covers(bs[i], q) {
        if i > 0 { assert bs[i] == bs[1..][i - 1]; }
      }
    }
  }

  ghost predicate Short(bs: seq<Block>) {
    forall i :: 0 <= i < |bs| ==> bs[i].right - bs[i].left < TWO31
  }

  /** A pass moves only across SACKed positions. */
  lemma {:induction false} HopCovered(bs: seq<Block>, q: int, x: int)
    requires Short(bs) && q <= x < Hop(bs, q)
    ensures IsSACKed(bs, x)
  {
    var b := bs[0];
    var q1 := if Covers(b, q) then b.right else q;
    if q <= x < q1 {
      assert Covers(bs[0], x);
    } else {
      forall i | 0 <= i < |bs[1..]| ensures bs[1..][i] == bs[i + 1] {}
      HopCovered(bs[1..], q1, x);
      var i :| 0 <= i < |bs[1..]| && Covers(bs[1..][i], x);
      assert Covers(bs[i + 1], x);
    }
  }

  /** The skip loop stops at an un-SACKed position, whatever the blocks. */
  lemma {:induction false} SkipStops(bs: seq<Block>, q: int)
    ensures Skip(bs, q) >= q && !IsSACKed(bs, Skip(bs, q))
    ensures Skip(bs, q) == q || exists b :: b in bs && b.right == Skip(bs, q)
    decreases MaxRight(bs) - q
  {
    var r := Hop(bs, q);
    if r == q { HopStill(bs, q); } else { SkipStops(bs, r); }
  }

  /** For blocks shorter than 2^31 it is the first un-SACKed position: everything before is SACKed. */
  lemma {:induction false} SkipIsFirst(bs: seq<Block>, q: int, x: int)
    requires Short(bs)
    requires q <= x < Skip(bs, q)
    ensures IsSACKed(bs, x)
    decreases MaxRight(bs) - q
  {
    var r := Hop(bs, q);
    if x < r { HopCovered(bs, q, x); } else { SkipIsFirst(bs, r, x); }
  }

  /** Retransmission starts at SND.UNA exactly when no reported block covers it. */
  lemma ResumeAtUna(s: Send)
    ensures Resume(s) == s.una <==> !IsSACKed(s.sacked, s.una)
  {
    SkipStops(s.sacked, s.una);
    if !IsSACKed(s.sacked, s.una) { HopIdle(s.sacked, s.una); }
  }

  lemma {:induction false} HopIdle(bs: seq<Block>, q: int)
    requires !IsSACKed(bs, q)
    ensures Hop(bs, q) == q
  {
    if bs != [] {
      assert !Covers(bs[0], q);
      forall i | 0 <= i < |bs[1..]| ensures !Covers(bs[1..][i], q) { assert bs[1..][i] == bs[i + 1]; }
      HopIdle(bs[1..], q);
    }
  }

  /** Cumulative acknowledgement keeps the scoreboard in reach of the new SND.UNA. */
  lemma AcknowledgeValid(s: Send, ack: int)
    requires ValidSend(s)
    ensures ValidSend(Acknowledge(s, ack))
  {
    PruneSub(Min(ack, s.nxt), s.sacked);
  }

  /** So does any report: positions nearest SND.UNA are all the scoreboard keeps. */
  lemma MarkValid(s: Send, bs: seq<Block>)
    requires ValidSend(s)
    requires forall b :: b in bs ==> Near(b.right, s.una) && 0 <= b.right - b.left < TWO32
    ensures ValidSend(MarkSACKed(s, bs))
  {
    KeepSub(s, bs);
  }
}
