/**
 The relay file transfer: a bitmap of received chunks, one acknowledgement per batch of eight,
 and when the part file equals the source at the end.
 */
module FileTransfer {
  import opened Bitmap
  import opened SeqSpace

  const CHUNK: nat := 65536
  const ACK_BATCH: nat := 8

  // --------------------------------------------------------------------- the part file

  /** A file open for writing: seeking past the end and writing leaves zeros between. */
  datatype File = File(data: seq<byte>, pos: nat)

  function Zeros(n: nat): seq<byte> { seq(n, _ => 0) }

  function Written(f: File, bytes: seq<byte>): File {
    var head := if f.pos <= |f.data| then f.data[..f.pos] else f.data + Zeros(f.pos - |f.data|);
    var tail := if f.pos + |bytes| <= |f.data| then f.data[f.pos + |bytes|..] else [];
    File(head + bytes + tail, f.pos + |bytes|)
  }

  /** Full chunks, plus one for a remainder. */
  function ChunkCount(size: nat): nat { (size + 65535) / 65536 }

  function ChunkAt(src: seq<byte>, k: nat): seq<byte>
    requires k < ChunkCount(|src|)
  {
    src[k * CHUNK..Min((k + 1) * CHUNK, |src|)]
  }

  // ----------------------------------------------------------------------- the receiver

  datatype Session = Session(file: File, have: set<nat>, total: nat, lastAck: nat)

  function WordCount(total: nat): nat { (total + 63) / 64 }

  /** The first n chunks. */
  function Below(n: nat): (r: set<nat>)
    ensures forall i: nat :: i in r <==> i < n
  {
    if n == 0 then {} else Below(n - 1) + {n - 1}
  }

  /**
   The start of a session: afresh, or on the part file left over when the sender asks to resume.
   A chunk of which only a part was written counts as written.
   */
  function Opened(left: Option<seq<byte>>, offset: nat, total: nat): Session {
    if offset > 0 && left.Some? then
      var written := ChunkCount(|left.value|);
      var have := Below(Min(written, total));
      var start := Max(written, LeastMissing(have, total, 0));
      Session(File(left.value, start * CHUNK), have, total, start)
    else
      Session(File([], 0), {}, total, 0)
  }

  /** One data frame: a chunk already there is dropped; the answer is an acknowledgement or nothing. */
  function Received(s: Session, k: nat, chunk: seq<byte>): (Session, Option<nat>) {
    var s1 :=
      if k in s.have then s
      else s.(file := Written(s.file, chunk), have := if k < 64 * WordCount(s.total) then s.have + {k} else s.have);
    var n := LeastMissing(s1.have, s.total, 0);
    if (n - s.lastAck >= ACK_BATCH || n >= s.total) && n > s.lastAck
    then (s1.(lastAck := n), Some(n - 1))
    else (s1, None)
  }

  // ------------------------------------------------------------------------ lock step

  /** What the part file holds after chunks below k, when it was taken over with the bytes left. */
  ghost function Filled(src: seq<byte>, left: seq<byte>, k: nat): seq<byte>
    requires ChunkCount(|left|) <= k <= ChunkCount(|src|)
  {
    var start := ChunkCount(|left|);
    if k == start then left
    else left + Zeros(start * CHUNK - |left|) + src[start * CHUNK..Min(k * CHUNK, |src|)]
  }

  /** The receiver has exactly the chunks below k. */
  ghost predicate InStep(s: Session, src: seq<byte>, left: seq<byte>, k: nat) {
    && ChunkCount(|left|) <= k <= ChunkCount(|src|)
    && s.total == ChunkCount(|src|) && s.have == Below(k) && s.lastAck <= k
    && s.file == File(Filled(src, left, k), if k == ChunkCount(|left|) then k * CHUNK else Min(k * CHUNK, |src|))
  }

  lemma ChunkCountMonotone(d: nat, n: nat)
    requires d <= n
    ensures ChunkCount(d) <= ChunkCount(n)
  {
  }

  lemma ChunkCountBounds(n: nat)
    ensures ChunkCount(n) * CHUNK >= n && (n > 0 ==> (ChunkCount(n) - 1) * CHUNK < n)
  {
  }

  lemma LeastOfBelow(k: nat, limit: nat)
    ensures LeastMissing(Below(k), limit, 0) == Min(k, limit)
  {
    var n := LeastMissing(Below(k), limit, 0);
    assert k !in Below(k) && (n in Below(k) <==> n < k);
  }

  /** Appending at the end, or past it over zeros. */
  lemma WrittenAtEnd(f: File, bytes: seq<byte>)
    requires |f.data| <= f.pos
    ensures Written(f, bytes) == File(f.data + Zeros(f.pos - |f.data|) + bytes, f.pos + |bytes|)
  {
    if f.pos == |f.data| {
      assert f.data[..f.pos] == f.data && f.data + Zeros(0) == f.data;
      assert bytes == [] ==> f.data[f.pos..] == [];
    }
  }

  lemma SliceJoin(head: seq<byte>, src: seq<byte>, a: nat, b: nat, c: nat)
    requires a <= b <= c <= |src|
    ensures head + src[a..c] == head + src[a..b] + Zeros(0) + src[b..c]
  {
    assert src[a..b] + src[b..c] == src[a..c];
  }

  lemma FilledLength(src: seq<byte>, left: seq<byte>, k: nat)
    requires ChunkCount(|left|) <= k <= ChunkCount(|src|)
    ensures ChunkCount(|left|) * CHUNK >= |left| && (k < ChunkCount(|src|) ==> k * CHUNK < |src|)
    ensures |Filled(src, left, k)| == if k == ChunkCount(|left|) then |left| else Min(k * CHUNK, |src|)
  {
    ChunkCountBounds(|left|);
    ChunkCountBounds(|src|);
  }

  lemma FilledNext(src: seq<byte>, left: seq<byte>, k: nat)
    requires ChunkCount(|left|) <= k < ChunkCount(|src|)
    ensures |Filled(src, left, k)| <= k * CHUNK < |src|
    ensures Filled(src, left, k + 1) == Filled(src, left, k) + Zeros(k * CHUNK - |Filled(src, left, k)|) +
          ChunkAt(src, k)
  {
    FilledLength(src, left, k);
    hide ChunkCount, Zeros;
    var start := ChunkCount(|left|);
    if k > start {
      SliceJoin(left + Zeros(start * CHUNK - |left|), src, start * CHUNK, k * CHUNK, Min((k + 1) * CHUNK, |src|));
    }
  }

  /** Writing chunk k onto the first k chunks gives the first k + 1. */
  lemma WriteNext(src: seq<byte>, left: seq<byte>, k: nat)
    requires ChunkCount(|left|) <= k < ChunkCount(|src|)
    ensures Written(File(Filled(src, left, k), if k == ChunkCount(|left|) then k * CHUNK else Min(k * CHUNK, |src|)),
        ChunkAt(src, k))
         == File(Filled(src, left, k + 1), Min((k + 1) * CHUNK, |src|))
  {
    hide Written, ChunkCount, Filled;
    FilledNext(src, left, k);
    WrittenAtEnd(File(Filled(src, left, k), k * CHUNK), ChunkAt(src, k));
  }

  /** The next chunk in order keeps the step, and is answered exactly at a batch's end or the file's. */
  lemma ReceiveNext(s: Session, src: seq<byte>, left: seq<byte>, k: nat)
    requires InStep(s, src, left, k) && k < s.total
    ensures
      var (t, ack) := Received(s, k, ChunkAt(src, k));
      var answered := k + 1 - s.lastAck >= ACK_BATCH || k + 1 == s.total;
      && InStep(t, src, left, k + 1)
      && ack == (if answered then Some(k) else None) && t.lastAck == if answered then k + 1 else s.lastAck
  {
    hide Written, Filled, ChunkAt, ChunkCount;
    WriteNext(src, left, k);
    LeastOfBelow(k + 1, s.total);
    assert Below(k) + {k} == Below(k + 1);
  }

  /** A chunk that is there already is dropped, whatever it holds: the file and the step stay as they are. */
  lemma ReceiveAgain(s: Session, src: seq<byte>, left: seq<byte>, k: nat, j: nat, chunk: seq<byte>)
    requires InStep(s, src, left, k) && j < k
    ensures var t := Received(s, j, chunk).0; InStep(t, src, left, k) && t.file == s.file && t.have == s.have
  {
    hide Written, Filled, ChunkCount;
    LeastOfBelow(k, s.total);
  }

  /** A batch as the sender writes it, and the acknowledgements that come back. */
  function SentBatch(s: Session, src: seq<byte>, k: nat, end: nat): (Session, seq<nat>)
    requires k <= end <= ChunkCount(|src|)
    decreases end - k
  {
    if k == end then (s, [])
    else
      var (t, ack) := Received(s, k, ChunkAt(src, k));
      var (u, acks) := SentBatch(t, src, k + 1, end);
      (u, (if ack.Some? then [ack.value] else []) + acks)
  }

  function BatchEnd(k: nat, total: nat): nat { Min(k + 8, total) }

  /** One batch is answered once, with its last chunk. */
  lemma {:induction false} BatchAnswered(s: Session, src: seq<byte>, left: seq<byte>, k: nat, end: nat)
    requires InStep(s, src, left, k) && k < end == BatchEnd(s.lastAck, s.total)
    ensures
      var (t, acks) := SentBatch(s, src, k, end);
      InStep(t, src, left, end) && t.lastAck == end && acks == [end - 1]
    decreases end - k
  {
    hide Received, ChunkAt, ChunkCount, InStep;
    StepTotal(s, src, left, k);
    ReceiveNext(s, src, left, k);
    var (t, ack) := Received(s, k, ChunkAt(src, k));
    StepTotal(t, src, left, k + 1);
    if k + 1 < end { BatchAnswered(t, src, left, k + 1, end); }
  }

  lemma StepTotal(s: Session, src: seq<byte>, left: seq<byte>, k: nat)
    requires InStep(s, src, left, k)
    ensures ChunkCount(|left|) <= k <= s.total == ChunkCount(|src|) && s.lastAck <= k
  {
  }

  /** A whole transfer from chunk k, batch after batch, as the sender goes on from each answer. */
  function Sent(s: Session, src: seq<byte>, k: nat): (Session, seq<nat>)
    decreases ChunkCount(|src|) - k
  {
    if k >= ChunkCount(|src|) then (s, [])
    else
      var end := BatchEnd(k, ChunkCount(|src|));
      var (t, acks) := SentBatch(s, src, k, end);
      var (u, more) := Sent(t, src, end);
      (u, acks + more)
  }

  /** The last chunk of each batch from chunk k on. */
  function Lasts(k: nat, total: nat): seq<nat>
    decreases total - k
  {
    if k >= total then [] else [BatchEnd(k, total) - 1] + Lasts(BatchEnd(k, total), total)
  }

  lemma {:induction false} SentInStep(s: Session, src: seq<byte>, left: seq<byte>, k: nat)
    requires InStep(s, src, left, k) && s.lastAck == k
    ensures
      && k <= ChunkCount(|src|)
      && var (t, acks) := Sent(s, src, k);
         InStep(t, src, left, ChunkCount(|src|)) && acks == Lasts(k, ChunkCount(|src|))
    decreases |src| + 1 - k
  {
    hide SentBatch, ChunkCount, InStep;
    StepTotal(s, src, left, k);
    if k < s.total {
      SizeAtLeast(src);
      var end := BatchEnd(k, s.total);
      BatchAnswered(s, src, left, k, end);
      SentInStep(SentBatch(s, src, k, end).0, src, left, end);
    }
  }

  lemma SizeAtLeast(src: seq<byte>)
    ensures ChunkCount(|src|) <= |src|
  {
  }

  // ------------------------------------------------------------- the whole transfer

  /** The part file a session goes on from: what was left over, if it is resumed. */
  function TakenOver(left: Option<seq<byte>>, offset: nat): seq<byte> {
    if offset > 0 && left.Some? then left.value else []
  }

  lemma OpenedAt(left: Option<seq<byte>>, offset: nat, total: nat)
    ensures
      var s := Opened(left, offset, total);
      var start := ChunkCount(|TakenOver(left, offset)|);
      s.lastAck == start && s.total == total && s.file == File(TakenOver(left, offset), start * CHUNK)
          && s.have == Below(Min(start, total))
  {
    LeastOfBelow(Min(ChunkCount(|TakenOver(left, offset)|), total), total);
  }

  /** The bytes that were skipped because their chunk had been begun. */
  ghost predicate GapIsZero(src: seq<byte>, d: nat)
    requires d <= |src|
  {
    && ChunkCount(d) * CHUNK < |src|
    && forall i :: d <= i < ChunkCount(d) * CHUNK ==> src[i] == 0
  }

  /** The source can be completed from a leftover: a prefix of whole chunks, of all of it, or up to a gap of zeros. */
  ghost predicate Completable(src: seq<byte>, left: seq<byte>) {
    left <= src && (|left| % CHUNK == 0 || |left| == |src| || GapIsZero(src, |left|))
  }

  /** What is left over, zeros up to position k, then the source. */
  lemma Patched(src: seq<byte>, left: seq<byte>, k: nat)
    requires |left| <= k < |src|
    ensures left + Zeros(k - |left|) + src[k..] == src <==> left <= src && forall i :: |left| <= i < k ==> src[i] == 0
  {
    var f := left + Zeros(k - |left|) + src[k..];
    assert forall i :: 0 <= i < |src| ==> f[i] == if i < |left| then left[i] else if i < k then 0 else src[i];
    if f == src {
      assert left == f[..|left|];
      forall i | |left| <= i < k ensures src[i] == 0 { assert f[i] == 0; }
    }
  }

  /** With no gap there is nothing to be zero. */
  lemma NoGap(d: nat)
    ensures d % CHUNK == 0 ==> ChunkCount(d) * CHUNK == d
  {
  }

  lemma FilledExactly(src: seq<byte>, left: seq<byte>)
    requires ChunkCount(|left|) <= ChunkCount(|src|)
    ensures Filled(src, left, ChunkCount(|src|)) == src <==> Completable(src, left)
  {
    hide ChunkCount, Zeros;
    ChunkCountBounds(|left|);
    ChunkCountBounds(|src|);
    NoGap(|left|);
    FilledLength(src, left, ChunkCount(|left|));
    var start, total := ChunkCount(|left|), ChunkCount(|src|);
    if start < total {
      assert src[start * CHUNK..Min(total * CHUNK, |src|)] == src[start * CHUNK..];
      Patched(src, left, start * CHUNK);
    }
  }

  /** A leftover with more chunks than the source is no part of it. */
  lemma TooLong(src: seq<byte>, left: seq<byte>)
    requires ChunkCount(|left|) > ChunkCount(|src|)
    ensures |left| > |src|
  {
    if |left| <= |src| { ChunkCountMonotone(|left|, |src|); }
  }

  /**
   For every file, fresh or resumed on any part file: each batch is answered exactly once, with
   its last chunk; and when FIN is sent the part file equals the source if and only if what was
   taken over was completable, which nothing and any prefix of whole chunks are.
   */
  lemma TransferExactly(left: Option<seq<byte>>, offset: nat, src: seq<byte>)
    ensures
      var total, taken := ChunkCount(|src|), TakenOver(left, offset);
      var start := Opened(left, offset, total).lastAck;
      var (t, acks) := Sent(Opened(left, offset, total), src, start);
      start == ChunkCount(|taken|) && acks == Lasts(start, total) && (t.file.data == src <==> Completable(src, taken))
  {
    hide Opened, Filled, ChunkCount, Received, SentBatch;
    var total, taken := ChunkCount(|src|), TakenOver(left, offset);
    var s := Opened(left, offset, total);
    OpenedAt(left, offset, total);
    if ChunkCount(|taken|) <= total {
      assert InStep(s, src, taken, ChunkCount(|taken|)) by { FilledStart(src, taken); }
      SentInStep(s, src, taken, ChunkCount(|taken|));
      FilledExactly(src, taken);
    } else {
      TooLong(src, taken);
    }
  }

  lemma FilledStart(src: seq<byte>, left: seq<byte>)
    requires ChunkCount(|left|) <= ChunkCount(|src|)
    ensures Filled(src, left, ChunkCount(|left|)) == left
  {
  }

  /** A leftover of one byte of two is taken for the whole chunk: nothing more is sent. */
  lemma TornLeftover()
    ensures Sent(Opened(Some([1]), 1, 1), [1, 2], 1).0.file.data != [1, 2]
  {
    TransferExactly(Some([1]), 1, [1, 2]);
  }

  // ---------------------------------------------------------------- as the programs run

  /** The receiving side: the session and the loop's own counter. */
  class Receiver {
    var part: File
    var bitmap: array<bv64>
    const total: nat
    var lastAck: nat

    ghost function State(): Session
      reads this, bitmap
    {
      Session(part, Bits(bitmap[..]), total, lastAck)
    }

    ghost predicate Valid()
      reads this, bitmap
    {
      bitmap.Length == WordCount(total)
    }

    constructor (left: Option<seq<byte>>, offset: nat, total: nat)
      ensures Valid() && fresh(bitmap) && this.total == total && State() == Opened(left, offset, total)
    {
      hide Bits;
      var words := new bv64[WordCount(total)](_ => 0);
      EmptyBits(words[..]);
      var start := 0;
      if offset > 0 && left.Some? { start := Resume(words, |left.value|, total); }
      bitmap, lastAck, this.total := words, start, total;
      part := if offset > 0 && left.Some? then File(left.value, start * CHUNK) else File([], 0);
    }

    /** Marks the chunks a leftover of that size counts for, and tells where to go on. */
    static method Resume(words: array<bv64>, done: nat, total: nat) returns (start: nat)
      requires Bits(words[..]) == {} && words.Length == WordCount(total)
      modifies words
      ensures Bits(words[..]) == Below(Min(ChunkCount(done), total))
      ensures start == Max(ChunkCount(done), LeastMissing(Below(Min(ChunkCount(done), total)), total, 0))
    {
      hide Bits, LeastMissing;
      var written := done / CHUNK;
      if done % CHUNK != 0 { written := written + 1; }
      start := written;
      var i := 0;
      while i < written && i < total
        invariant i <= Min(written, total) && Bits(words[..]) == Below(i)
      {
        BitmapSet(words, i);
        i := i + 1;
      }
      var resume := BitmapMaxContinuous(words, total);
      start := Max(start, resume);
    }

    method OnData(k: nat, chunk: seq<byte>) returns (ack: Option<nat>)
      requires Valid()
      modifies this, bitmap
      ensures Valid() && bitmap == old(bitmap)
      ensures (State(), ack) == Received(old(State()), k, chunk)
    {
      hide TestBit, Written, LeastMissing;
      var known := BitmapHas(bitmap, k);
      if !known {
        part := Written(part, chunk);
        BitmapSet(bitmap, k);
        assert Bits(bitmap[..]) == if k < 64 * bitmap.Length then old(Bits(bitmap[..])) + {k}
            else old(Bits(bitmap[..]));
      }
      var n := BitmapMaxContinuous(bitmap, total);
      ack := None;
      if n - lastAck >= ACK_BATCH || n >= total {
        if n > lastAck {
          ack := Some(n - 1);
          lastAck := n;
        }
      }
    }
  }

  /**
   The sender's loop over an ordered stream: a batch, then one answer, from which it goes on.
   The answer is always there, and the loop ends with every chunk delivered.
   */
  method SendFile(src: seq<byte>, r: Receiver, ghost left: seq<byte>) returns (answers: seq<nat>)
    requires r.Valid() && r.total == ChunkCount(|src|)
             && (r.lastAck <= r.total ==> InStep(r.State(), src, left, r.lastAck))
    modifies r, r.bitmap
    ensures r.Valid() && answers == Lasts(old(r.lastAck), r.total)
    ensures if old(r.lastAck) <= r.total then InStep(r.State(), src, left, r.total) else r.State() == old(r.State())
  {
    hide InStep, Received, SentBatch, Lasts;
    var total := |src| / CHUNK;
    if |src| % CHUNK != 0 { total := total + 1; }
    var k := r.lastAck;
    answers := [];
    while k < total
      invariant r.Valid() && r.bitmap == old(r.bitmap) && r.lastAck == k && total == r.total == ChunkCount(|src|)
      invariant if old(r.lastAck) <= total then k <= total && InStep(r.State(), src, left, k)
                else k > total && r.State() == old(r.State())
      invariant answers + Lasts(k, total) == Lasts(old(r.lastAck), total)
    {
      var stream := SendBatch(src, r, k, left);
      LastsStep(k, total);
      answers := answers + [stream[0]];
      k := stream[0] + 1;
      StepTotal(r.State(), src, left, k);
    }
    LastsEnd(k, total);
  }

  lemma LastsStep(k: nat, total: nat)
    requires k < total
    ensures Lasts(k, total) == [BatchEnd(k, total) - 1] + Lasts(BatchEnd(k, total), total)
  {
  }

  lemma LastsEnd(k: nat, total: nat)
    requires k >= total
    ensures Lasts(k, total) == []
  {
  }

  method SendBatch(src: seq<byte>, r: Receiver, from: nat, ghost left: seq<byte>) returns (stream: seq<nat>)
    requires r.Valid() && r.lastAck == from < ChunkCount(|src|) && InStep(r.State(), src, left, from)
    modifies r, r.bitmap
    ensures r.Valid() && r.bitmap == old(r.bitmap)
    ensures r.total == ChunkCount(|src|) && r.lastAck == BatchEnd(from, r.total)
    ensures stream == [BatchEnd(from, r.total) - 1]
    ensures InStep(r.State(), src, left, BatchEnd(from, r.total))
  {
    hide InStep, Received, ChunkAt;
    StepTotal(r.State(), src, left, from);
    var k := from;
    var end := from + ACK_BATCH;
    if end > r.total { end := r.total; }
    stream := [];
    while k < end
      invariant r.Valid() && r.bitmap == old(r.bitmap) && from <= k <= end && r.total == ChunkCount(|src|)
      invariant InStep(r.State(), src, left, k)
      invariant if k < end then r.lastAck == from && stream == [] else r.lastAck == end && stream == [end - 1]
    {
      ReceiveNext(r.State(), src, left, k);
      var ack := r.OnData(k, ChunkAt(src, k));
      if ack.Some? { stream := stream + [ack.value]; }
      k := k + 1;
    }
  }
}
