# libp2px: transport and relay logic, verified

Dafny models and proofs of the logic at the heart of libp2px: the userspace TCP of package
`vtcp`, the flush trampoline under it, the relay pool's pruning, the relay file transfer and the
debounced logger. `dafny verify dfyconfig.toml` checks the whole project.

## What is modelled

**Sequence space and buffers.** A 32-bit sequence number is the low part of an unbounded stream
position (`SeqSpace`). The receive and send buffers exist twice: as functions on positions
(`RecvModel`, `SendModel`), where their meaning is stated, and as classes on 32-bit words updated
in place (`RecvBuf.dfy`, `SendBuf.dfy`), each method proved to do what the function does.

**The connection.** `ConnModel` is the state machine of `conn.go` as functions from a connection
and an event to the next connection and the segments it queues. `TcpConn.dfy` is the same as a
class: 32-bit fields, the two buffer objects, segments queued in wire form. Every handler is
proved equal to the function, for every wire segment but those named under "Left out"
(`EverySegment`). The congestion controller
is an interface in the source; what it answers, and the clock, come in as an `Env`, so everything
holds for any controller. Timers may fire at any moment.

**Two endpoints.** `Direction`, `Endpoint` and `Network` put two connections on a network that
remembers every segment ever sent and may deliver any of them any number of times in any order.
One invariant per direction of the stream, kept by every event, carries the theorems:
integrity and truthful SACK (`StreamTheorems`), flow control (`WindowTheorems`), closing
(`CloseTheorems`, `EndOfFile`), timers (`Recovery`) and what the ends settle when they open
(`Handshake`), with a run in which a close goes wrong (`CutStream`). `SegmentRules` and `AckRules`
say of each kind of segment, state and call what exactly it does. `Sending` and `Karn`
state what a flush sends and when an RTT sample is sound. A run starts with one side's Connect
and the other's AcceptSYN. `TwoObjects` then puts two objects of the class side by side: every
call on them is an event of the network, so what one application reads is a prefix of what the
other wrote, on 32-bit numbers and parsed packets.

**The wire.** `Options` and `Segment` are the codec, as loops over byte buffers and as functions,
with both round trips; `WireFormat` says which number stands in which bytes; `WireForm` shows that
all a connection ever queues survives it.

**Beside it.** `Congestion` (NewReno), `Timeout` (the retransmission timer), `Trampoline` and
`FlushRace` (the flush, re-entered and raced), `RelayPool`, `BitWord`, `Bitmap` and
`FileTransfer`, `DebounceLog`.

## Where the code falls short of its promise

Each is kept as the code has it, shown by a concrete run or for every run, and given its condition.

- The peer's FIN can be consumed twice: a FIN deferred to exactly the right edge of the window,
  then a segment one byte too long that also carries a FIN (`FinTwiceExample`, `FinTwiceExactly`;
  over a whole life, `LifeFinsExactly`). Two of these endpoints never do it to each other (`FinOnce`).
- A sample can be taken of a SYN that was sent twice: on simultaneous open the SYN-ACK repeats a
  timed SYN and timing goes on (`SimultaneousOpenSamplesTwice`, `KarnExactly`).
- A close can cut the stream (`CloseCutsStream`). In CLOSE-WAIT nothing is flushed before the FIN.
  In ESTABLISHED the flush is held back by either window, and by the small-segment rule even with
  both windows open: a tail shorter than MSS stays behind whenever anything is in flight.
  `LeftBehind` counts the bytes from the state before the call; none are left if and only if
  `AllGoesOut` (`CloseFinPlace`). In every run after Close, a peer that consumed its FIN is short of
  exactly those bytes (`CloseCompleteExactly`); nothing wrong is delivered.
- A FIN that cut off more than one byte can be misplaced: the peer, having consumed it, holds the
  byte at its own RCV.NXT out of order. It then acknowledges a number inside a block it reports,
  and the sender, resending, skips that number: what it sends, if anything, are later bytes under
  it (`CloseCutsStream`). In every run this is so exactly while the FIN is `Misplaced`
  (`ReportInsideExactly`, `ResendMisledExactly`, `SackNeverCoversUna`), and never if Close left at
  most one byte behind (`SackAfterClose`).
- A lost FIN is never recovered, and neither is data lost before it, by a timeout: FIN-WAIT-1 and
  LAST-ACK resend no data (`TimeoutRepeats`), and a repeated FIN takes the next number, which the
  peer defers for good. After a clean close the peer consumes a FIN only if the first one arrives
  (`LostFinStaysLost`); when that arrives in order it does (`FinDelivered`).
- Flushes from two goroutines can leave a packet in the queue: one finds the queue empty, the
  other then puts its packets back, and the flag is cleared (`StrandedPacket`,
  `AllWrittenExactly`). No interleaving loses or repeats one.
- In congestion avoidance a round adds more than one MSS once the window exceeds MSS segments,
  because the increment is at least one byte (`RoundDoubles`, `OneSegmentPerRound`).
- Resuming a file transfer trusts the part file: its bytes are not compared, and a chunk it ends
  inside counts as written. The file is completed if and only if the part file is a prefix that is
  whole chunks, all of the file, or followed by zeros (`TornLeftover`, `TransferExactly`).

`math.Ceil(n * 0.20)` in the pool's pruning is the integer ceiling of n/5 for every pool size: the
64-bit 0.20 exceeds one fifth by 2^-54 of itself, less than half a unit in the last place of any
product, so a multiple of five gives its exact fifth.

## Model

| member | source | states |
|---|---|---|
| `StreamTheorems.StreamIntegrity` | vtcp/conn.go:358-1597 | for every run of a connection that connects and one that accepts its SYN, over a network that loses, repeats and reorders: on each side, bytes read then bytes buffered are a prefix of what the other side wrote, and SND.UNA <= RCV.NXT <= SND.NXT |
| `StreamTheorems.SackNeverCoversUna` | vtcp/recvbuf.go:178-191 | in every run, at either end, unless the peer consumed a FIN and holds the byte at its RCV.NXT out of order: no SACK block ever sent, however late, contains SND.UNA, so retransmission never skips there and what it resends from SND.UNA is what was written there |
| `CloseTheorems.SackAfterClose` | vtcp/conn.go:1500-1562 | if Close leaves at most one byte behind its FIN, the same holds in every run after it, whatever the peer has consumed |
| `StreamTheorems.ReportInsideExactly` | vtcp/recvbuf.go:178-191 | in every run: what the peer acknowledges lies inside a block it reports if and only if it consumed a FIN and holds the byte at its RCV.NXT out of order, and that FIN then cut off more than one byte |
| `StreamTheorems.ResendMisledExactly` | vtcp/sendbuf.go:80-185 | in every run with SACK agreed on, once the sender takes the answer the peer gives next: resending skips SND.UNA if and only if the same condition holds, and what is resent, if anything, is what was written where the skip ends |
| `StreamTheorems.InsideExactly` | vtcp/recvbuf.go:178-191 | for a list in order at RCV.NXT or above: RCV.NXT is inside a reported block if and only if it is held, that is, if the first entry starts there |
| `CutStream.CloseCutsStream` | vtcp/conn.go:1500-1562 | a run of ten events: four bytes are written, Close sends one and puts its FIN at the number of the second, the peer consumes it after one byte and then acknowledges inside a block it reports; what is resent at that number is the byte of the next one |
| `WindowTheorems.FreshDataFits` | vtcp/conn.go:1122-1166 | in every run, at either end and for every event (a write, a close, a timer, an arriving segment whose acknowledgement frees room before its window is read): data sent for the first time ends at or before the peer's RCV.NXT plus its buffer size, whatever windows were scaled, rounded, suppressed or delayed; only the one-byte probe of a closed window is excepted |
| `WindowTheorems.NeverCutRight` | vtcp/recvbuf.go:64-75 | however the run goes on, whenever such a segment is delivered, Insert keeps its right edge, or RCV.NXT already stands at it or beyond |
| `WindowTheorems.ExecOnward` | vtcp/recvbuf.go:47-92 | over any run RCV.NXT never goes back and the buffer size never changes |
| `WindowTheorems.ACKFits` | vtcp/conn.go:1039-1096 | the flush inside the processing of an ACK, against the window known before that ACK, stays within the peer's buffer |
| `CloseTheorems.CleanClose` | vtcp/conn.go:1500-1562 | from every state in which Close queues a FIN: if everything goes out before it, then in every run after it, once the peer consumed a FIN in order, early or late, the peer has read or buffered exactly all bytes written |
| `CloseTheorems.CloseFinPlace` | vtcp/conn.go:1500-1562 | the FIN that Close queues stands exactly as many bytes before the end of what was written as a closed form of the state before the call says; that form is zero if and only if nothing is pending, or in ESTABLISHED the windows have room for all of it and it is whole segments, or one short segment with nothing in flight |
| `CloseTheorems.FlushLeaves` | vtcp/conn.go:1122-1166 | what a flush leaves pending, in closed form: after a short segment the rest beyond the window, otherwise all but the whole segments that fit |
| `CloseTheorems.CloseCompleteExactly` | vtcp/conn.go:1500-1562 | in every run after Close, once the peer consumed the FIN that Close queued: what it has read and buffered is what was written less exactly the bytes left behind, and so complete if and only if that condition held before Close |
| `CloseTheorems.FinDelivered` | vtcp/conn.go:896-945 | whatever happened since Close, the peer does consume that FIN when it is delivered, in time and in order, in a state that takes data |
| `StreamTheorems.FinOnce` | vtcp/conn.go:913-945 | between two of these endpoints the FIN is consumed at most once in every run |
| `WindowTheorems.FlushReach` | vtcp/conn.go:1122-1166 | no segment of a flush reaches past SND.UNA plus the smaller of the two windows |
| `TwoObjects.Pair.EndToEnd` | vtcp/conn.go:628-1597 | for two 32-bit connection objects and any calls on them: the bytes Read returned at one, and those it still buffers, are a prefix of the bytes Write took at the other |
| `TwoObjects.Pair.AtA` | vtcp/conn.go:628-1597 | every call on the connecting object, and every packet the other ever queued, is an event of the network model; the bytes taken and handed out are those of its histories |
| `TwoObjects.Pair.AtB` | vtcp/conn.go:628-1597 | the same at the accepting object |
| `TwoObjects.Pair.Accept` | vtcp/conn.go:415-463 | taking a SYN is the model's acceptance |
| `TwoObjects.Pair.constructor` | vtcp/conn.go:358-399 | two fresh objects of which the first connects are the start of the network model |
| `TwoObjects.Perform` | vtcp/conn.go:628-1597 | one call on an object takes its model through one event and queues that event's segments in wire form |
| `TwoObjects.OnlyAgeMatters` | vtcp/seqspace.go:5-27 | between two endpoints with less than half the sequence space in flight each way, every acknowledging segment is in the span the 32-bit handlers are proved for, unless its number, its acknowledgement, an edge it reports or a FIN deferred earlier is half the space old |
| `EndOfFile.ReadExactly` | vtcp/conn.go:1426-1454 | over every life: Read gives bytes exactly while some are buffered, the next ones in order; then EOF if and only if the peer's FIN was consumed or the connection is closed; otherwise it waits |
| `EndOfFile.CleanEof` | vtcp/conn.go:1426-1454 | in every run after a clean close: a reader that gets EOF on a connection not torn down has read exactly what was written |
| `EndOfFile.EofExactly` | vtcp/conn.go:1426-1454 | in every run after any close: a reader that gets EOF by the FIN of that close is short of exactly the bytes left behind, so has all if and only if everything went out before the FIN |
| `Recovery.TimeoutResends` | vtcp/conn.go:1321-1322 | in ESTABLISHED and CLOSE-WAIT a timeout queues a segment if and only if some byte in flight is covered by no kept block: one segment, at SND.UNA, with the bytes from the first such one, as many as a segment holds |
| `Recovery.TimeoutResendsWritten` | vtcp/conn.go:1098-1116 | in every run those are the bytes written from that position on |
| `Recovery.TimeoutRepeats` | vtcp/conn.go:1292-1327 | the other states repeat exactly the SYN, the SYN-ACK, or a FIN at SND.NXT, or nothing; none of them resends data |
| `Recovery.GivesUpExactly` | vtcp/conn.go:1270-1290 | over every life: an open connection has had at most eight timeouts since SND.UNA last moved or the handshake went on, and the next closes it if and only if it has had eight; TIME-WAIT always has its timer |
| `Recovery.PersistExactly` | vtcp/conn.go:1221-1264 | with the window closed and data waiting exactly the next byte is sent, with the window open the queue is flushed, otherwise nothing happens |
| `Recovery.LostFinStaysLost` | vtcp/conn.go:1324-1327 | after a clean close, in every run in which the FIN that Close queued does not arrive, the peer never consumes one, however often timeouts repeat it |
| `Handshake.BothAgree` | vtcp/conn.go:505-529 | in every run, once the connecting side has seen the SYN-ACK: both ends use the smaller segment size, shift windows as the other asked, and have SACK and timestamps on if and only if both enable them |
| `SegmentRules.ResetExactly` | vtcp/conn.go:598-624 | a reset closes a synchronized connection if and only if it stands at RCV.NXT; above that, within the free space, it changes nothing and draws one pure ACK; anywhere else it is ignored |
| `SegmentRules.ResetOpening` | vtcp/conn.go:766-795 | in SYN-SENT a reset closes if and only if it acknowledges our SYN |
| `SegmentRules.ConnectionRefused` | vtcp/conn.go:654-680 | a closed connection answers a SYN with what closes the side that connects |
| `SegmentRules.StrayIsReset` | vtcp/conn.go:654-680 | and anything that acknowledges with what closes its sender, if that has received nothing since |
| `SegmentRules.AbortReaches` | vtcp/conn.go:1565-1597 | the reset of an abort closes a peer that has received everything sent |
| `SegmentRules.WindowExactly` | vtcp/recvbuf.go:27-44 | the free space is the buffer's size less the bytes to be read and the number of positions held out of order, or zero |
| `SegmentRules.AcceptableExactly` | vtcp/conn.go:564-594 | a segment is acceptable if and only if some number of it lies in the window and it does not reach past it on both sides |
| `SegmentRules.UnacceptableAnswered` | vtcp/conn.go:682-698 | what is not acceptable changes nothing and draws one pure ACK |
| `SegmentRules.OutOfPlace` | vtcp/conn.go:725-737 | a SYN on a synchronized connection is challenged, a segment without ACK is dropped |
| `SegmentRules.StateExactly` | vtcp/conn.go:739-764 | for every synchronized state and every segment that is no reset: the state it leads to, exactly |
| `SegmentRules.FinTakenExactly` | vtcp/conn.go:913-938 | a FIN is consumed if and only if RCV.NXT, having taken the segment's bytes, stands at it: the segment's own, or one deferred earlier |
| `SegmentRules.OpeningExactly` | vtcp/conn.go:766-862 | what each kind of segment does in SYN-SENT: reset a bad ACK, drop, establish and acknowledge, or repeat the SYN as a SYN-ACK |
| `SegmentRules.OpensExactly` | vtcp/conn.go:358-503 | the segment and the numbers each way of opening starts with |
| `SegmentRules.BadHandshakeAck` | vtcp/conn.go:864-890 | in SYN-RECEIVED an ACK of anything but our SYN is reset and changes nothing |
| `SegmentRules.CloseStates` | vtcp/conn.go:1500-1548 | where Close and the TIME-WAIT timer lead, from every state |
| `SegmentRules.KeepaliveExactly` | vtcp/conn.go:1372-1422 | keepalive closes exactly an idle connection whose probes are used up, and probes exactly an idle one otherwise |
| `SegmentRules.ProbeDrawsAck` | vtcp/conn.go:1397-1410 | a keepalive probe draws a pure ACK from a peer that has everything |
| `SegmentRules.LateAnswers` | vtcp/conn.go:991-1016 | CLOSING and TIME-WAIT answer every segment in place with one ACK, LAST-ACK none; none takes data |
| `AckRules.AnnouncedExactly` | vtcp/conn.go:294-327 | the window field is the free space in units of the shift, rounded down and at most 65535, or zero if less than a segment and than half the buffer is free |
| `AckRules.WindowTaken` | vtcp/conn.go:906-910 | the peer's window after a segment is its field times two to the shift it asked for |
| `AckRules.DataAnswered` | vtcp/conn.go:896-945 | an old timestamp changes nothing and draws an ACK; otherwise the ACK is processed, the bytes inserted, and data or a FIN answered last by an ACK up to RCV.NXT with the SACK report and the echoed timestamp |
| `AckRules.CloseWaitAnswers` | vtcp/conn.go:981-989 | CLOSE-WAIT processes the ACK and takes the window, nothing else |
| `AckRules.ReportComplete` | vtcp/recvbuf.go:178-191 | a position held is inside a reported block, or there are three blocks and all lie below it |
| `AckRules.ACKExactly` | vtcp/conn.go:1039-1096 | an ACK of something in flight moves SND.UNA to it, forgets the retries, samples if past the timed number, and leaves nothing more that may be sent; one beyond SND.NXT is challenged; any other moves nothing and resends exactly when the controller says so |
| `AckRules.FlushTiming` | vtcp/conn.go:1122-1166 | a flush that sends times its first segment, unless something is timed already |
| `AckRules.StaleExactly` | vtcp/conn.go:543-560 | old means: timestamps in use, one kept, and this one half the number space or more behind it |
| `AckRules.StampKept` | vtcp/conn.go:543-560 | the timestamp of every segment that passes is kept |
| `AckRules.WritesExactly` | vtcp/conn.go:1456-1498 | writes are taken exactly in ESTABLISHED and CLOSE-WAIT until Close, and then all of it or until the buffer is full |
| `AckRules.FlushSegmentSize` | vtcp/conn.go:1122-1166 | no segment of a flush is empty or longer than the segment size |
| `Network.ExecInv` | vtcp/conn.go:358-1597 | the two-endpoint invariant (both directions, every segment ever sent, both histories) holds after every sequence of events |
| `Network.NextInv` | vtcp/conn.go:358-1597 | each single event of either endpoint, or the acceptance of a SYN, keeps that invariant |
| `Endpoint.EventKept` | vtcp/conn.go:628-1597 | one event of one endpoint keeps what it owes the peer: data sent is what was written, acknowledgements and SACK blocks are true, windows are honest |
| `Endpoint.HandleDataAfter` | vtcp/conn.go:896-945 | the data handler keeps both directions of the stream, acknowledging only what it holds |
| `Direction.ResendExact` | vtcp/conn.go:1098-1116 | what a retransmission carries from SND.UNA is what was written there, unless the peer consumed a FIN and holds the byte at its RCV.NXT out of order |
| `Direction.WindowHonest` | vtcp/conn.go:294-327 | an advertised window, scaled back, never promises more than the receive buffer |
| `Direction.RecvInsert` | vtcp/recvbuf.go:47-92 | inserting any segment the peer ever sent keeps the receive side a copy of what was written, with every earlier acknowledgement and SACK block still true |
| `ConnStates.LifeSafe` | vtcp/conn.go:628-1597 | over the whole life of a connection, any events in any order: every event moves along the diagram of section 3.3.2 of RFC 9293 or aborts to CLOSED, nothing is received after the peer's FIN was consumed, TIME-WAIT is entered only with the peer's FIN consumed and ours acknowledged |
| `ConnStates.StepSafe` | vtcp/conn.go:628-1597 | the same for one event, from any coherent state |
| `ConnStates.RunCoherent` | vtcp/conn.go:628-1597 | the state name tells the truth about both FINs after any run |
| `ConnStates.OpenCoherent` | vtcp/conn.go:358-503 | each way of opening a fresh connection gives a coherent one |
| `ConnStates.FinTwiceExactly` | vtcp/conn.go:913-938 | one segment makes RCV.NXT step over two FINs if and only if a FIN was deferred to exactly the right edge of the window and the segment reaches one byte past it and carries a FIN; it never steps over more |
| `ConnStates.LifeFinsExactly` | vtcp/conn.go:896-945 | over the whole life of a connection at most two FINs are consumed, and two if and only if some segment of it met that condition when it arrived |
| `ConnStates.FinTwiceExample` | vtcp/conn.go:1018-1037 | a run in which the peer's FIN is consumed twice |
| `Sending.FlushSends` | vtcp/conn.go:1122-1166 | the payloads of a flush are consecutive and concatenate to a prefix of the unsent bytes, bytes in flight do not rise above the smaller window, a segment below MSS is sent only with nothing in flight, and nothing more could be sent when it stops |
| `Karn.KarnExactly` | vtcp/rto.go:60-88 | over any life of a connection an RTT sample is of the timed position only, and all from there on was sent exactly once if and only if no simultaneous open repeated the SYN being timed |
| `Karn.NoTaint` | vtcp/conn.go:1098-1116 | without a bare SYN delivered the condition never fails, so Karn's rule holds |
| `Karn.SimultaneousOpenSamplesTwice` | vtcp/conn.go:835-862 | a run in which simultaneous open makes a sample of a SYN that was sent twice |
| `SeqSpace.SerialOrder` | vtcp/seqspace.go:8-27 | all comparisons of wrapped numbers agree with the order of positions less than 2^31 apart |
| `SeqSpace.SerialOrderExact` | vtcp/seqspace.go:8-17 | within one lap they agree if and only if the distance is below 2^31 |
| `SeqSpace.HalfwayIsBothWays` | vtcp/seqspace.go:8-17 | at distance 2^31 each number is before the other |
| `SeqSpace.LiftWrap` | vtcp/seqspace.go:8-27 | the position nearest to a base is recovered from its 32-bit form |
| `RecvModel.InsertRefines` | vtcp/recvbuf.go:47-92 | Insert is override of the held-bytes map by the segment clipped to the window, the newest byte winning; a full out-of-order list refuses a segment above RCV.NXT whole |
| `RecvModel.InsertValid` | vtcp/recvbuf.go:47-158 | after any Insert the out-of-order list is sorted, disjoint, strictly above RCV.NXT and at most 128 long, and RCV.NXT does not move back |
| `RecvModel.NxtIsLeastMissing` | vtcp/recvbuf.go:47-158 | RCV.NXT is the least position not held |
| `RecvModel.HeldForever` | vtcp/recvbuf.go:47-92 | a position held or passed stays held or passed through any Insert |
| `RecvModel.SACKBlocksHeld` | vtcp/recvbuf.go:178-191 | every position of a reported block is held, above RCV.NXT |
| `RecvModel.InsertOOOAt` | vtcp/recvbuf.go:95-133 | inserting a run into the list overrides the bytes it covers and no others |
| `RecvModel.InsertOOOSorted` | vtcp/recvbuf.go:95-133 | and keeps the list sorted and disjoint |
| `RecvModel.MergeHeld` | vtcp/recvbuf.go:136-158 | merging moves bytes into the contiguous data without changing what is held anywhere |
| `RecvModel.ScanMerge` | vtcp/recvbuf.go:136-158 | the filtering pass over a sorted list gives the merged buffer |
| `RecvModel.PlaceInserts` | vtcp/recvbuf.go:95-133 | the rebuilding loop gives the inserted list |
| `RecvBuffer.RecvBuf.Insert` | vtcp/recvbuf.go:47-92 | the 32-bit Insert takes the unwrapped buffer to RecvModel.Insert and returns the count of in-order bytes, for any segment within 2^31 of RCV.NXT |
| `RecvBuffer.RecvBuf.ClipSegment` | vtcp/recvbuf.go:47-75 | the trimming of a segment to the window, on 32-bit numbers |
| `RecvBuffer.RecvBuf.InsertOOO` | vtcp/recvbuf.go:95-133 | the rebuild loop on 32-bit entries equals RecvModel.InsertOOO |
| `RecvBuffer.RecvBuf.MergeOOO` | vtcp/recvbuf.go:136-158 | the merge loop ends and equals RecvModel.Merge |
| `RecvBuffer.RecvBuf.Pass` | vtcp/recvbuf.go:138-156 | one filtering pass |
| `RecvBuffer.RecvBuf.FuseOverlap` | vtcp/recvbuf.go:113-127 | two overlapping runs become their union, newer bytes winning |
| `RecvBuffer.RecvBuf.Read` | vtcp/recvbuf.go:161-165 | hands over a prefix of the contiguous data and keeps the rest |
| `RecvBuffer.RecvBuf.Window` | vtcp/recvbuf.go:27-41 | free space counting out-of-order bytes as used |
| `RecvBuffer.RecvBuf.SACKBlocks` | vtcp/recvbuf.go:178-191 | the first three out-of-order runs as blocks, edges wrapped |
| `RecvBuffer.RecvBuf.constructor` | vtcp/recvbuf.go:22-24 | an empty buffer at the given number |
| `RecvBuffer.RecvBuf.ConsumeFin` | vtcp/conn.go:924-926 | RCV.NXT steps over one FIN |
| `SendModel.SkipIsFirst` | vtcp/sendbuf.go:142-184 | for blocks shorter than 2^31 the skip loop stops at the first position at or after SND.UNA that no block covers |
| `SendModel.SkipStops` | vtcp/sendbuf.go:159-170 | where it stops no block covers the cursor |
| `SendModel.ResumeAtUna` | vtcp/sendbuf.go:144-184 | retransmission starts at SND.UNA if and only if no block covers SND.UNA |
| `SendModel.MarkValid` | vtcp/sendbuf.go:104-117 | whatever a peer reports, every block kept ends less than 2^31 after SND.UNA |
| `SendModel.AcknowledgeValid` | vtcp/sendbuf.go:80-99 | and still does after any acknowledgement |
| `SendBuffer.CoversWire` | vtcp/sendbuf.go:133-140 | the two 32-bit tests of a block are membership of the position, for any block a peer can cause |
| `SendBuffer.SendBuf.SkipSACKed` | vtcp/sendbuf.go:159-170 | the skip loop ends for every scoreboard and stops where the model does |
| `SendBuffer.SendBuf.Sweep` | vtcp/sendbuf.go:163-169 | one pass of it |
| `SendBuffer.SendBuf.RetransmitData` | vtcp/sendbuf.go:144-184 | the bytes to resend equal the model's, with or without a scoreboard |
| `SendBuffer.SendBuf.Acknowledge` | vtcp/sendbuf.go:80-99 | drops exactly the acknowledged bytes, caps at SND.NXT, prunes the scoreboard |
| `SendBuffer.SendBuf.PruneSACK` | vtcp/sendbuf.go:120-129 | keeps exactly the blocks ending above the new SND.UNA |
| `SendBuffer.SendBuf.MarkSACKed` | vtcp/sendbuf.go:104-117 | replaces the scoreboard by the blocks in the unacknowledged range |
| `SendBuffer.SendBuf.KeepBlocks` | vtcp/sendbuf.go:110-116 | the filter of it |
| `SendBuffer.SendBuf.IsSACKed` | vtcp/sendbuf.go:133-140 | membership in the scoreboard |
| `SendBuffer.SendBuf.Write` | vtcp/sendbuf.go:39-50 | appends as much as the capacity leaves room for |
| `SendBuffer.SendBuf.PeekUnsent` | vtcp/sendbuf.go:64-71 | the first unsent bytes |
| `SendBuffer.SendBuf.AdvanceSent` | vtcp/sendbuf.go:74-76 | SND.NXT moves on |
| `SendBuffer.SendBuf.Unacked` | vtcp/sendbuf.go:59-61 | the 32-bit difference is the distance in flight |
| `SendBuffer.SendBuf.Pending` | vtcp/sendbuf.go:53-56 | bytes not yet sent |
| `SendBuffer.SendBuf.constructor` | vtcp/sendbuf.go:29-35 | an empty buffer at the given number |
| `TcpConnection.EverySegment` | vtcp/conn.go:628-650 | every wire segment, whatever its numbers, has positions for which the handlers are proved, but for the stray SYN-ACK that SYN-RECEIVED takes outside its window |
| `TcpConnection.ArrivesSame` | vtcp/conn.go:248-250 | what one connection queues, marshalled and parsed, is what another's handler reads as the same segment |
| `TcpConnection.TcpConn.constructor` | vtcp/conn.go:172-237 | a closed connection with empty buffers |
| `TcpConnection.TcpConn.WindowShift` | vtcp/conn.go:175-186 | the least shift up to 14 that brings the buffer size within sixteen bits, or 14 |
| `TcpConnection.TcpConn.RcvWindow` | vtcp/conn.go:294-327 | the advertised window: free space, zero when silly, scaled, capped |
| `TcpConnection.TcpConn.AddOptions` | vtcp/conn.go:531-538 | timestamp and SACK options of a segment |
| `TcpConnection.TcpConn.SynOptions` | vtcp/conn.go:336-347 | the options of a SYN |
| `TcpConnection.TcpConn.QueueACK` | vtcp/conn.go:1175-1186 | queues the pure acknowledgement |
| `TcpConnection.TcpConn.FlushSendQueue` | vtcp/conn.go:1122-1166 | the flush loop ends; takes the connection to the model's state and queues the model's segments in wire form |
| `TcpConnection.TcpConn.Allowance` | vtcp/conn.go:1123-1141 | how much the next segment may carry |
| `TcpConnection.TcpConn.SendNext` | vtcp/conn.go:1143-1161 | one data segment, timed if nothing is |
| `TcpConnection.TcpConn.Retransmit` | vtcp/conn.go:1098-1116 | resends from SND.UNA and stops timing; takes the connection to the model's state and queues the model's segments in wire form |
| `TcpConnection.TcpConn.QueueFIN` | vtcp/conn.go:1550-1562 | takes the connection to the model's state and queues the model's segments in wire form |
| `TcpConnection.TcpConn.MarkReported` | vtcp/conn.go:1065-1070 | the SACK report of a segment |
| `TcpConnection.TcpConn.AckReceived` | vtcp/rto.go:72-82 | the RTT sample is taken exactly when the ACK is past what is timed |
| `TcpConnection.TcpConn.AckInFlight` | vtcp/conn.go:1061-1078 | an ACK of something in flight: buffer, retries, scoreboard, sample |
| `TcpConnection.TcpConn.ProcessACK` | vtcp/conn.go:1039-1096 | duplicate, too new, or of something in flight; takes the connection to the model's state and queues the model's segments in wire form |
| `TcpConnection.TcpConn.FinTransition` | vtcp/conn.go:949-971 | the transition an in-order FIN causes |
| `TcpConnection.TcpConn.ConsumeFin` | vtcp/conn.go:924-928 | RCV.NXT steps over the FIN and the state moves |
| `TcpConnection.TcpConn.ProcessData` | vtcp/conn.go:1018-1037 | payload inserted, and a deferred FIN consumed exactly when the gap before it closed |
| `TcpConnection.TcpConn.ProcessFin` | vtcp/conn.go:921-935 | an in-order FIN is consumed, any other deferred |
| `TcpConnection.TcpConn.Finish` | vtcp/conn.go:919-938 | the FIN flag, or the step to FIN-WAIT-2 |
| `TcpConnection.TcpConn.UpdateTimestamp` | vtcp/conn.go:543-558 | false exactly for an old duplicate; otherwise the stamp is kept |
| `TcpConnection.TcpConn.TakeWindow` | vtcp/conn.go:907-911 | the peer's window, scaled; no negotiated shift overflows a word |
| `TcpConnection.TcpConn.HandleDataState` | vtcp/conn.go:896-945 | takes the connection to the model's state and queues the model's segments in wire form |
| `TcpConnection.TcpConn.SegmentAcceptable` | vtcp/conn.go:564-594 | the acceptance test of table 5 of RFC 9293 on positions, for any sequence number |
| `TcpConnection.TcpConn.HandleRst` | vtcp/conn.go:598-622 | closes exactly at RCV.NXT, challenges elsewhere in the window, ignores the rest; takes the connection to the model's state and queues the model's segments in wire form |
| `TcpConnection.TcpConn.HandleSynReceived` | vtcp/conn.go:864-890 | takes the connection to the model's state and queues the model's segments in wire form |
| `TcpConnection.TcpConn.HandleLate` | vtcp/conn.go:981-1014 | CLOSE-WAIT, CLOSING, LAST-ACK and TIME-WAIT; takes the connection to the model's state and queues the model's segments in wire form |
| `TcpConnection.TcpConn.HandleSynchronized` | vtcp/conn.go:682-760 | the checks in their order, then the state's handler; takes the connection to the model's state and queues the model's segments in wire form |
| `TcpConnection.TcpConn.Negotiate` | vtcp/conn.go:505-527 | what both sides offered is in force, the peer's shift capped at 14 |
| `TcpConnection.TcpConn.Synchronize` | vtcp/conn.go:811-823 | a receive buffer after the peer's SYN, holding the data that rode on it |
| `TcpConnection.TcpConn.CompleteOpen` | vtcp/conn.go:805-833 | a SYN-ACK establishes, samples, acknowledges, flushes |
| `TcpConnection.TcpConn.HandleSynSent` | vtcp/conn.go:766-862 | takes the connection to the model's state and queues the model's segments in wire form |
| `TcpConnection.TcpConn.HandleClosed` | vtcp/conn.go:654-679 | takes the connection to the model's state and queues the model's segments in wire form |
| `TcpConnection.TcpConn.HandleSegment` | vtcp/conn.go:628-650 | every segment in every state; takes the connection to the model's state and queues the model's segments in wire form |
| `TcpConnection.TcpConn.Connect` | vtcp/conn.go:358-385 | active open up to the wait; takes the connection to the model's state and queues the model's segments in wire form |
| `TcpConnection.TcpConn.AcceptSYN` | vtcp/conn.go:415-453 | takes the connection to the model's state and queues the model's segments in wire form |
| `TcpConnection.TcpConn.AcceptCookie` | vtcp/conn.go:465-503 | takes the connection to the model's state and queues the model's segments in wire form |
| `TcpConnection.TcpConn.WriteSome` | vtcp/conn.go:1456-1490 | one turn of Write takes as many bytes as fit, in a state that takes writes |
| `TcpConnection.TcpConn.ReadSome` | vtcp/conn.go:1452-1454 | hands over the next bytes of the stream and keeps the rest |
| `TcpConnection.TcpConn.Read` | vtcp/conn.go:1426-1454 | one look of Read: bytes, EOF or a wait, as the model says |
| `TcpConnection.TcpConn.Close` | vtcp/conn.go:1500-1548 | takes the connection to the model's state and queues the model's segments in wire form |
| `TcpConnection.TcpConn.Abort` | vtcp/conn.go:1565-1597 | takes the connection to the model's state and queues the model's segments in wire form |
| `TcpConnection.TcpConn.OnRTOTimeout` | vtcp/conn.go:1270-1333 | gives up after eight retries, otherwise resends what the state asks for; takes the connection to the model's state and queues the model's segments in wire form |
| `TcpConnection.TcpConn.OnPersistTimeout` | vtcp/conn.go:1221-1266 | takes the connection to the model's state and queues the model's segments in wire form |
| `TcpConnection.TcpConn.OnTimeWaitExpired` | vtcp/conn.go:1347-1355 | closes |
| `TcpConnection.TcpConn.OnKeepalive` | vtcp/conn.go:1372-1422 | takes the connection to the model's state and queues the model's segments in wire form |
| `TcpOptions.BuildParse` | vtcp/options.go:29-75 | parsing what was built gives the options back if and only if each is well formed |
| `TcpOptions.ParseBuildParse` | vtcp/options.go:29-75 | for any bytes, parse, build and parse again is parse |
| `TcpOptions.BlocksBack` | vtcp/options.go:95-157 | SACK blocks survive their encoding |
| `TcpOptions.TimestampBack` | vtcp/options.go:105-141 | timestamps survive theirs |
| `TcpOptions.ParseOptions` | vtcp/options.go:29-57 | the parse loop equals the parser on sequences |
| `TcpOptions.BuildOptions` | vtcp/options.go:60-75 | the build loop equals the encoder, padded to whole words |
| `TcpSegment.MarshalParse` | vtcp/segment.go:23-87 | a segment of well-formed options comes back whole, checksum zero, if and only if its header is at most sixty bytes |
| `TcpSegment.Marshal` | vtcp/segment.go:53-62 | the bytes written in place are the encoding of the segment |
| `TcpSegment.MarshalHeader` | vtcp/segment.go:65-87 | the header bytes, field by field |
| `TcpSegment.ParseSegment` | vtcp/segment.go:23-48 | short input, bad offset or the decoded segment |
| `WireFormat.MarshalLayout` | vtcp/segment.go:65-87 | where every field stands in a marshalled segment, as the number its bytes stand for, most significant first |
| `WireFormat.ParseLayout` | vtcp/segment.go:23-48 | parsing fails exactly on fewer than twenty bytes or an offset outside the packet; otherwise each field is the number that stands at its place |
| `WireFormat.OptionLayout` | vtcp/options.go:78-110 | kind, length and value bytes of the MSS, window scale, SACK-permitted and timestamp options |
| `WireFormat.SackLayout` | vtcp/options.go:95-103 | kind and bytes of a SACK option, eight for each block, left edge first |
| `WireFormat.BuildLayout` | vtcp/options.go:60-75 | options stand one after another, and zeros fill the last word |
| `WireFormat.EncodeLayout` | vtcp/options.go:60-75 | kind, length and data of one option; a NOP stands alone |
| `WireFormat.ParseOptionLayout` | vtcp/options.go:29-57 | a zero ends the options, a one stands alone, anything else is kind, length and data or ends them |
| `WireFormat.MSSFound` | vtcp/options.go:113-120 | the MSS is the number in the first two-byte option of kind 2 |
| `WireFormat.ScaleFound` | vtcp/options.go:123-130 | the shift is the byte in the first one-byte option of kind 3 |
| `WireFormat.TimestampFound` | vtcp/options.go:134-141 | value and echo are the two numbers in the first eight-byte option of kind 8 |
| `WireFormat.SackFound` | vtcp/options.go:144-157 | the blocks are the pairs of numbers in the first option of kind 5 with at least eight bytes |
| `WireFormat.NoneFound` | vtcp/options.go:113-167 | without such an option each getter gives nothing; SACK is permitted exactly by an option of kind 4 |
| `WireForm.QueuedSurvives` | vtcp/conn.go:248-250 | from any state and for any event, every segment queued has a header of at most sixty bytes and comes back from the wire as sent |
| `WireForm.OptionsBack` | vtcp/options.go:78-167 | at most forty bytes of options, and every getter gives back what was put in |
| `WireForm.FlagsBack` | vtcp/segment.go:108-110 | each flag of the flag byte |
| `Congestion.Run` | vtcp/congestion.go:41-111 | over any sequence of events cwnd >= MSS > 0 and ssthresh >= 2 MSS, so no division by zero |
| `Congestion.NewSound` | vtcp/congestion.go:41-51 | also at the start |
| `Congestion.FastRetransmitsSeparated` | vtcp/congestion.go:76-102 | between two fast retransmits lies the end of a recovery or a timeout |
| `Congestion.OneSegmentPerRound` | vtcp/congestion.go:64-71 | floor(cwnd/MSS) ACKs in congestion avoidance add at most one MSS if and only if floor(cwnd/MSS) <= MSS; beyond, the one-byte minimum adds more |
| `Congestion.RoundDoubles` | vtcp/congestion.go:54-111 | a run with an MSS of one byte: after a timeout and slow start back to the threshold of five, one round of five ACKs doubles the window |
| `Congestion.GrowIsRun` | vtcp/congestion.go:54-72 | that growth is what the events do |
| `Congestion.AvoidanceStep` | vtcp/congestion.go:64-71 | one ACK at or above the threshold adds MSS^2 / cwnd rounded down, but at least one byte |
| `Congestion.InitialWindow` | vtcp/congestion.go:41-51 | ten segments, two of large ones, 14600 bytes in between; no threshold yet |
| `Congestion.SlowStart` | vtcp/congestion.go:54-64 | below the threshold k ACKs of whole segments add exactly k segments |
| `Congestion.DuplicatesRun` | vtcp/congestion.go:76-94 | k duplicates in a row: nothing on the first two; from the third on, the threshold is half of what is in flight, at least two segments, and the window k segments above it |
| `Congestion.ThirdFires` | vtcp/congestion.go:76-86 | fast retransmit happens on the third duplicate in a row and on no other |
| `Congestion.RecoveryHalves` | vtcp/congestion.go:76-102 | a recovery ends with the window at half of what was in flight when it began |
| `Congestion.TimeoutHalves` | vtcp/congestion.go:105-111 | a timeout leaves one segment and half the window as the threshold |
| `Congestion.NewRenoController.constructor` | vtcp/congestion.go:41-51 | min(10 MSS, max(2 MSS, 14600)) |
| `Congestion.NewRenoController.Ack` | vtcp/congestion.go:54-72 | on 32-bit words, equal to the unbounded step whenever that fits |
| `Congestion.NewRenoController.DupAck` | vtcp/congestion.go:76-86 | true exactly on the third duplicate outside recovery; inflates in recovery |
| `Congestion.NewRenoController.FastRetransmit` | vtcp/congestion.go:89-94 | halves and inflates |
| `Congestion.NewRenoController.LeaveRecovery` | vtcp/congestion.go:97-102 | deflates |
| `Congestion.NewRenoController.Expire` | vtcp/congestion.go:105-111 | back to one segment |
| `RetransmissionTimer.HistoryBounds` | vtcp/rto.go:24-48 | over any history, despite truncation: SRTT between the smallest and the largest sample, RTTVAR at most the largest, the timeout in [200 ms, 60 s] |
| `RetransmissionTimer.BackoffExact` | vtcp/rto.go:45-48 | k backoffs give exactly min(60 s, RTO * 2^k) and change nothing else |
| `RetransmissionTimer.FirstSample` | vtcp/rto.go:24-30 | the first sample is the average, half of it the variation |
| `RetransmissionTimer.SampleMoves` | vtcp/rto.go:30-39 | after every history with a sample, one more moves SRTT an eighth of the way to it, and RTTVAR a quarter of the way to its distance from the average before it, in whole nanoseconds |
| `RetransmissionTimer.TimeoutAfterSample` | vtcp/rto.go:40-41 | one second at first; after every history that ends in a sample SRTT plus four RTTVAR, between 200 milliseconds and a minute |
| `RetransmissionTimer.OutlierCovered` | vtcp/rto.go:30-41 | after any sample the timeout covers SRTT plus that sample's distance from the average before, up to three nanoseconds of rounding and a minute |
| `RetransmissionTimer.RoundingCosts` | vtcp/rto.go:30-41 | a history in which the three nanoseconds are missing |
| `RetransmissionTimer.SteadyPath` | vtcp/rto.go:30-41 | equal samples make SRTT that sample, and RTTVAR shrinks by a quarter each time |
| `RetransmissionTimer.RTOCalculator.TakeSample` | vtcp/rto.go:24-42 | variation from the old average, then the average, then the clamped sum |
| `RetransmissionTimer.RTOCalculator.DoubleRTO` | vtcp/rto.go:45-48 | one backoff |
| `RetransmissionTimer.RTOCalculator.StartTiming` | vtcp/rto.go:61-68 | starts only when nothing is timed |
| `RetransmissionTimer.RTOCalculator.AckReceived` | vtcp/rto.go:72-82 | samples and stops exactly when the ACK is past what is timed |
| `Trampoline.Flusher.FlushPackets` | vtcp/conn.go:265-290 | re-entrant: all packets go back to the queue, none is written; outermost: what was given, queued or made by the writer's own calls, to any depth, is handed to the writer exactly once and the queue ends empty |
| `Trampoline.Flusher.WriteAll` | vtcp/conn.go:279-288 | the loop ends and hands over everything, in an order given exactly for any writer |
| `Trampoline.Flusher.React` | vtcp/conn.go:269-278 | a writer that calls back, however deep, writes nothing itself and loses nothing |
| `Trampoline.LoadStep` | vtcp/conn.go:279-288 | one write takes exactly its packet off what remains |
| `Trampoline.NoCallBacks` | vtcp/conn.go:279-288 | a writer that does not call back gets what was given, then what was queued, in order |
| `Trampoline.FirstInFirstOut` | vtcp/conn.go:265-290 | with a writer that only queues, packets are handed over in the order they came into being |
| `FlushRace.NothingLostOrTwice` | vtcp/conn.go:265-290 | under every interleaving of goroutines each packet made is in exactly one place: written, queued or held |
| `FlushRace.RunTracked` | vtcp/conn.go:265-290 | one goroutine at most is inside, exactly while the flag is up, and a waiting packet has a writer unless its put-back was late |
| `FlushRace.AllWrittenExactly` | vtcp/conn.go:265-290 | when all flushes have returned, every packet has been written exactly as often as it was made if and only if no put-back came after the last writer had looked |
| `FlushRace.OneAtATime` | vtcp/conn.go:265-290 | flushes of any number of goroutines that do not overlap leave nothing behind: no put-back is late, and once all have returned every packet made was written exactly once |
| `FlushRace.InOrderApart` | vtcp/conn.go:265-290 | flushes that do not overlap hand all packets over in the order they were made |
| `FlushRace.StrandedPacket` | vtcp/conn.go:269-289 | an interleaving of two goroutines that leaves a packet in the queue |
| `RelayPool.RelayPool.Prune` | p2put/relaypool.go:510-648 | up to the high mark nothing; above it: never below the low mark, above it only without probation relays, probation oldest first, main relays only when unprotected and inactive, at most max(0, n - ceil(n/5) - 10) of n candidates, behind a fifth of better score and ten of longer uptime, lowest scores first |
| `RelayPool.ShrunkExactly` | p2put/relaypool.go:514-648 | the quotas end at the low mark exactly or with probation empty |
| `RelayPool.QuotasFit` | p2put/relaypool.go:518-540 | the two quotas add up to the need and neither exceeds its tier |
| `RelayPool.SparedThroughout` | p2put/relaypool.go:561-648 | the bound and eligibility of main evictions over the whole prune |
| `RelayPool.ShareThroughout` | p2put/relaypool.go:518-540 | how many main relays a prune evicts: half of what is needed, rounded up, or what probation cannot give, but no more than there are and than are spare |
| `RelayPool.OldestThroughout` | p2put/relaypool.go:544-648 | first in, first out for probation over both rounds |
| `RelayPool.RelayPool.EvictProbation` | p2put/relaypool.go:544-559 | evicts the oldest probation relays, as many as asked or all |
| `RelayPool.RelayPool.EvictMain` | p2put/relaypool.go:561-624 | the main tier behind its three rounds |
| `RelayPool.Rounds` | p2put/relaypool.go:584-610 | candidates divide into the top fifth, ten veterans and the spare rest |
| `RelayPool.RelayPool.Unprotected` | p2put/relaypool.go:567-582 | the first round keeps exactly the eligible main relays |
| `FileTransfer.TransferExactly` | p2put/relayfile.go:533-594 | for every file, fresh or resumed on any part file: one answer per batch, carrying its last chunk; and the part file equals the source at FIN if and only if what was left over is a prefix of it and is whole chunks, all of it, or followed by a gap of zeros |
| `FileTransfer.TornLeftover` | p2put/relayfile.go:235-249 | a leftover of one byte of two, taken for a whole chunk, never completes |
| `FileTransfer.BatchAnswered` | p2put/relayfile.go:331-358 | a batch is answered exactly once, with its last chunk |
| `FileTransfer.ReceiveNext` | p2put/relayfile.go:331-358 | each chunk in order extends the part file by itself and is answered at a batch's end or the file's |
| `FileTransfer.ReceiveAgain` | p2put/relayfile.go:331-358 | a chunk that is there already is dropped, whatever it holds |
| `FileTransfer.FilledExactly` | p2put/relayfile.go:235-263 | what a resumed file holds at the end, exactly |
| `FileTransfer.Receiver.constructor` | p2put/relayfile.go:226-263 | a session afresh or on a leftover |
| `FileTransfer.Receiver.OnData` | p2put/relayfile.go:331-358 | one data frame, on the words of the bitmap |
| `FileTransfer.SendFile` | p2put/relayfile.go:533-594 | the sender's loop ends, an answer is always there, and the answers are the batches' last chunks; a leftover with more chunks than the source is left alone |
| `FileTransfer.SendBatch` | p2put/relayfile.go:543-560 | one batch over an ordered stream |
| `Bitmap.BitmapSet` | p2put/relayfile.go:148-153 | adds exactly that element to the set, or nothing out of range |
| `Bitmap.BitmapHas` | p2put/relayfile.go:140-146 | membership in the set |
| `Bitmap.BitmapMaxContinuous` | p2put/relayfile.go:155-162 | the least missing element, or the limit |
| `BitWord.TestSet` | p2put/relayfile.go:140-153 | setting a bit of a word changes that bit and no other |
| `DebounceLog.TranscriptExact` | dlog/ddlog.go:68-134 | under every interleaving, printed lines as often as they count, then the pending one, are the logged messages in order; what is pending has a timer of the current generation |
| `DebounceLog.CountsConserved` | dlog/ddlog.go:68-134 | printed counts plus the pending count are the number of calls |
| `DebounceLog.OvertakenExactly` | dlog/ddlog.go:124-134 | a callback changes nothing if and only if a later call overtook it or nothing is pending |
| `DebounceLog.SharesLineExactly` | dlog/ddlog.go:86-110 | after any run a call shares the open line if and only if there is one, with the same message, begun less than a second before; otherwise it begins one more and prints the open one; the open line shows the call that began it |
| `DebounceLog.DDLogger.Print` | dlog/ddlog.go:68-111 | the pending entry is looked at only when it is there; the new state is the specified one |
| `DebounceLog.DDLogger.FlushFrom` | dlog/ddlog.go:124-134 | prints only when current |
| `DebounceLog.DDLogger.FlushAtExit` | dlog/ddlog.go:114-122 | prints what is pending |

## Left out

- Blocking and liveness: Write waiting for room, Read waiting for data, deadlines, wake-ups, and whether anything is eventually sent.
- TcpConnection.TcpConn.WriteSome: is the part of Write that buffers, in a state that takes writes. A Write that is blocked when Close is called goes on buffering behind the FIN in the source; that step is not in the model, so neither WriteSome nor the stream theorems speak of it.
- Network: runs start from Connect on one side and AcceptSYN on the other. Cookie and simultaneous opens are in the connection model and its life theorems, but no two-endpoint theorem starts from them.
- TwoObjects.Pair.AtA: requires that a packet's numbers lie within half the sequence space of the object's own, which for an acknowledging segment fails only by age (OnlyAgeMatters) and for a reset or a bare SYN is taken as it is; and room for one more number in flight.
- TwoObjects.Pair.AtB: requires the same.
- TwoObjects.Perform: requires the same.
- TwoObjects.Pair.constructor: requires receive buffers below 2^30 bytes, as the objects do.
- A connection object used for a second life: a deferred FIN or a running RTT measurement of the first would carry over. The theorems are about one life per object.
- SetupForHandshake, address accessors and channel plumbing of the connection: no logic.
- Timer arming, restarting and back-off intervals of the persist, keepalive and TIME-WAIT timers: a timer may fire whenever it is armed, or at any moment where arming is not tracked.
- TcpConnection.TcpConn.Connect: requires that nothing is being timed, as on an object that was never opened, because of the same second life.
- TcpConnection.TcpConn.AcceptSYN: requires that nothing is being timed, for the same reason.
- TcpConnection.TcpConn.AcceptCookie: requires that nothing is being timed, for the same reason, and data below 65536 bytes.
- TcpConnection.TcpConn.constructor: requires a receive buffer below 2^30 bytes, the most the window scale can announce.
- TcpConnection.TcpConn.Close: requires fewer than 2^31 - 1 numbers in flight, because the FIN takes one more and 32-bit comparisons end there.
- TcpConnection.TcpConn.OnRTOTimeout: requires fewer than 2^31 - 1 numbers in flight, because each repeated FIN takes one more.
- TcpConnection.TcpConn.OnPersistTimeout: requires fewer than 2^31 - 1 numbers in flight, because each probe takes one more.
- TcpConnection.TcpConn.HandleSegment: requires that a deferred FIN is less than 2^31 numbers from RCV.NXT, because the source compares it for equality for as long as the connection lives; that fewer than 2^31 - 1 numbers are in flight; and payloads below 65536 bytes.
- TcpConnection.TcpConn.QueueFIN: requires fewer than 2^31 - 1 numbers in flight, because the FIN takes one more.
- TcpConnection.TcpConn.AckInFlight: requires fewer than 2^31 - 1 numbers in flight, as HandleSegment does.
- TcpConnection.TcpConn.ProcessACK: requires fewer than 2^31 - 1 numbers in flight, as HandleSegment does.
- TcpConnection.TcpConn.HandleLate: requires fewer than 2^31 - 1 numbers in flight, as HandleSegment does.
- TcpConnection.TcpConn.ProcessData: requires that a deferred FIN is less than 2^31 numbers from RCV.NXT, as HandleSegment does.
- TcpConnection.TcpConn.HandleDataState: requires both, and positions within 2^31 of RCV.NXT.
- TcpConnection.TcpConn.HandleSynchronized: requires the same, and payloads below 65536 bytes.
- TcpConnection.TcpConn.HandleSynReceived: requires positions within 2^31 of RCV.NXT, which leaves out the stray SYN-ACK that EverySegment names.
- TcpConnection.TcpConn.Synchronize: is for payloads below 65536 bytes, more than a packet carries.
- TcpConnection.TcpConn.HandleSynSent: is for payloads below 65536 bytes, for the same reason.
- TcpConnection.TcpConn.SegmentAcceptable: is for payloads below 65536 bytes, more than a packet carries.
- TcpConnection.EverySegment: excludes the stray SYN-ACK that SYN-RECEIVED takes outside its window when its payload starts 2^31 from RCV.NXT.
- RecvBuffer.RecvBuf.Insert: is for segments within 2^31 of RCV.NXT, where 32-bit comparisons mean something.
- RecvBuffer.RecvBuf.ClipSegment: is for segments within 2^31 of RCV.NXT, for the same reason.
- Congestion.NewRenoController.constructor: is for an MSS whose tenfold fits 32 bits.
- Congestion.NewRenoController.Ack: is for windows that fit 32 bits after the step and an MSS below 65536.
- Congestion.NewRenoController.DupAck: is for windows that fit 32 bits after the inflation.
- Congestion.NewRenoController.FastRetransmit: is for thresholds and windows that fit 32 bits.
- Congestion.NewRenoController.Expire: is for an MSS whose double fits 32 bits.
- The HighSpeed controller: logarithms and powers in floating point.
- The 64-bit wrap of nanosecond durations and of the log's generation counter.
- Trampoline.Flusher.FlushPackets: models a connection with a writer; without one the source drops packets. The writer is any finite script of calls back.
- The pool's scores, their weights, random selection, circuit breaking and result recording: a score is a given real number.
- RelayPool.RelayPool.Prune: maps are walked in some order and any sort may be used; only ordered output with the same members is relied on.
- File transfer framing, JSON, compression, hashing, cancellation and errors; short reads of a regular file; a second session that removes the part file under the first.
- The encoding of SYN cookies, the listener and the routers above the connection: a keyed hash, and tables that hand segments and new connections on without deciding anything about the stream.
- Handshake.BothAgree: is for segment sizes between 1 and 65535, which the sixteen bits of the option can say.
- Recovery.TimeoutResends: is for kept blocks shorter than 2^31, as a peer with a smaller buffer sends, and a segment size above zero.
- WindowTheorems.FreshDataFits: excepts the zero-window probe, whose one byte is sent whatever the window, and says nothing of data sent again.
- Everything else in the repository (discovery, tunnels, proxies, REST, the vendored libp2p): input and output around libraries.
