# A model of anytls-x, with proofs

`anytls-x` multiplexes proxy streams over one TLS connection (the mux). With the
rail switch enabled it can move a running stream, in both directions, onto a
dedicated raw connection, carrier B, without losing, doubling or reordering a
byte. This project models the parts that promise depends on and proves it, along
with the data structures and protocols underneath:

| file | what it models |
|---|---|
| `Basics.dfy` | an optional value, and one sequence out of many |
| `Frames.dfy` | command numbers, the seven-byte header, the receive loop's parser |
| `Carrier.dfy`, `Registry.dfy` | the frame that opens B, its inspection, the pending-token registry |
| `Rail.dfy` | one direction of a stream from `Stream.Write` to `Stream.Read`, across the seam |
| `RailSwitch.dfy` | client, server, mux and B as a labelled transition system |
| `RailInvariant.dfy`, `RailTheorems.dfy` | what every step keeps, what holds in every run |
| `RailHistory.dfy` | the state as its run's steps tell it: every flag, every byte given and reported |
| `RailProgress.dfy`, `RailWitness.dfy` | what every reached state can still become; runs that exist |
| `Scanner.dfy`, `Detector.dfy`, `Handshakes.dfy` | the TLS record scanner, the state machine that authorises the cut-over, and exactly which TLS flows it authorises |
| `Shaper.dfy`, `FrameLayer.dfy`, `SessionWriter.dfy` | padding, the session's write side, and the round trip through the peer's parser |
| `SkipList.dfy`, `IdlePool.dfy` | the linked skip list and the session pool on it |
| `Pipe.dfy` | the synchronous pipe between `recvLoop` and `Stream.Read` |
| `Accounting.dfy` | the `activeStreams` count against every failure and close |

`dafny verify dfyconfig.toml` checks the project.

## How to read it

Code that updates fields or buffers is a class or a method with loops, proved
against a function on values: the skip list, the pool, the scanner, the detector,
the shaper, the session's writers, the registry. Concurrent protocols are state machines
whose step is one lock section, one channel exchange, or one atomic load or store:
the rail switch, the pipe, the accounting, the frame layer. A statement about every step sequence is a
statement about every interleaving. Clocks, random draws, faults and scheduling are
parameters of the steps and methods, so a theorem holds for all of them.

The central results:

- `RailTheorems.SeamIsExact`, `CleanEndExactly`, `CompletenessLasts`: in every run what
  one side's readers have got is a prefix of what the other side's writers were given, in both
  directions; at a clean end of B nothing is missing if and only if no byte met a closed pipe,
  which a live stream rules out, and on a live stream that stays so.
- `RailProgress.NothingIsStranded`, `DyingEnds`, `EndReachesPeer`: from every reached state, whatever
  the threads are in the middle of, bytes on working transports can still reach their reader and then
  the end, a dying stream can end, and the end of one side can reach the other.
- `RailHistory.FlagsAreEvents`, `BooksAreCalls`: in every run each flag is up if and only if its event
  happened, and the byte histories are the Write calls' arguments and results.
- `RailTheorems.LateCut`: no downlink byte reaches B before a Ready verdict, nor,
  on the TLS path, before the gate's worth of payload went over the mux after the handshake.
- `Handshakes.TlsFlowExact` with `Detector.OpaqueFlowExact`: exactly which flows are authorised,
  over whole runs and for any fragmentation.
- `FrameLayer.RoundTrip` and `StreamBytes`: chunking, splitting, buffering, padding and
  faults leave the peer with exactly the accepted frames and each stream's bytes;
  `NextWriteDrains`: once buffering has ended the next write leaves nothing behind.
- `SkipLists.SkipList.Insert` and `Remove` with `SkipLists.LevelsNest`: the linked structure is a sorted finite map.
- `IdlePool.Pool.Cleanup` with `CleanupKeeps`: the walk that removes while it iterates
  visits every entry once, in order, and keeps what it must; `GetIdle` and `OldestGo`: the newest
  session is taken, the oldest are let go.
- `Pipe.HandOffExact`, `EveryCallReturnsOnce`, `ReadsEndExactly`, `WriteFinishes`: bytes, calls and errors
  are exact over every interleaving, and an open pipe is never stuck.
- `Accounting.CountIsExact`, `StateIsTold`, `CountDrains`: the count is exact, the state is what the steps
  say, and a closed session's count can always be brought to zero.
- `RailWitness.ClientCarrierFate`: a negative result. An ended client stream's carrier is never
  closed if and only if `closeOnce` was entered while `bConn` was nil; `ClientCarrierLeaks`
  gives a run, the stream ending during the dial. On the server `AttachVersusEnd` shows that
  this cannot happen.

Transport assumptions of the rail switch. Each connection is a reliable FIFO whose
end-of-stream arrives in order. Once a `Write` on a connection has failed, every later
`Write` on it fails and delivers nothing. The failed `Write` itself may have delivered any
part of its bytes, all of them included; this holds for control frames too, so a barrier, offer
or FIN reported as failed may still arrive. A clean end of B may follow a failed write on it only
if that write delivered exactly the bytes it reported; behind a TLS record written in part
the peer gets an error and no end-of-stream. A close with unread data may reset the connection
(section 3.6.1 of RFC 9293), which may discard bytes in flight. Tokens are fresh. Both peers run
this code. The record format of the scanner is that of section 5.1 of RFC 8446; its
length limit, 2^14 + 2048, is the one of section 6.2.3 of RFC 5246.

Where code and comments disagree, the code is modelled:

- `FindRange` says its last key is excluded. `SkipLists.SkipList.WalkRange`: the walk yields
  exactly the keys from first to last, so last itself whenever it is present and not below
  first. With first above last it is empty, unless some key lies strictly between the two; then
  the iterator runs off the list.
- `carrierToPipe` says the bytes read off B were consumed before the end is signalled. That
  holds, on a dying stream too (`RailTheorems.CleanEndExactly`). It does not extend to the
  whole direction: `RailWitness.DyingEndIsIncomplete` is a run whose last mux bytes met a closed
  pipe before B ended cleanly.

## Model

| member | source | states |
|---|---|---|
| `Frames.HeaderRoundTrip` | session/frame.go:54-66 | the three header decoders invert the encoder for every command, 32-bit stream id and 16-bit length, whatever follows |
| `Frames.ReceiveInvertsEncode` | session/session.go:321-648 | whole frames followed by a torn one come out of the receive loop as exactly those frames, up to one that ends the loop |
| `Frames.ReceiveWhole` | session/session.go:325-344 | the same with nothing torn |
| `Frames.ReceiveAny` | session/session.go:326-512 | one frame of any command at the head of the wire, by its number: which end the loop, which leave their payload unread, which are handled whole |
| `Carrier.InspectStripsOpening` | session/migration.go:452-476 | the server strips exactly the opening frame, every later byte stays on B, and no shorter prefix is taken for it |
| `Carrier.InspectPrefix` | session/migration.go:463-476 | of what has arrived of the opening frame, only all of it is claimed |
| `Carrier.InspectFirstFrame` | session/migration.go:452-476 | any first frame: another command is a normal session, a carrier frame is refused unless it holds 16 to 4096 bytes, else its first 16 are the token and the rest stays |
| `Registry.HonouredOnce` | session/migration.go:89-108 | over any order of registrations, timers and claims a fresh token is honoured at most once, for the stream that registered it |
| `Registry.PendingExactly` | session/migration.go:89-108 | a token is pending for a stream if and only if a registration of it stands: not claimed, timed out or replaced since |
| `Registry.HonouredExactly` | session/migration.go:102-108 | a claim wins, for that stream, if and only if such a registration stands |
| `Registry.MigRegistry.Put` | session/migration.go:89-92 | registers under the token |
| `Registry.MigRegistry.Expire` | session/migration.go:93-99 | the timer removes only its own registration |
| `Registry.MigRegistry.Claim` | session/migration.go:102-108 | hands out and forgets |
| `Registry.MigRegistry.Accept` | session/migration.go:452-492 | each fate of a fresh connection: session, failure, drop, or attach with exactly the bytes after the opening frame |
| `Rail.MoveKeeps` | session/migration.go:286-326 | every move of one direction keeps barrier discipline, exact bytes and clean closing |
| `Rail.EofMeansComplete` | session/migration.go:293-320 | after a clean end B is empty, all that was fetched off it was handed over, last of all, and the readers hold everything reported written if and only if nothing met a closed pipe |
| `RailInvariant.AcceptStrips` | session/migration.go:463-487 | accepting B leaves no byte of the opening frame on it |
| `RailInvariant.CommitFindsEmptyB` | session/migration.go:267-284 | when the client diverts, B holds nothing in its direction |
| `RailInvariant.OfferFindsIdleDialer` | session/migration.go:194-222 | an offer reaches a client that has not dialled: one offer, one dial |
| `RailInvariant.StepKeeps` | session/migration.go:168-445 | every step of client, server and transports keeps the whole invariant |
| `RailInvariant.RunKeeps` | session/migration.go:168-445 | so does every run |
| `RailTheorems.SeamIsExact` | session/migration.go:286-326 | in every run, in both directions, bytes read are a prefix of bytes passed to Write, across the seam |
| `RailTheorems.CleanEndIsComplete` | session/migration.go:309-320 | `bReadHalfClosed` with `dieErr` nil: the readers hold everything the peer's writes reported |
| `RailTheorems.CleanEndExactly` | session/migration.go:293-320 | `bReadHalfClosed` in any run, stream alive or not: every byte read off B was returned by Read, and the direction is complete if and only if no byte met a closed pipe, which needs a stream that is ending |
| `RailTheorems.CompletenessLasts` | session/migration.go:334-359 | and no continuation changes that |
| `RailTheorems.BarrierCausality` | session/migration.go:267-284 | each barrier is sent at most once, no data frame follows it, and the uplink barrier finds the server's carrier attached |
| `RailTheorems.DivertsOnce` | session/migration.go:363-378 | `bWriteConn` changes at most once per side |
| `RailTheorems.CutoverExactlyOnce` | session/migration.go:254-284 | whichever of carrier-ready and barrier-seen comes second, the cut-over is committed once, never twice and never lost |
| `RailTheorems.GracefulCloseDiscardsNothing` | session/migration.go:355-359 | a close reached through both halves finds B empty, and nothing is put on it in any continuation |
| `RailTheorems.AttachVersusEnd` | session/migration.go:363-445 | attach and stream end in either order: a refused carrier is closed and `waitCarrier` released; an attached one is half-closed with the watchdog armed, `closeOnce` is not spent on a nil `bConn`, and a continuation closes B and releases `waitCarrier` |
| `RailTheorems.LateCut` | session/migration_detect.go:244-250 | a diverted downlink implies a Ready verdict, and on the TLS path the gate's volume of mux payload in calls begun after the handshake was done |
| `RailHistory.MoveMarks` | session/migration.go:286-378 | every move of a direction sets the flags it names and no other |
| `RailHistory.FlagsAreEvents` | session/migration.go:168-445 | in every run each of nineteen flags of either side is up if and only if its event is among the steps: dead, armed, half-closed, diverted, pipe closed, and so on |
| `RailHistory.FlagsLast` | session/migration.go:168-445 | and never goes down again |
| `RailHistory.FinHoldsUpLoop` | session/session.go:403-410 | recvLoop is inside `closeLocally` if and only if the last of its two events was taking the cmdFIN, and then it takes no frame; likewise a CloseWrite that has not ended B yet |
| `RailHistory.ServerIsTold` | session/migration.go:168-220 | trigger, registration, tap and listener of the server stand exactly where its own steps have put them |
| `RailHistory.DetectorSawTaps` | session/migration.go:168-192 | the verdict is the detector's on exactly the tapped reads and mux writes, in order, from the start of the payload until a verdict |
| `RailHistory.BooksAreCalls` | session/stream.go:71-115 | bytes passed and accepted are what the run's Write calls were given and reported, in order |
| `RailProgress.DyingEnds` | session/stream.go:145-190 | closed, hit by a cmdFIN or given up by its feeder, a stream never comes back, and its own steps end it: pipe closed, B's write half retired and the watchdog armed, or `waitCarrier` released |
| `RailProgress.CleanEndClosesPipe` | session/migration.go:309-320 | after a clean end of B a stopped feeder has closed the pipe, which it always can; one that stopped without it has made the stream die |
| `RailProgress.Drains` | session/session.go:321-410 | from every reached state recvLoop can work off the whole mux; a pending cmdFIN kills the stream, and without one a live stream keeps every byte |
| `RailProgress.NothingIsStranded` | session/migration.go:254-326 | from every reached state of a live stream on working transports a continuation gives its readers everything the peer's writes reported, and the end if B was ended |
| `RailProgress.EndReachesPeer` | session/session.go:650-660 | from every reached state with one side ended and its mux working a continuation ends the other |
| `RailProgress.CarrierCanClose` | session/migration.go:355-406 | with both halves retired, or after a failed opening, the carrier can be closed and `waitCarrier` released while the stream stays as it was |
| `RailProgress.FailedFeederEnds` | session/migration.go:321-330 | a feeder that met an error can close B, give up and end its stream wholly |
| `RailProgress.TakenIsSettled` | session/migration.go:363-394 | a carrier the server has taken can be attached to a live stream, or refused and closed for a dead one |
| `RailProgress.OpeningArrives` | session/migration.go:222-250 | the opening frame as the listener finds it: whole it is claimed with this token and nothing left, cut off it is not claimed |
| `RailProgress.ThreadsMove` | session/migration.go:194-284 | in every run the dial, the callers of the cut-over, the trigger, the timer and the listener can each take their next step whenever they are under way |
| `RailProgress.WriteReturns` | session/stream.go:101-118 | in every run a Write of any bytes returns, reporting all of them if and only if its transport is still good |
| `RailProgress.LoopIsSequential` | session/session.go:321-410 | until recvLoop is idle again no step of any thread takes a frame of the stream off the mux |
| `RailProgress.ClosedReadsNothing` | session/migration.go:293-306 | a side that has closed its end of B reads nothing off it in any continuation |
| `RailProgress.EndInOrder` | session/stream.go:150-190 | a cmdFIN is sent only for an ended stream, recvLoop leaves `closeLocally` only then, and a feeder that gives up has closed B and let the stream die first |
| `RailWitness.MigrationCompletes` | session/migration.go:222-326 | a run exists that moves both directions, delivers bytes on both sides of the seam and ends cleanly |
| `RailWitness.DyingEndIsIncomplete` | session/migration.go:309-320 | a run ends B cleanly on a dying stream with a reported byte never read |
| `RailWitness.ClientCarrierFate` | session/migration.go:396-406 | for an ended client stream with a published carrier: no continuation closes it if and only if some step of the run entered `closeOnce` while `bConn` was nil |
| `RailWitness.ClientCarrierLeaks` | session/migration.go:222-256 | such a run: the stream ends during the dial, the carrier is published afterwards |
| `Scanner.FeedSplit` | session/migration_detect.go:77-126 | feeding p then q is feeding p+q, in state and reports |
| `Scanner.FragmentationIndependence` | session/migration_detect.go:73-126 | any cutting into fragments gives the same state and reports |
| `Scanner.ScanIsParse` | session/migration_detect.go:82-125 | from a record boundary the reports are those of a recursive parse, up to the first over-long record |
| `Scanner.ReportsAreTheParse` | session/migration_detect.go:77-130 | for any fragments, each record is reported once, in order |
| `Scanner.ParseRecord` | session/migration_detect.go:91-106 | a record as the protocol writes it, length first byte most significant, is reported with type, length and first byte; more than 18432 bytes end the parse |
| `Scanner.ParseCut` | session/migration_detect.go:108-119 | a record cut off inside is reported if and only if its first body byte is there |
| `Scanner.RecordScanner.TakeHeader` | session/migration_detect.go:82-107 | the header branch does what feeding those bytes one by one does |
| `Scanner.RecordScanner.TakeBody` | session/migration_detect.go:108-124 | likewise the body branch |
| `Scanner.RecordScanner.FeedAll` | session/migration_detect.go:77-126 | the loop refines byte-wise feeding |
| `Detector.ResolveMinBulk` | session/migration_detect.go:46-54 | the gate is never below 2048, the default for no setting, the setting when large enough |
| `Detector.VerdictIsFinal` | session/migration_detect.go:188-196 | Ready and Aborted absorb every later observation |
| `Detector.TlsOnlyNeverBulk` | session/migration_detect.go:199-216 | restricted to TLS, no run enters Bulk or authorises without a ServerHello |
| `Detector.TlsReadyNeedsHandshake` | session/migration_detect.go:223-305 | HandshakeDone or a TLS-path Ready implies, in the records reported, a ServerHello, then a server record that is no handshake and a client record, with no server handshake record before both were in |
| `Detector.SecondServerHandshakeAborts` | session/migration_detect.go:262-279 | a second server handshake record in that phase means the flow is never migrated |
| `Detector.RecordDecides` | session/migration_detect.go:223-305 | what one record of either side decides, by its type, length and first byte as numbers |
| `Detector.BulkGate` | session/migration_detect.go:289-294 | from Bulk, Ready exactly when the total volume reaches the gate |
| `Detector.OpaqueFlowExact` | session/migration_detect.go:199-216 | a flow whose first uplink byte is not 0x16 is authorised exactly when the volume since then reaches the gate |
| `Detector.OpaqueRuledOut` | session/migration_detect.go:199-211 | restricted to TLS such a flow is aborted by its first payload, for good |
| `Detector.TlsGateExact` | session/migration_detect.go:244-249 | after the handshake, exactly the downlink volume of later calls decides |
| `Handshakes.TrackIsExact` | session/migration_detect.go:235-285 | handling the records one by one decides exactly whether the log contains the handshake |
| `Handshakes.TlsFlowExact` | session/migration_detect.go:185-305 | a flow whose first uplink byte is 0x16 is authorised if and only if the reported records contain the handshake and the downlink volume of the calls after it was done reaches the gate |
| `Handshakes.Tls13Flow` | session/migration_detect.go:185-305 | a TLS 1.3 exchange given in bytes, with any bodies, completes the handshake, and the next downlink authorises it if and only if it reaches the gate |
| `Detector.ObserveGate` | session/migration_detect.go:185-250 | one observation moves the TLS gate only in HandshakeDone, by exactly its downlink bytes |
| `Detector.HandshakeDetector.ObserveUplink` | session/migration_detect.go:185-232 | the method is one observation of the state machine |
| `Detector.HandshakeDetector.ObserveDownlink` | session/migration_detect.go:235-285 | likewise |
| `Shaper.AppendWaste` | session/record_shaper.go:236-271 | in place or freshly allocated, the buffer's frame is kept and one well-formed waste frame follows, whatever the spare bytes held |
| `Shaper.PadsToMeans` | session/record_shaper.go:236-271 | read by the peer's parser, a padded record is the frame and one waste frame for stream 0, within the target's bounds |
| `Shaper.SizeIsAnyOf` | session/record_shaper.go:209-226 | every size a target allows for the frame is drawn by some random number |
| `Shaper.HeadersSizeIsAnyOf` | session/record_shaper.go:126-145 | likewise for the headers target |
| `Shaper.PadControl` | session/record_shaper.go:168-226 | for all draws: pads if and only if some target can hold the frame and a waste header, and the length lies in a configured target up to the frame limit |
| `Shaper.Gather` | session/record_shaper.go:196-208 | the sixteen-slot fallback holds feasible targets only, and all of them if they are fewer than sixteen |
| `Shaper.PadToHeadersExact` | session/record_shaper.go:117-145 | the same exactness for the headers target |
| `Shaper.RecordShaper.ComputeMaxTarget` | session/record_shaper.go:64-72 | the largest maximum over the targets |
| `Shaper.RecordShaper.Refresh` | session/record_shaper.go:74-81 | the cached maximum always belongs to the loaded configuration |
| `Shaper.RecordShaper.ShapeControl` | session/record_shaper.go:151-158 | the size cache never skips a frame a target could pad |
| `Shaper.RecordShaper.ShapeFlush` | session/record_shaper.go:103-107 | the flush is padded to the headers target whenever it fits |
| `FrameLayer.ReceiveAtLeast` | session/session.go:321-648 | every frame whose bytes arrived whole is handled, in order |
| `FrameLayer.ReceiveAtMost` | session/session.go:321-648 | nothing but frames that were sent is handled, however the bytes are cut |
| `FrameLayer.HeardIgnoresWaste` | session/session.go:411-419 | padding never changes how far the peer gets through the real frames |
| `FrameLayer.StepKeeps` | session/session.go:848-884 | every write, flush, injection, fault and close keeps the wire made of frames and the books exact |
| `FrameLayer.RoundTrip` | session/session.go:848-884 | after any interleaving: the peer has every frame of every successful write and only frames handed to `writeConn`, in `connLock` order; with no failed write, exactly the accepted frames minus those buffered |
| `FrameLayer.SoundStreamBytes` | session/session.go:328-344 | the same bounds in every sound state of the write side |
| `FrameLayer.StreamBytes` | session/session.go:328-344 | per stream, whatever other streams do in between: received payload is a prefix of what the stream's own calls brought; with no failed write, all of it but what is buffered |
| `FrameLayer.BufferingEnds` | session/session.go:308-310 | a session buffers until the first end of buffering in its run, and never again |
| `FrameLayer.NextWriteDrains` | session/session.go:848-884 | after it, any write of an open session empties the buffer, and if no write has failed the peer has all of every stream's bytes |
| `SessionWriter.Session.WriteConn` | session/session.go:848-884 | one `connLock` section is one operation of that machine, reports success exactly if the frame was accepted, and gives each record the shape it owes: HEADERS for a flush or SYN, a control size for control frames, none for data |
| `SessionWriter.Session.SendPush` | session/session.go:792-804 | one data frame; failure marks the connection broken |
| `SessionWriter.Session.WriteDataFrame` | session/session.go:662-698 | chunks of 16384 bytes but for the last; n bytes reported are exactly the first n accepted, all of them if and only if no error, which a working connection never gives |
| `SessionWriter.Session.WriteDataFrameSplit` | session/session.go:749-785 | for all draws two or three pieces of at least 48 bytes carry exactly the data |
| `SessionWriter.SplitCutIsAnyOf` | session/session.go:771-772 | every cut between the minimum and the bound is drawn by some random number |
| `SessionWriter.Session.WriteDataFrameShaped` | session/session.go:734-739 | the stream's accepted payload grows by exactly the reported bytes and no other stream's changes |
| `SessionWriter.Session.WriteControlFrame` | session/session.go:806-839 | an oversized payload is refused untouched; a failed write closes the session |
| `SessionWriter.Session.WindowUpdate` | session/session.go:1122-1161 | injects two thirteen-byte waste records exactly if the session is usable and the lock free, marks it broken only on a partial write, and leaves accepted and buffered frames alone |
| `SessionWriter.Session.CloseSession` | session/session.go:196-237 | closes once; writes the seventeen-byte goodbye record if the lock is free, which adds no frame |
| `SessionWriter.Session.StopBuffering` | session/session.go:308-310 | buffering is over and nothing else changes, so the next write flushes |
| `SessionWriter.Session.PeerRecovers` | session/session.go:315-344 | between any two calls the peer's loop recovers from this session's bytes what the frame layer promises |
| `SessionWriter.Session.StreamRecovers` | session/session.go:328-344 | and, per stream, from this session's wire: with no failed write, exactly the accepted bytes but for the buffered ones |
| `SessionWriter.PushesCarry` | session/session.go:666-695 | the frames of a write carry its bytes, in order, to its stream only |
| `SkipLists.RandomLevel` | skiplist/skiplist.go:258-269 | for every draw: 41 less the bits of the draw modulo 2^40 - 1, cut down exactly as far as the length demands; 1 to 40 below 2^38 entries |
| `SkipLists.ChainInOrder` | skiplist/skiplist.go:216-234 | following level i from a node meets exactly the higher nodes above it, ascending |
| `SkipLists.LevelsNest` | skiplist/skiplist.go:91-120 | level 0 is the ascending map, each level lies in the one below, levels not in use are empty |
| `SkipLists.InsertKeepsLinks` | skiplist/skiplist.go:103-117 | splicing behind the recorded predecessors keeps every pointer leading to the next node of its level |
| `SkipLists.RemoveKeepsLinks` | skiplist/skiplist.go:163-165 | so does unlinking |
| `SkipLists.SkipList.constructor` | skiplist/skiplist.go:250-256 | an empty map |
| `SkipLists.SkipList.DoFindNode` | skiplist/skiplist.go:282-304 | the key's node, else nil or the first entry above it |
| `SkipLists.SkipList.Find` | skiplist/skiplist.go:124-130 | found if and only if in the map, with its value |
| `SkipLists.SkipList.LowerBound` | skiplist/skiplist.go:306-308 | the least entry at or above the key |
| `SkipLists.SkipList.UpperBound` | skiplist/skiplist.go:310-316 | the least entry above the key |
| `SkipLists.SkipList.FindRange` | skiplist/skiplist.go:151-154 | the range starts at the first key not below first and ends at the first key above last |
| `SkipLists.SkipList.WalkRange` | skiplist/skiplist.go:216-234 | iterating over it yields exactly the keys from first to last, ascending and last included; it runs off the list if and only if a key lies strictly between last and a greater first |
| `SkipLists.SkipList.FindInsertPoint` | skiplist/skiplist.go:320-340 | the key's node, or the predecessor on every level in use, each index in range |
| `SkipLists.SkipList.FindPrevNodes` | skiplist/skiplist.go:352-365 | the predecessors whether or not the key is there |
| `SkipLists.SkipList.Insert` | skiplist/skiplist.go:91-120 | the map with the key set, for every draw; nodes already there stay; a new node's tower has the drawn level |
| `SkipLists.SkipList.Remove` | skiplist/skiplist.go:158-171 | the map without the key, true if and only if it was there; the removed node keeps its tower |
| `SkipLists.SkipList.Clear` | skiplist/skiplist.go:76-82 | the empty map |
| `SkipLists.SkipList.First` | skiplist/skiplist.go:85-87 | iteration starts at the least key |
| `SkipLists.SkipList.Successor` | skiplist/skiplist.go:224-226 | and moves to the next |
| `IdlePool.SweepIsFair` | session/client.go:345-369 | every eligible unexpired session is kept; one is timed out if and only if it is eligible, expired and the minimum was kept before it; nothing with streams on a working connection is closed |
| `IdlePool.SweepKeepsEnough` | session/client.go:359-365 | at least the minimum is kept, or all eligible ones |
| `IdlePool.InOrderUnique` | session/client.go:338-343 | the order of the visit is the only ascending listing of the pool |
| `IdlePool.NewestFirst` | session/client.go:243-246 | the order of the pool is from the newest serial number to the oldest |
| `IdlePool.LeastIsNewest` | session/client.go:264-281 | the first usable session is newer than every other usable one, and exactly the older ones stay |
| `IdlePool.Pool.Visit` | session/client.go:345-369 | one round does to pool, session and count what its fate says |
| `IdlePool.Pool.Sweep` | session/client.go:337-371 | the move-then-remove loop visits every entry once in key order and leaves exactly what the fates say |
| `IdlePool.Pool.Cleanup` | session/client.go:333-376 | and then closes exactly the doomed sessions |
| `IdlePool.Pool.CleanupKeeps` | session/client.go:333-371 | what remains is eligible, holds all unexpired ones, and is all eligible ones or at least the minimum |
| `IdlePool.Pool.CleanupCloses` | session/client.go:345-376 | what was closed was open, and broken or idle and expired |
| `IdlePool.Pool.OldestGo` | session/client.go:359-369 | a session is timed out only if at least the minimum of newer ones is kept |
| `IdlePool.Pool.GetIdle` | session/client.go:264-281 | by serial numbers: a usable session newer than every other usable one; exactly the older ones stay; the broken ones passed over are handed out for closing |
| `IdlePool.Pool.Park` | session/client.go:243-246 | files a session under its own key |
| `Pipe.StepBytes` | pipe/io_pipe.go:93-104 | only the exchange moves bytes, on both sides at once |
| `Pipe.HandOffExact` | pipe/io_pipe.go:52-106 | over all interleavings the bytes read are the accepted prefixes of the writes in lock order; a write returning n had exactly its first n bytes read; success means all |
| `Pipe.CloseErrors` | pipe/io_pipe.go:73-133 | end of file is read only if the writer closed cleanly; a write fails with the reader's own error only if the reader closed with it |
| `Pipe.FirstCloseCounts` | pipe/io_pipe.go:60-115 | the first close of each end decides, and the pipe is closed exactly by its closing step |
| `Pipe.ReadsEndExactly` | pipe/io_pipe.go:117-124 | a read ended by the closed pipe returns the writer's error, end of file for a clean close, if and only if the reader was not closed by then, else ClosedPipe; past its deadline it says so |
| `Pipe.WritesEndExactly` | pipe/io_pipe.go:126-133 | the mirror rule for writes, which report the bytes already taken |
| `Pipe.EveryCallReturnsOnce` | pipe/io_pipe.go:39-106 | over every interleaving the calls a caller began are those that returned and at most one under way |
| `Pipe.CloseWakesAll` | pipe/io_pipe.go:39-106 | a closed pipe lets no call begin and every waiting one return |
| `Pipe.WriteFinishes` | pipe/io_pipe.go:70-106 | while the pipe is open one reader with any room sees the write under way through |
| `Accounting.StepCounts` | session/client.go:190-200 | every step moves the count by exactly what the stream counted before and after |
| `Accounting.CountIsExact` | session/session.go:245-313 | after every run `activeStreams` is the number of opens in progress and streams whose die hook has not run, hence never negative |
| `Accounting.StateIsTold` | session/session.go:196-313 | which streams exist, how far each open got, what killed it, whether its hook ran and whether the session is closed are exactly what the run's steps say |
| `Accounting.CloseKillsAll` | session/session.go:196-237 | the close kills every stream that was registered and not taken back, and empties the map |
| `Accounting.NothingBlocks` | session/client.go:190-200 | every counted stream can take a step of its own unless the close holds the lock, and then the close can go on |
| `Accounting.CountDrains` | session/session.go:196-237 | from every run whose session has closed and swept the count can be brought to zero |
| `Accounting.ParksOnlyWhenIdle` | session/client.go:227-248 | a die hook leaves the count at zero if and only if no open is in progress and every other hook has run |

## Left out

- Lock-level deadlock freedom: a control write that fails inside a `writeMu` section closes the session, whose teardown takes `writeMu` again; sections are atomic here and only safety is claimed.
- That `io.EOF` from `Stream.Read` means complete delivery: the hard-error path ends a stream with the same error, so completeness is stated for `bReadHalfClosed`.
- That TLS 1.2 is never migrated: records after the handshake is done are not inspected; only what the state machine checks is stated.
- Frame synchronisation against arbitrary peers: some arms of the receive loop read no payload, so `Frames.Sendable` asks senders to leave those frames empty, as both peers do.
- What the receive loop does with each frame besides the rail switch and data: settings, version negotiation, padding scheme updates, heartbeat replies.
- The source of the uplink tap: in the rail switch the detector may be shown any uplink bytes at any time, a superset of what `Stream.Read` returned, so `LateCut` holds for more runs than the code has.
- FIN after `closeLocally`: in the rail switch any ended side may send one; the code sends none for a stream ended by a cmdFIN, whose peer has ended already, or by its session's close.
- Stream deadlines in the rail switch: a `Write` admitted before the stream died may still act after it, a superset of the code's runs.
- RailWitness.ClientCarrierFate: says the carrier can still be closed by an enabled step; that the timer fires in time is not modelled.
- IdlePool.Pool.Cleanup: sequential; a concurrent `leastLoadedSession` may pick a session between check and close.
- IdlePool.Pool.Close: the streams a session closes with it are left to `Accounting.dfy`.
- SkipLists.SkipList.Insert: asks for fewer than 2^38 entries, beyond which `newSkipListNode` (skiplist/skiplist_newnode.go) has no level.
- Detector callbacks: the scanner's reports are handled after each fed fragment rather than inside it, which is the same because handling does not touch the scanner.
- Accounting: peer frames name a stream only after its SYN was written, and the SYNACK timer does not fire. This removes a SYN reported as failed yet delivered and answered before the stream is deleted, where the SYNACK error arm and `openOn` could both decrement.
- The comparator-based skip list, `Has`, `Len` and `ForEach`: they would only add easy members.
- `CreateStream`, `leastLoadedSession`, `Reset`, client and server start-up, dialling, authentication, address headers, the sing-box glue.
- Padding-scheme parsing and sampling, idle and heartbeat timing, `BuildIdleFrame`'s clock test (an idle record is one injected waste frame), traffic resemblance.
