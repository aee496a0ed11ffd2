# AudioHub AirPlay receiver: verified models

Dafny models of the concurrent and stateful parts of AudioHub's AirPlay receiver, and proofs
of what they promise over every interleaving, run and input. `dafny verify dfyconfig.toml`
checks everything.

## What is modelled

**The PCM bus** (`BusModel`, `BusProof`, `BusAccess`, `BusAlign`, `BusReader`, `BusRun`,
`BusUncounted`, `BusFeedback`, `BusWriter`).
One writer at a time holds a mutex; readers take no lock. `BusModel` is a machine whose steps
are single atomic stores, with a history of every pushed frame. `BusProof` shows that each
step keeps the invariant and only moves forward, so any run does. `BusWriter` is the writer's
code, store by store: each store is proved to be the machine's next step. `BusAccess` and
`BusReader` are the reader's code, load by load: before each load an arbitrary batch of
machine steps runs, so what they ensure holds in every interleaving. A read is judged at its
final check of the control word. A reader also keeps books: the fate of every sequence number
since it entered the epoch; `BusRun` adds up any number of reads. At its end a read publishes
the reader's place for the writer; `BusFeedback` follows these words to the clock correction.

**Timed alignment** (`BusAlign`). The reader jumps whole pushes at a time to the frame due at
the output block's start. The jump search is compared with a search one frame at a time.

**Versioned words** (`VersionLock`). Reader feedback and output timing use the same protocol:
odd version, words, even version. Modelled once, for any number of words.

**The clock servo** (`ClockServo`, `ClosedLoop`). The correction is a function of the set of
qualified readers. `ClockServo` analyses the loop with a converter of ideal ratio over
unbounded time; `ClosedLoop` closes it over the real resampler, with whole frames in and out.

**Telemetry generations** (`Telemetry`). Recorders pin one of two slots by the parity of their
operation token's generation; a reset waits for the other slot, clears it and publishes it;
snapshots retry. Seven counters stand for all: three outcomes and the preparations of phase
two, and parsed, rejected and total peer-list requests. `SessionHistory` is the bounded list
of control connections each slot keeps.

**The session state** (`SessionTable`, `SessionProof`, `SessionProperties`, `SessionMessages`,
`SessionVolumes`, `SessionCredentials`, `SharedStatus`). What the status lock protects, the two lease revisions and
the bus owner. One pure operation per critical section gives a machine; `SharedStatus` is the
class that updates its fields in place, each method proved equal to its operation. Activating
a sink is three separate steps (mint an id, install it under the lock, take the bus after it),
so other calls may fall between them.

**The resampler** (`Resampler`, `ClockResampler`). A bank of 1024 interpolation filters is read
at a position that moves by a step per output frame; blocks of input are joined by a history
that is shifted in place. `Resampler` specifies one block and proves what streams of blocks
give; `ClockResampler` is the class with its loops and shortcuts. Two channels; the windowed
sinc values are given, their scaling is modelled.

**The converter** (`Converter`). Sample chunks, cut anywhere, become stereo frames, and each
chunk's frames are one block for the resampler; with them goes the timing of the output.

**The macOS service** (`MacService`). Processes start and end and process ids are reused
between any two observations. Start times only grow and an instance keeps its image.

**Request paths** (`WebPath`). Percent-decoding, UTF-8, separators and the plain-name gate.

Invariants such as `Telemetry.Inv` or `BusModel.Inv` are predicates over the whole state; a
lemma that requires one holds in every reachable state, because the `Run` functions (and, for
sessions, `SessionProof.RunKeepsTable`) carry it from the initial state along any run.

## Where the code does less than its comments

- A read that fails its final check has already moved the cursor: those frames enter no
  counter (`Voided`). On a timed stream an untimed frame is passed without entering any
  counter (`Stray`), bus.rs:622. `BusReader.UncountedFrames` shows nothing else is missed;
  `BusUncounted.StraysAreTheUntimedFrames` and `BusUncounted.GateChangeVoids` show when each
  happens, and `BusWriter.UntimedPushJoinsTimedStream` that such frames are admitted.
- The comment on `RemoteControlSnapshot` (runtime.rs:394-400) says any stream replacement
  revokes older snapshots. A sink of the other protocol does not:
  `SessionProperties.ActivationRevokesExactly` states exactly when one does, and
  `LeaseSurvivesTheOtherSink` gives a run in which one does not.
- `SenderVolumeSnapshot` (runtime.rs:434-445) promises that the revision advances with every
  accepted command and that session id and revision identify a command. Both fail, in
  `SessionVolumes`. An unnumbered command at the largest revision keeps it
  (`AcceptedVolumeAdvances`, with a run in `LargestRevisionRepeats`); the protocol always
  numbers its commands, only the unversioned entry point (runtime.rs:916-919) does not. And
  ending the stream drops the numbering but neither the session nor the bus owner: a second
  stream of the same protocol is then accepted with any revision under the same session id
  (`EndedStreamRestartsNumbering`; `CommandIdentityRepeats` is a run in which revision 7 of
  session 1 is accepted twice). `VolumeFallsExactly` says which calls drop the numbering;
  without one of them revisions advance, the largest apart (`CommandsAreNumberedUpwards`),
  and within one session only the end of the bound stream can break it (`IdentitiesAdvance`).
- "Old stream ids never return" holds only while a newer id is installed
  (`SessionMessages.InstalledIdsOnlyGrow`, `SessionMessages.EndedStreamAdmitsOldIds`).
- The selection flag stored with sessions may mark two of them: `StoredFlagsClashExactly` says
  when (`SessionMessages`), `StoredFlagsDoClash` gives a run. The status snapshot recomputes it.
- `needs_timed_realign` (bus.rs:489) is never set to true by the code of the bus; the model
  keeps the flag and the branch that clears it.

## Model

| member | source | states |
|---|---|---|
| BusProof.StepKeepsInv | core/audiohub-airplay/src/bus.rs:366-384 | Every atomic store, by any thread and at any point of a push or reset, keeps the ring, writer, epoch, frame and history invariants, and moves head, floor, control and slot sequences only forward |
| BusProof.Run | core/audiohub-airplay/src/bus.rs:329-458 | After any interleaving of stores, new operations and gate changes the invariant holds and the state is later than the start in every respect a reader relies on |
| BusProof.WindowIsIntact | core/audiohub-airplay/src/bus.rs:366-384 | In every reachable state, mid-write included, head - floor is at most the capacity and each frame in between sits complete and untorn in its slot, equal to what was pushed |
| BusProof.SequenceLockIsUntorn | core/audiohub-airplay/src/bus.rs:144-157 | If a slot's sequence is 2q+2 before and after some loads, every load in between saw the words of the one push numbered q |
| BusProof.MissMeansEvicted | core/audiohub-airplay/src/bus.rs:144-157 | A frame below the head that is not found was really evicted: it lies below the floor |
| BusProof.HitMeansRecent | core/audiohub-airplay/src/bus.rs:144-157 | A frame that is found is at most one ring behind the head |
| BusProof.SequencesFit | core/audiohub-airplay/src/bus.rs:352-353 | The bound on pushed frames keeps every slot sequence within 64 bits |
| BusProof.LaterTransitive | core/audiohub-airplay/src/bus.rs:80-97 | What a reader may rely on between two accesses composes over a whole read |
| BusAccess.SharedBus.Frame | core/audiohub-airplay/src/bus.rs:144-157 | Under interference the frame copied is exactly frame q of the history, or nothing, and nothing only for an evicted frame when q was below the head |
| BusAccess.SharedBus.LoadHeader | core/audiohub-airplay/src/bus.rs:545-560 | If the control word is even and unchanged, all eight published words belong to one epoch and reset <= floor <= head |
| BusAccess.SharedBus.AlignCursor | core/audiohub-airplay/src/bus.rs:580-608 | The bounded search over a moving ring returns the result of the search on the history, or stops at a frame evicted meanwhile; every frame passed carries the gate and lies late |
| BusAccess.SharedBus.CopyFrames | core/audiohub-airplay/src/bus.rs:609-629 | Each frame of the block is delivered to its place, counted as dropped because it was evicted, or passed because of its gate; everything else in the block is silent |
| BusAccess.SharedBus.FinalCheck | core/audiohub-airplay/src/bus.rs:630-640 | A check that succeeds names a moment at which no reset had intervened and, on a timed stream, ends with the gate being the one loaded; one that fails finds the control word or that gate changed |
| BusReader.PcmReader.Subscribe | core/audiohub-airplay/src/bus.rs:213-233 | A new reader starts at the writer's next frame with empty books |
| BusReader.PcmReader.ReadFrames | core/audiohub-airplay/src/bus.rs:517-655 | The whole course of a read under interference. One that reports an epoch worked from one header, began where prebuffering, gate or timed alignment say, with the silence before a future frame that the clock asks for, delivered in order only frames pushed in that epoch by the session it reports and, on a timed stream, under the gate still asked for at the end; every frame passed has one fate. One that reports none leaves silence and zero counters, and only a reset or, on a timed stream, another gate makes it so. Unless another thread writes the gate, it worked under the gate it was asked for, which is the one in force afterwards. Fields, books and published words are left exactly as stated either way |
| BusReader.TimedReadPlaysOneGate | core/audiohub-airplay/src/bus.rs:613-632 | A read of a timed stream plays frames of the gate in its header alone, the gate still asked for at its end |
| BusReader.TimedReadStartsOnTime | core/audiohub-airplay/src/bus.rs:580-608 | A timed read that passes begins at the writer's head, waits before a frame of another gate, plays a frame whose time lies within half its step of the block's start, or leaves before a future frame the silence its distance in nanoseconds asks for, to half an output frame; it waits for the next block exactly when the frame lies no closer than half a frame before the block's end. The block is silent before its first frame, which is where the search said |
| BusReader.ReadBeginsAsPromised | core/audiohub-airplay/src/bus.rs:561-609 | A read that passes is silent while there is no session or another gate; without a time it plays exactly when it continues established playback or the prebuffer is there, from its place, the reset point of a new epoch or the oldest frame left, as far as the head reaches; an output on a timed stream that does not know its time waits unless it continues |
| BusReader.PlaybackIsEstablished | core/audiohub-airplay/src/bus.rs:561-640 | After a read the reader counts as playing exactly when the read passed and filled the block after its leading silence, or waited while playing in the same epoch and gate; its place is the frame after the last one tried |
| BusReader.ShortReadRebuffers | core/audiohub-airplay/src/bus.rs:607-640 | After a read that was voided or fell short, the next on an untimed stream is silent until the prebuffer is there again |
| BusReader.PcmReader.Conclude | core/audiohub-airplay/src/bus.rs:630-655 | The final check keeps or voids what was gathered since the header, in counters, books, fields and block |
| BusUncounted.StraysAreTheUntimedFrames | core/audiohub-airplay/src/bus.rs:613-625 | Of the frames still in the ring, a read that passes skips as strays exactly those without a gate on a timed stream |
| BusUncounted.GateChangeVoids | core/audiohub-airplay/src/bus.rs:630-640 | Another output announcing its gate before the final check voids a timed read: no counter tells of the frames it passed, and the cursor is past them |
| BusFeedback.WriterSeesTheReader | core/audiohub-airplay/src/bus.rs:642-651 | What a read publishes is decoded by the writer as the reader's own cursor, epoch, gate and primed flag |
| BusFeedback.CorrectionIsOfTheRing | core/audiohub-airplay/src/bus.rs:398-427 | The correction is that of the playing reader with the fewest frames of the ring left, a level between zero and the capacity, or zero when nobody plays the running epoch |
| BusReader.UndisturbedReadsPass | core/audiohub-airplay/src/bus.rs:630-640 | Without a reset, and without a gate change on a timed stream, a read passes its final check |
| BusReader.StartIsStable | core/audiohub-airplay/src/bus.rs:577-608 | Where a read begins, found while frames are pushed, is where it begins by the history at its final check |
| BusRun.ReadMany | core/audiohub-airplay/src/bus.rs:517-655 | Any number of reads with interference: on an untimed stream in its epoch, the sum of copied, the sum of dropped and the unread frames are exactly what was pushed since the reader's place in the epoch |
| BusRun.OneReadTallies | core/audiohub-airplay/src/bus.rs:561-655 | Whatever a read does, the books continue in the same epoch, start anew at the reset point in another, and agree with what the reads of the epoch reported |
| BusRun.RunIsConserved | core/audiohub-airplay/src/bus.rs:561-629 | Books that agree with the reads conserve every frame of the epoch over the run |
| BusReader.FramesAreConserved | core/audiohub-airplay/src/bus.rs:561-629 | On an untimed stream the books of a reader, at any moment of the epoch, satisfy copied + dropped + unread = head - start with nothing late |
| BusReader.UncountedFrames | core/audiohub-airplay/src/bus.rs:609-640 | On any stream the only passed frames missing from the counters are untimed frames on a timed stream and those of voided reads |
| BusReader.AccountIsStable | core/audiohub-airplay/src/bus.rs:545-629 | No step of other threads can make a reader's books wrong |
| BusReader.GatheredFatesHold | core/audiohub-airplay/src/bus.rs:610-640 | Fates gathered under a header hold for the epoch when no reset came in between |
| BusWriter.PcmBus.ResetLocked | core/audiohub-airplay/src/bus.rs:440-458 | A reset, store by store, ends in a settled new epoch with floor and reset point at the next frame, or closes an exhausted bus for good; the frames stay |
| BusWriter.PcmBus.Activate | core/audiohub-airplay/src/bus.rs:275-280 | Activation ends in a reset for the new session with untimed state |
| BusWriter.PcmBus.End | core/audiohub-airplay/src/bus.rs:282-288 | Ending resets to no owner exactly when the session owns the bus, and changes nothing otherwise |
| BusWriter.PcmBus.Flush | core/audiohub-airplay/src/bus.rs:290-295 | Flushing starts a new epoch of the same session exactly when it owns the bus |
| BusWriter.PcmBus.StoreFrame | core/audiohub-airplay/src/bus.rs:366-384 | The stores of one frame make room, fill exactly its slot and append it to the history |
| BusWriter.PcmBus.Push | core/audiohub-airplay/src/bus.rs:329-392 | A push appends exactly its frames, in order, in one epoch of its session, when it is non-empty, by the owner, with a positive step, no gate or the nonzero gate asked for, numbers within 2^63 - 1, every frame's time inside a signed 64-bit word, and an epoch is left; any other changes nothing but the epoch of an exhausted bus; the answer tells which |
| BusWriter.AdmittedAsPromised | core/audiohub-airplay/src/bus.rs:329-365 | The guard, which looks at the two ends of a push, admits exactly the pushes whose every frame has a representable time and number |
| BusWriter.AcceptablePushesAreTaken | core/audiohub-airplay/src/bus.rs:329-392 | An acceptable push is taken in full while an epoch is left, each stored time fits a signed 64-bit word, and a push that is not acceptable leaves the bus as it was |
| BusWriter.UntimedPushJoinsTimedStream | core/audiohub-airplay/src/bus.rs:329-365 | A push without timing is admitted to a timed stream: its frames join the epoch, carry no gate, and the stream stays timed |
| BusWriter.PushedFramesAreTold | core/audiohub-airplay/src/bus.rs:366-387 | Frame i of an admitted push is found under its own number with its own samples, non-finite ones silenced, its presentation time to half a nanosecond, and the push's end, gate, epoch and session |
| BusAlign.AlignEnds | core/audiohub-airplay/src/bus.rs:580-608 | Every alignment ends at the head, at a foreign gate, at a frame within half a step of the target, or before a future frame with the silence its distance in nanoseconds asks for at 48 kHz; every frame passed carries the gate and lies late |
| BusAlign.SilenceIsRight | core/audiohub-airplay/src/bus.rs:597-600 | The silence before a future frame differs from the distance to it by at most half an output frame, and the whole block is silent exactly when the frame lies no closer than half a frame before its end |
| BusAlign.AlignIsFrameSearch | core/audiohub-airplay/src/bus.rs:580-608 | With exact times, jumping spans reaches the very frame that passing one frame at a time reaches |
| BusAlign.SpanFrameTimes | core/audiohub-airplay/src/bus.rs:378-380 | Inside one push a frame at the computed distance is due and every earlier one is late, rounding of stored times included |
| BusAlign.AlignIsStable | core/audiohub-airplay/src/bus.rs:580-608 | Frames pushed meanwhile do not change where an alignment ends |
| VersionLock.StepKeepsInv | core/audiohub-airplay/src/bus.rs:642-651 | Every store of a publication keeps the lock's invariant; versions only grow |
| VersionLock.SharedLock.Observe | core/audiohub-airplay/src/bus.rs:401-410 | Observed words are one whole publication, the latest when the version was checked, however the stores fell between the loads; and there are some whenever nothing was published meanwhile and the lock is open |
| VersionLock.SharedLock.Publish | core/audiohub-airplay/src/bus.rs:642-651 | A publication becomes visible as a whole, as the machine's own stores make it; with no version left the lock closes and changes nothing else |
| VersionLock.PublicationIsItsStores | core/audiohub-airplay/src/bus.rs:642-651 | The stores of a publication, stepped by the machine, give exactly the new words under the next even version, and close the lock exactly when that would pass 2^64 - 1 |
| VersionLock.VersionNamesPublication | core/audiohub-airplay/src/bus.rs:243-270 | An even version identifies one publication over every run |
| ClockServo.CorrectionPpm | core/audiohub-airplay/src/bus.rs:398-427 | The correction is decided by a least-filled reader among those that qualify, and is 0 when none does |
| ClockServo.CorrectionFromFeedback | core/audiohub-airplay/src/bus.rs:398-427 | Read while the readers run, each reader enters with one whole publication of its own or not at all, judged by the gate found when it was looked at, and one that publishes nothing meanwhile and is not retired enters with its latest |
| ClockServo.CorrectionIsUnique | core/audiohub-airplay/src/bus.rs:400-416 | The order in which readers are visited does not matter |
| ClockServo.CorrectionIsBounded | core/audiohub-airplay/src/bus.rs:415-426 | The correction stays within the clamp, readers that do not qualify cannot bend it, and one more qualified reader never lowers it |
| ClockServo.DistanceNeverGrows | core/audiohub-airplay/src/bus.rs:415-426 | For a constant source error each quantum moves the fill towards its fixed point and never past it |
| ClockServo.BandIsKept | core/audiohub-airplay/src/bus.rs:415-426 | With whole-frame fill levels and any source error within the bound, one quantum cannot leave the band around the two extreme fixed points |
| ClockServo.BandIsKeptForever | core/audiohub-airplay/src/convert.rs:385-401 | The same over any number of quanta with the error changing at will |
| ClockServo.FixedPointExists | core/audiohub-airplay/src/bus.rs:415-426 | A constant error has a fixed point exactly when the clamp lets the cancelling correction through |
| ClockServo.LevelDrifts | core/audiohub-airplay/src/bus.rs:423-426 | Otherwise the fill, as long as the ring neither empties nor overflows, drifts by at least a fixed amount each quantum |
| ClockServo.DefaultBusNeverRunsDry | core/audiohub-airplay/src/convert.rs:370-401 | With the default configuration and any source within 200 ppm the fill stays between 1119 and 2721 frames forever |
| ClosedLoop.QuantumMovesLevel | core/audiohub-airplay/src/bus.rs:415-426 | With the real resampler a quantum moves the level, fill and frames held in the filter together, as the ideal ratio would, to within 0.0036 frames |
| ClosedLoop.BandIsKeptForever | core/audiohub-airplay/src/convert.rs:370-401 | With the real resampler, whole source frames and any source error within the bound, the level stays in the band over any number of quanta, and the fill within seven frames of it |
| ClosedLoop.DefaultBusNeverRunsDry | core/audiohub-airplay/src/convert.rs:370-401 | The default configuration with the real resampler, at any rate from 8 to 384 kHz and any source within 200 ppm, keeps between 1080 and 2760 frames forever |
| Telemetry.StepKeepsInv | core/audiohub-airplay/src/telemetry.rs:1339-1434 | Every load, store, increment and decrement by recorders, snapshots and resets keeps the protocol's invariant |
| Telemetry.Run | core/audiohub-airplay/src/telemetry.rs:1350-1447 | The invariant holds after every interleaving |
| Telemetry.GuardsAreSafe | core/audiohub-airplay/src/telemetry.rs:1358-1434 | While a validated guard of generation g is held the active generation is g or g+1, no reset touches its slot, and the slot shows exactly generation g |
| Telemetry.GuardedSlotIsKept | core/audiohub-airplay/src/telemetry.rs:1408-1428 | No step of any thread clears a guarded slot or replaces its boundary |
| Telemetry.WaitEndsAlone | core/audiohub-airplay/src/telemetry.rs:1417-1428 | When a reset's wait ends, no validated guard is left on the slot it is about to clear, even if recorders sit between increment and re-check |
| Telemetry.StaleTokensAreInert | core/audiohub-airplay/src/telemetry.rs:1370-1385 | A step under a token of an older generation changes neither the active slot nor any later generation, and no counter at all unless it was validated |
| Telemetry.RecordingsStayInTheirGeneration | core/audiohub-airplay/src/telemetry.rs:1370-1385 | Whatever happens between its steps, a recorder never counts in a generation other than its token's |
| Telemetry.ValidatedRecordingCounts | core/audiohub-airplay/src/telemetry.rs:1652-1718 | A validated recording adds one to exactly its counters in its own generation's slot and leaves the other slot alone; no recorder ends uncounted while its generation is active (next rows) |
| Telemetry.RecordsOnce | core/audiohub-airplay/src/telemetry.rs:1684-1733 | A recorder bumps only counters that do not count it yet |
| Telemetry.FinishedRecorderHasCounted | core/audiohub-airplay/src/telemetry.rs:1370-1385 | A recorder that is done while its generation is still active is in exactly the counters of its event |
| Telemetry.CountersAreTheRecorders | core/audiohub-airplay/src/telemetry.rs:1652-1718 | Every counter of the active slot lies between the recorders of its event that are done and those that have begun |
| Telemetry.RecordersAddOne | core/audiohub-airplay/src/telemetry.rs:1800-1826 | A recorder begun under the active generation and done before any reset is published has added one to the counters of its event, over any run in between |
| Telemetry.RecorderFinishes | core/audiohub-airplay/src/telemetry.rs:1339-1385 | A recorder left alone is done within five of its steps |
| Telemetry.PreparedMeetsItsOutcome | core/audiohub-airplay/src/telemetry.rs:1684-1734 | A prepared request can meet any of the three outcomes while its generation is active, and is then counted there |
| Telemetry.SnapshotAnswers | core/audiohub-airplay/src/telemetry.rs:1387-1411 | A snapshot asked for and left alone returns, within eleven steps, the boundary and every counter of the active slot |
| Telemetry.FinishedSnapshotIsWhole | core/audiohub-airplay/src/telemetry.rs:1387-1406 | In every reachable state a snapshot that is done has the boundary and all seven counters of one generation, balanced, and none larger than that generation has counted |
| Telemetry.ReplacedSnapshotStartsOver | core/audiohub-airplay/src/telemetry.rs:1398-1405 | A snapshot whose generation was replaced releases its slot and starts over |
| Telemetry.ResetFinishes | core/audiohub-airplay/src/telemetry.rs:1419-1447 | A waiting reset whose slot has no user publishes the next generation within ten steps, with the given boundary and zero counters |
| Telemetry.ResetPublishesTheNext | core/audiohub-airplay/src/telemetry.rs:1413-1447 | A reset begins whenever there is a generation left below 2^64, and publishes it if the other slot has no users |
| Telemetry.GenerationBalances | core/audiohub-airplay/src/telemetry.rs:807-820 | In every generation at every moment outcomes do not exceed preparations and every peer-list request is parsed or rejected |
| Telemetry.ActiveSlotBalances | core/audiohub-airplay/src/telemetry.rs:836-883 | The counters of the active slot balance in every reachable state |
| Telemetry.SnapshotIsLinearizable | core/audiohub-airplay/src/telemetry.rs:1387-1406 | A returned snapshot belongs to one generation, active throughout: boundary and every counter are values that generation had between validation and final check, the in-flight gauge never saturates and peer-list sums are exact |
| Telemetry.ResetPublishesItsAnswer | core/audiohub-airplay/src/telemetry.rs:1429-1445 | What reset returns equals the slot it publishes at that moment, and the replaced generation stays readable |
| SessionHistory.UnsetFlagMeansComplete | core/audiohub-airplay/src/telemetry.rs:1022-1032 | If the truncation flag read later is unset, the history read earlier was complete; it never exceeds the limit |
| SessionHistory.ActiveStaysObserved | core/audiohub-airplay/src/telemetry.rs:1582-1596 | A connection in the history stays there until it is unregistered, whatever is noted meanwhile |
| SessionHistory.NotingObserves | core/audiohub-airplay/src/telemetry.rs:1568-1598 | Noting enters a connection exactly unless the history is full of active ones |
| SessionHistory.NotingForgetsTheLeast | core/audiohub-airplay/src/telemetry.rs:1568-1598 | Noting forgets a connection exactly when the history is full, the noted one is not in it, and the forgotten one is the least inactive one |
| SessionHistory.TelemetrySlot.NoteSession | core/audiohub-airplay/src/telemetry.rs:1568-1598 | Noting evicts only the least inactive identity, and only when full |
| SessionHistory.TelemetrySlot.RegisterSession | core/audiohub-airplay/src/telemetry.rs:1602-1616 | Registering adds the identity to the active ones only |
| SessionHistory.TelemetrySlot.UnregisterSession | core/audiohub-airplay/src/telemetry.rs:1618-1632 | Unregistering removes it from the active ones only |
| SessionProof.StepKeepsTable | core/audiohub-airplay/src/runtime.rs:663-1180 | Every call keeps the table consistent: each entry names the session now in the table, stored artwork is that session's latest, ids are distinct |
| SessionProof.RunKeepsTable | core/audiohub-airplay/src/runtime.rs:663-1180 | The table is consistent after every sequence of calls |
| SessionProperties.StepIsTracked | core/audiohub-airplay/src/runtime.rs:682-692 | Every change of the remote-control map or the receiver channel moves its revision |
| SessionProperties.RunIsTracked | core/audiohub-airplay/src/runtime.rs:682-692 | Over every run with unbounded counters an unmoved revision means an unchanged map or channel |
| SessionProperties.CurrentLeaseMeansUnchanged | core/audiohub-airplay/src/runtime.rs:419-421 | With 64-bit wrapping revisions, a DACP lease still current within fewer than 2^63 calls guards an unchanged map, and its session is in the table under the same id |
| SessionProperties.CurrentReceiverMeansUnchanged | core/audiohub-airplay/src/runtime.rs:476-479 | The same for the receiver-volume lease |
| SessionProperties.ActivationRevokesExactly | core/audiohub-airplay/src/runtime.rs:890-897 | Activating a sink revokes DACP leases exactly when its own protocol has a capability, and the receiver channel exactly when there is one |
| SessionProperties.RetiredIdsStayRetired | core/audiohub-airplay/src/runtime.rs:838-841 | An id that left the table never returns to it |
| SessionProperties.EndedSinkNeverReturns | core/audiohub-airplay/src/runtime.rs:1072-1102 | After the locked part of ending a sink no lease is granted for its id, even before the bus is released, and after the release it never owns the bus again |
| SessionProperties.RetiredNamesNothing | core/audiohub-airplay/src/runtime.rs:1078-1092 | No capability, artwork or receiver channel names an id that is not in the table |
| SessionMessages.StaleMessagesAreInert | core/audiohub-airplay/src/runtime.rs:707-749 | Any number of messages about replaced streams, sinks or owners, in any order, changes nothing |
| SessionMessages.AcceptedEnsureInstalls | core/audiohub-airplay/src/runtime.rs:696-806 | A milestone is refused exactly when its id is below the newest one known or it would replace the session on the bus; an accepted one is the newest id, with the session, peer and capability it asked for |
| SessionMessages.InstalledIdsOnlyGrow | core/audiohub-airplay/src/runtime.rs:710-744 | Without sink callbacks and teardowns installed stream ids only grow, so older ones stay refused |
| SessionMessages.EndedStreamAdmitsOldIds | core/audiohub-airplay/src/runtime.rs:1111-1118 | After a stream id is removed an older id is refused exactly when another protocol has one at least as new |
| SessionVolumes.AcceptedVolumeAdvances | core/audiohub-airplay/src/runtime.rs:914-959 | An accepted volume command comes from the stream on the bus and its revision is strictly larger, except exactly for an unnumbered command at the largest revision |
| SessionVolumes.VolumeIsAcceptedExactly | core/audiohub-airplay/src/runtime.rs:921-959 | A volume command is accepted exactly when finite, from the bound stream of the session on the bus and, if numbered, above the stored revision; then exactly the volume and the revision change |
| SessionVolumes.VolumeFallsExactly | core/audiohub-airplay/src/runtime.rs:663-1131 | A revision falls exactly when one of the listed calls drops the numbering: stopping, a newer stream, another stream's sink, the end of the sink or of the stream |
| SessionVolumes.VolumeRevisionsNeverFall | core/audiohub-airplay/src/runtime.rs:938-957 | Over a run without such a call a protocol's revision never falls |
| SessionVolumes.CommandsAreNumberedUpwards | core/audiohub-airplay/src/runtime.rs:938-957 | Of two accepted commands without such a call in between the later has the larger revision, except exactly when it is unnumbered and the largest was given out |
| SessionVolumes.IdentitiesAdvance | core/audiohub-airplay/src/runtime.rs:434-445 | Of two commands accepted for one session the later has the larger revision, that exception apart, whatever came in between but the end of the stream bound at that point |
| SessionVolumes.EndedStreamRestartsNumbering | core/audiohub-airplay/src/runtime.rs:1111-1131 | After the end of the stream on the bus a new stream gets the same session, and its commands are accepted with exactly the revisions other than zero |
| SessionVolumes.CommandIdentityRepeats | core/audiohub-airplay/src/runtime.rs:434-445 | A run in which two commands are accepted as session 1, revision 7 |
| SessionMessages.SnapshotSelectsAtMostOne | core/audiohub-airplay/src/runtime.rs:1214-1233 | After any run the status snapshot marks at most one session, the one that had the bus |
| SessionMessages.MilestoneKeepsOrStarts | core/audiohub-airplay/src/runtime.rs:750-788 | An accepted milestone keeps the running session's content, and starts an empty one under a new id exactly when the stream changed or there was none |
| SessionMessages.MilestoneKeepsTheRest | core/audiohub-airplay/src/runtime.rs:696-806 | A milestone that brings no newer stream touches nothing but sessions, stream ids and capabilities, and no capability when it says to keep them |
| SessionMessages.SinkInheritsItsStream | core/audiohub-airplay/src/runtime.rs:842-901 | A sink bound to the stream it already has inherits content, artwork, volume numbering and capabilities under its new id; bound to another stream it inherits none |
| SessionMessages.ArtworkIsStoredExactly | core/audiohub-airplay/src/runtime.rs:1018-1060 | Artwork is taken exactly from the bound stream of a session, and stored exactly when non-empty and of type JPEG or PNG in any case, under a revision above every earlier one; otherwise it is forgotten |
| SessionMessages.StoredFlagsClashExactly | core/audiohub-airplay/src/runtime.rs:779-783 | After an accepted milestone of p both stored flags are set exactly when the bus is idle or carries p's session and the other protocol's session was flagged |
| SessionMessages.StoredFlagsDoClash | core/audiohub-airplay/src/runtime.rs:1917-1924 | A run with the listener's stream ids after which both stored flags are set |
| SessionMessages.OtherStreamIsUntouched | core/audiohub-airplay/src/runtime.rs:696-1180 | A call about one protocol leaves everything kept for the other as it is, the selection flag apart |
| SessionMessages.EditsNameTheirFields | core/audiohub-airplay/src/runtime.rs:961-1016 | An accepted edit changes exactly the fields it names of the bound stream's session; any other changes nothing |
| SessionMessages.StoppingForgetsEverything | core/audiohub-airplay/src/runtime.rs:663-680 | Stopping and failing forget every stream and revoke exactly the leases there were; other phases keep both; owner and ids in flight stay |
| SessionMessages.OfferedReceiverIsTheOwners | core/audiohub-airplay/src/runtime.rs:1158-1180 | The receiver channel becomes the one offered by the stream on the bus; leases end exactly when it changed |
| SessionVolumes.LargestRevisionRepeats | core/audiohub-airplay/src/runtime.rs:940-948 | A run in which an unnumbered command is accepted at the largest revision and keeps it |
| SessionProperties.LeaseSurvivesTheOtherSink | core/audiohub-airplay/src/runtime.rs:890-897 | A run in which a DACP lease is still current while the bus belongs to the other protocol's sink |
| SessionCredentials.RevisionsMoveExactly | core/audiohub-airplay/src/runtime.rs:682-692 | Each call moves the remote revision exactly when it changes the map of capabilities, and the receiver revision exactly when it changes the channel |
| SessionCredentials.RevisionStaysExactly | core/audiohub-airplay/src/runtime.rs:682-692 | Over any run with unbounded counters the remote revision is where it was exactly when no call moved a capability |
| SessionCredentials.LeaseStaysExactly | core/audiohub-airplay/src/runtime.rs:402-421 | With 64-bit wrapping revisions a DACP lease is current after a run of fewer than 2^63 calls exactly when no call moved a capability |
| SessionCredentials.EndedStreamLosesItsCredentials | core/audiohub-airplay/src/runtime.rs:1111-1131 | The end of the bound stream takes its capability, artwork, numbering and binding, and the receiver channel exactly when it names that session; no lease is granted for the session, an earlier one stays current exactly when there was no capability; session, owner and the other protocol stay |
| SessionCredentials.EndedSinkLosesEverything | core/audiohub-airplay/src/runtime.rs:1072-1095 | The end of the current sink takes session, capability, artwork, numbering, binding and its receiver channel and leaves the other protocol and the owner; any other end changes nothing; earlier leases stay current exactly when there was no capability |
| SessionCredentials.EndedStreamGrantsNoLease | core/audiohub-airplay/src/runtime.rs:1111-1156 | After the end of the bound stream no run without a new capability of that protocol grants a lease for the session, or makes a lease taken before current again |
| SharedStatus.Shared.ChangePhase | core/audiohub-airplay/src/runtime.rs:663-680 | Stopping or failing clears the table and revokes what was there |
| SharedStatus.Shared.AdoptStream | core/audiohub-airplay/src/runtime.rs:707-749 | Stream ids are accepted or refused as specified, and an accepted newer id drops what the old stream left |
| SharedStatus.Shared.EnsureSession | core/audiohub-airplay/src/runtime.rs:696-806 | State and answer are those of the milestone operation |
| SharedStatus.Shared.MintId | core/audiohub-airplay/src/runtime.rs:838-841 | Hands out the next id, never one in use |
| SharedStatus.Shared.InstallSink | core/audiohub-airplay/src/runtime.rs:842-901 | The locked part installs the session, moves every capability to it and selects it alone |
| SharedStatus.Shared.ActivateSink | core/audiohub-airplay/src/runtime.rs:827-904 | Without interference activation is mint, install and take, and the new sink owns the bus |
| SharedStatus.Shared.AcceptVolume | core/audiohub-airplay/src/runtime.rs:921-959 | State and answer are those of the volume operation |
| SharedStatus.Shared.AcceptEdit | core/audiohub-airplay/src/runtime.rs:961-1016 | Metadata, progress and pause reach only the bound stream's session |
| SharedStatus.Shared.AcceptArtwork | core/audiohub-airplay/src/runtime.rs:1018-1060 | Each accepted artwork message gets a new revision; only a non-empty JPEG or PNG is stored |
| SharedStatus.Shared.RemoveSink | core/audiohub-airplay/src/runtime.rs:1072-1095 | The locked part removes the sink and its capabilities exactly when it is still the current one |
| SharedStatus.Shared.FinishSink | core/audiohub-airplay/src/runtime.rs:1072-1109 | Removal then release; a sink that had finished activating is gone afterwards |
| SharedStatus.Shared.FinishUpstream | core/audiohub-airplay/src/runtime.rs:1111-1131 | State after the end of a stream; what that takes and leaves is in `SessionCredentials` |
| SharedStatus.Shared.OfferReceiver | core/audiohub-airplay/src/runtime.rs:1158-1180 | The receiver channel changes only for the stream on the bus, and then with its revision |
| SharedStatus.Shared.RemoteLease | core/audiohub-airplay/src/runtime.rs:1144-1156 | A lease is current when given and names the session asked for; none is given only when the map has none |
| SharedStatus.Shared.ReceiverVolumeLease | core/audiohub-airplay/src/runtime.rs:1182-1196 | A receiver lease names a session in the table |
| SharedStatus.Shared.StatusSnapshot | core/audiohub-airplay/src/runtime.rs:1214-1233 | At most one session is marked |
| Resampler.BlocksDoNotMatter | core/audiohub-dsp/src/lib.rs:140-228 | However a stream of frames is cut into blocks, the output and the state left, position, fraction and history, are those of one block |
| Resampler.BlocksJoin | core/audiohub-dsp/src/lib.rs:140-228 | Two blocks one after the other are the block of both |
| Resampler.FramesAreOnTime | core/audiohub-dsp/src/lib.rs:111-115 | Output frame n is the filter read n steps after the announced source position, up to the rounded residues, and reads only history and block |
| Resampler.FilterInterpolates | core/audiohub-dsp/src/lib.rs:175-198 | Between two rows of the bank a frame is the blend of the two rows' own sums of products, weighted by the distance to each, for any input |
| Resampler.RateIsKept | core/audiohub-dsp/src/lib.rs:200-219 | Frames out times the step are frames in plus what the position moved, up to the rounded residues |
| Resampler.StreamsDoNotDrift | core/audiohub-dsp/src/lib.rs:161-219 | Over a stream of any length the number of output frames is the input divided by the step, up to one step and the residues |
| Resampler.FractionsAdvance | core/audiohub-dsp/src/lib.rs:203-216 | At a step a/b with b up to 10^12 no residue is ever rounded away |
| Resampler.WholeBlocksKeepPhase | core/audiohub-dsp/src/lib.rs:161-219 | A block that is a whole number m of such steps gives exactly m frames and leaves the phase as it was |
| Resampler.TenMillisecondsAt44100 | core/audiohub-dsp/src/lib.rs:207-216 | 441 frames at 44.1 kHz give exactly 480 frames at 48 kHz, block after block |
| Resampler.ShortcutsAreExact | core/audiohub-dsp/src/lib.rs:166-198 | With rows that add up to one, and a first row that selects the middle frame in a unity bank, the constant and whole-position shortcuts give the filter's own sample |
| ClockResampler.BankIsAsDesigned | core/audiohub-dsp/src/lib.rs:39-60 | Scaling each row of sinc values makes the bank one whose shortcuts are exact, the pass-through of whole positions included |
| ClockResampler.FilterSpansOutput | core/audiohub-dsp/src/lib.rs:35-37 | The filter spans 128 output frames at any ratio up to 8:1, is no longer than a whole ratio needs, and never exceeds its 1024 taps |
| Resampler.ConstantsStay | core/audiohub-dsp/src/lib.rs:147-153 | A constant stream comes out as that constant at any step and any coefficients |
| Resampler.SeededConstantsStay | core/audiohub-dsp/src/lib.rs:88-102 | A stream seeded with its first frame and constant comes out as that constant from the first output frame, at any correction |
| Resampler.UnityOnlyDelays | core/audiohub-dsp/src/lib.rs:168-173 | At equal rates without correction the output is the input delayed by half the taps, sample by sample |
| Resampler.LanesAreApart | core/audiohub-dsp/src/lib.rs:180-198 | What comes out on a lane depends on that lane's input alone, so lanes do not mix and equal lanes stay equal |
| ClockResampler.ClockResampler.constructor | core/audiohub-dsp/src/lib.rs:32-73 | A new resampler has the bank for its rates and silence as its past |
| ClockResampler.ClockResampler.ResetSeeded | core/audiohub-dsp/src/lib.rs:92-102 | A reset leaves the state of a stream whose past repeats the given frame |
| ClockResampler.ClockResampler.SetCorrection | core/audiohub-dsp/src/lib.rs:121-127 | A correction within one percent sets the step, any other is ignored |
| ClockResampler.ClockResampler.Render | core/audiohub-dsp/src/lib.rs:147-217 | The loop with its shortcuts gives the specified frames and position |
| ClockResampler.ClockResampler.Shift | core/audiohub-dsp/src/lib.rs:220-226 | The history is shifted in place to the newest frames of history and block, for blocks shorter and longer than it |
| ClockResampler.ClockResampler.Process | core/audiohub-dsp/src/lib.rs:140-227 | A block computes the specified frames and state |
| Converter.SplitsDoNotMatter | core/audiohub-airplay/src/convert.rs:164-211 | Every split of a sample stream, even inside frames, gives the output and final state of the whole, the resampler's blocks included |
| Converter.ChunkSplits | core/audiohub-airplay/src/convert.rs:164-211 | Cutting one chunk anywhere changes nothing |
| Converter.TimingIsOfTheFrames | core/audiohub-airplay/src/convert.rs:200-210 | The n-th frame of a chunk is the filter read at the announced offset plus n announced intervals, from the start of the chunk |
| Converter.TimingContinues | core/audiohub-airplay/src/convert.rs:200-210 | Where the next chunk will place its first frame is where this chunk's frames leave off, samples held over included |
| Converter.SamplesAreKept | core/audiohub-airplay/src/convert.rs:164-191 | Frames times channels plus samples held are the samples held before plus the chunk |
| Converter.FramesAreTheStreams | core/audiohub-airplay/src/convert.rs:164-191 | After a flush the resampler is given exactly frame k of the stream for each k, and frames x channels + held samples = samples |
| Converter.FeedHolds | core/audiohub-airplay/src/convert.rs:167-190 | One sample completes exactly the frame of the samples held, or is held too |
| Converter.FlushIsFresh | core/audiohub-airplay/src/convert.rs:213-220 | A flushed converter gives the same output as a fresh one for every later sequence of calls and corrections |
| Converter.RatioIsSafe | core/audiohub-airplay/src/convert.rs:156-162 | Whatever correction is asked for, the ratio stays within 2000 ppm and a larger correction consumes less input per output |
| Converter.StreamsKeepTheCorrectedRate | core/audiohub-airplay/src/convert.rs:156-211 | Under any correction asked for, N frames at rate r become M frames with M r off from 48000 N (1 + c/10^6), c the clamped correction, by no more than one output frame and the residues, however the stream is cut |
| Converter.ConvertStream | core/audiohub-airplay/src/convert.rs:156-211 | The same of the converter object fed piece by piece, with N the frames its samples make up |
| Converter.FramesAreFullScale | core/audiohub-airplay/src/convert.rs:164-191 | A stereo frame is its two samples at 1/32768, any other the mean of its own channels on both sides |
| Converter.StreamingFrameConverter.ProcessI16 | core/audiohub-airplay/src/convert.rs:164-211 | The chunk loop over mono, stereo and multichannel samples, the seeding, the correction and the resampler's block compute the specified state, output and timing |
| Converter.StreamingFrameConverter.AssembleChunk | core/audiohub-airplay/src/convert.rs:164-191 | The staged frames and the partial frame are those of the chunk |
| Converter.StreamingFrameConverter.SetCorrection | core/audiohub-airplay/src/convert.rs:156-162 | The correction is clamped, or zero when not finite, and nothing else changes |
| Converter.StreamingFrameConverter.Flush | core/audiohub-airplay/src/convert.rs:213-220 | Partial input is forgotten and the next frame seeds the resampler |
| Converter.Create | core/audiohub-airplay/src/convert.rs:123-154 | A converter is refused exactly for a zero rate, a ratio above 8:1 or no channels, with the first of these reasons |
| Converter.RefusalsAreExact | core/audiohub-airplay/src/convert.rs:123-154 | Rates from 1 to 384000 Hz with at least one channel are accepted, all others refused, zero and too fast told apart |
| MacService.PassingIsLater | app/src-tauri/src/service.rs:767-782 | Whatever processes start and end, one that runs now and started before ran then under the same id |
| MacService.NeverSeenAgain | app/src-tauri/src/service.rs:767-782 | An instance that ended is never found again, even when its process id is reused |
| MacService.ActivationPlan | app/src-tauri/src/service.rs:1158-1175 | Foreign endpoints are refused, absent ones lead to a spawn, a ready current one is kept unless a restart is asked for, and only verified ones are replaced |
| MacService.Service.StillRunning | app/src-tauri/src/service.rs:767-782 | Two separate observations that agree mean the captured instance runs; otherwise it is gone for good |
| MacService.Service.WaitForExit | app/src-tauri/src/service.rs:784-791 | A wait that reports exit means gone for good |
| MacService.Service.SignalOwner | app/src-tauri/src/service.rs:969-1010 | At most one signal is sent, and only to the captured id, image and start time, verified and owned by this user; silent success means gone for good |
| MacService.Service.StopOwner | app/src-tauri/src/service.rs:1017-1082 | Every signal of a stop reaches the captured instance only, the asking one first and the killing one only after it; success means it is gone for good, and a failure that it is not this user's or no longer verified, a signal was denied, or it runs on after both |
| MacService.Service.SignalUntilGone | app/src-tauri/src/service.rs:1063-1081 | SIGTERM, and SIGKILL only after it and only if the instance still runs; a failure has one of the reasons above |
| MacService.Service.AllPids | app/src-tauri/src/service.rs:875-916 | A successful listing is complete for one moment of the call; one that fails was refused, or there were no processes or at least 512 |
| MacService.Service.CaptureProcess | app/src-tauri/src/service.rs:944-963 | A verified service of this user is captured with its exact identity, or has ended meanwhile |
| MacService.Service.ScanOwners | app/src-tauri/src/service.rs:933-967 | Every verified service running at the listing is captured or gone for good, the excluded one apart |
| MacService.Service.StopScanned | app/src-tauri/src/service.rs:1085-1092 | Success means every verified service of the listing is gone for good; a failure names the listing, capture or stop that made it; the excluded id is never signalled |
| MacService.Service.Inspect | app/src-tauri/src/service.rs:645-679 | The inspection is fixed by what the four observations show: image, start time, reachability and verification, each at its own moment |
| MacService.Service.CaptureEndpoint | app/src-tauri/src/service.rs:836-872 | Only a verified endpoint process with image and start time is captured |
| MacService.InspectionIsExact | app/src-tauri/src/service.rs:629-679 | The state reported is foreign exactly when the process is there or the port answers and the image is neither the installed nor a verified one, gone exactly when neither is there, current exactly when the image is the installed one; a verified state carries image and start time, and is ready exactly when the port answers |
| MacService.SettledMeansGone | app/src-tauri/src/service.rs:1085-1092 | What one listing settles covers every verified service that ran before the listing |
| MacService.Service.StopDaemon | app/src-tauri/src/service.rs:1106-1125 | If the inspected endpoint is foreign nothing is signalled and the answer is a conflict; success means the endpoint's verified instance and every verified service running at the start are gone for good, and that none was there when it says so; a failure names what made it |
| MacService.Service.AwaitChild | app/src-tauri/src/main.rs:775-874 | A wait succeeds only when the started child runs and the endpoint, read then, names it and is ready; it is a conflict only when another id has a ready endpoint |
| MacService.Service.EnsureDaemon | app/src-tauri/src/main.rs:658-876 | The last step looks at the endpoint again: it starts a service exactly when nothing is there and the binary can be started, and without a start succeeds exactly for a ready one; after a start it succeeds only with that very child at the endpoint |
| MacService.Service.TryStart | app/src-tauri/src/main.rs:755-775 | A start succeeds exactly when the installed binary can be started, and then adds one process of this user, captured as it began |
| MacService.Service.Activate | app/src-tauri/src/service.rs:1182-1228 | What happens is decided by the endpoint as inspected: refusal signals and starts nothing, a kept service is never signalled, otherwise every verified service is gone for good before the second look and one is started exactly when nothing is there and the binary can be, and counts only when it has the endpoint itself; a failure before that has a listing, capture or stop that failed for a stated reason |
| MacService.StrangersAreLeftAlone | app/src-tauri/src/service.rs:1176-1228 | Activation with a stranger at the endpoint answers an error, sends no signal and starts no service, and starts none beside a stranger found at the second look |
| WebPath.PercentDecode | app/src-tauri/src/webui.rs:293-311 | The byte loop accepts and yields exactly what the decoding function and UTF-8 allow |
| WebPath.DecodeIsRfc3986 | app/src-tauri/src/webui.rs:293-311 | Decoding yields x exactly for text written as percent-encoding of x (section 2.1 of RFC 3986) |
| WebPath.HexIsTheDigit | app/src-tauri/src/webui.rs:298-304 | A hexadecimal digit has its value in either case, and nothing else is one |
| WebPath.Utf8IsRfc3629 | app/src-tauri/src/webui.rs:309 | Text is accepted as UTF-8 exactly when it is the encoding of a sequence of Unicode scalar values (section 3 of RFC 3629) |
| WebPath.DecodeReads | app/src-tauri/src/webui.rs:293-311 | Decoding undoes every percent-encoding |
| WebPath.DecodeShrinks | app/src-tauri/src/webui.rs:293-311 | Decoding never lengthens, and shortens any text with a percent sign |
| WebPath.Sanitize | app/src-tauri/src/webui.rs:317-343 | The gate's loop over segments computes the specified list or refuses |
| WebPath.AcceptedIsClean | app/src-tauri/src/webui.rs:317-343 | An accepted path of at most 1024 bytes is at most 24 non-empty UTF-8 names without separator, NUL, dot or dot-dot, together the decoded path without its separators |
| WebPath.GoodListsAreAccepted | app/src-tauri/src/webui.rs:317-343 | Every list of at most 24 good names, percent-encoded in any way within 1024 bytes, is accepted as that list |
| WebPath.RefusalsHaveReasons | app/src-tauri/src/webui.rs:317-343 | A path is refused exactly when too long, badly encoded, not UTF-8, with a NUL, of more than 24 names or with a bad one: dot, dot-dot or, on Windows, a drive prefix |
| WebPath.SanitizeIsNormal | app/src-tauri/src/webui.rs:317-343 | Written out again the list is read back as itself exactly when no percent sign is left in it |
| WebPath.SplitJoins | app/src-tauri/src/webui.rs:327-328 | Joining and splitting are inverse on lists of separator-free names |

## Left out

- Weak memory: every atomic access is one sequentially consistent step. The bus uses SeqCst throughout; the telemetry generations use acquire and release, whose weaker orders are not modelled.
- Floating point: times, corrections and samples are exact reals; rounding to whole nanoseconds, steps and frames is modelled, rounding of the arithmetic in between is not.
- `ClockResampler` with other than two channels, and the interleaving of samples: each lane is filtered alone (`Resampler.LanesAreApart`). Samples are compared as numbers, so signed zeros and non-finite samples, which no 16-bit input yields, are left out. The windowed sinc values are given; that they vanish at whole distances but one, and that no row adds up to zero, is a premise of `ClockResampler.BankIsAsDesigned`.
- ClosedLoop.BandIsKeptForever: one reader that takes 480 frames each quantum and publishes at once; several readers, or ones that pause, are in `ClockServo.CorrectionPpm` alone.
- The legacy mono views of the bus and the converter (`read_into`, `StreamingPcmConverter`): an average of two samples.
- The bus reader's weak reference to a dropped bus (bus.rs:524-539), which reads as silence.
- BusReader.PcmReader.ReadFrames: which gate a voided timed read found is told by a witness among the states of the read.
- BusAlign.AlignIsFrameSearch: compares the two searches with exact stored times; with times rounded to nanoseconds `BusAlign.AlignEnds` states the result instead.
- Output timing: its age limit of 250 ms, the fence and the cushion added to the delay (bus.rs:259-273); the words themselves are those of `VersionLock`.
- `activate` with session id 0, which the source excludes by a debug assertion; the model ignores such a call.
- Telemetry.GenerationBalances: assumes, as the recorders' callers arrange, one preparation before exactly one outcome under one token.
- Telemetry counters other than seven representative ones, event texts, the event queue and its category bits, and wrap-around of a counter at 2^64.
- SessionProperties.CurrentLeaseMeansUnchanged: session ids and artwork revisions do not wrap; only lease revisions do, which is why it needs the bound on calls. `SessionProperties.RunIsTracked` is the statement for unbounded counters.
- `active_remote_control`, `sender_volume_snapshot`, `artwork`, `session` and the event hub: reads and notifications that change nothing. Whether a receiver channel's sender is alive is a parameter.
- MacService.Service.SignalOwner: the last identity check and the signal are one step, and an instance keeps its image for life; sending a signal can be denied but not misdelivered.
- MacService.Service.EnsureDaemon: ending a child that does not get ready, through the handle of that child (main.rs:795-862), is not modelled; the log file and the lock against concurrent starts are left out. A start is refused the id of a running process.
- MacService.Service.StopOwner: the authenticated shutdown request is an event of the environment, so that it was asked for is not recorded, and the deadline of a wait is at most 30 polls.
- MacService.Service.Inspect: path canonicalisation, hashing and the authenticated hello are answers of the environment; `Inspect` may see a process at one observation and not at the next.
- Sorting and removing duplicates of scanned owners (service.rs:964-965): the listing has no duplicates and the order carries no promise.
- WebPath.Sanitize: the standard library's path components are modelled for single segments: dot, dot-dot and, on Windows, drive prefixes.
- The protocol servers, RTSP, PTP and cryptography, the runtime's threads and sockets, mDNS, the user interface, installers and command-line tools.
