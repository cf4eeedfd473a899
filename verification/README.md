# Verified model of the CS7.1 case sorter

The CS7.1 appliance moves a machine through four layers that must not lie to each other: a
daemon that admits operations and makes them durable, a single serial worker that owns the
link, a two-party line protocol spoken by a host client and by the controller, and the
controller's firmware. This project models the logic of those layers in Dafny and proves what
they promise over every input, every interleaving and every run. `dafny verify dfyconfig.toml`
checks all of it.

**The daemon** (`WorkerQueue`, `WorkerSystem`, `WorkerOnce`, `WorkerStory`, `WorkerReadiness`,
`WorkerEvidence`, `WorkerTheorems`, `Journal`, `Machine`, `Domain`, `DomainTheorems`,
`ConfigTheorems`, `Daemon`, `DaemonFlow`, `DaemonTheorems`). Every region of the worker's condition
lock, of the machine lock and of the journal, every publication of the session state, every wire
action and every resolution of a future is one atomic step; a run is any sequence of enabled steps
of any number of callers and of the owning thread. A `configure` publishes its generations one by
one while it holds the lock, and readers interleave with them. The mutable objects (`SerialWorker`, `JournalFile`,
`MachineState`) are classes proved against the functions the step systems use.

**The protocol** (`Link`, `Client`, `Simulator`, and in `Agreement.dfy` the modules
`SimulatorFacts`, `Exchanges` and `Agreement`). `ProtocolClient` is a class whose
peer, clock and interrupt callback are an arbitrary script; each call's contract says what it
appended to the trace of transport interactions. The repository's own simulator, with its adverse
scenarios and its manual clock, is then proved to agree with the client after every call.

**Event distribution** (`EventRing`, `EventBroadcast`), **codecs** (`Crc`, `Framing`, `Wire`) and
**firmware arithmetic and timers** (`Motion`, `Timers`) follow the same pattern: the mutable code
is a class or a method with its loop, proved against a function, and the promise is proved of that
function.

Modelling choices that a reader should know:

- An operation and its future share one identity, identifiers are fresh when they are issued, and
  a request fingerprint is an injective number. Storage transactions commit wholly or fail; their
  outcome is part of the step.
- Time is a number supplied by the environment and timeouts are choices, so every timeout may
  strike at every point.
- "Command" in the worker's stop claims means the command of an admitted item. Handshakes and the
  profile reads that follow a movement are housekeeping and may follow a stop request.
- The first claim about a stop counts from the step that raises the flag; `close` raises it too.
- The status read that concludes a session intent can succeed only in a READY session: the client
  of any other session is not in v2 and raises before it writes
  (`host/src/cs71_protocol/client.py`, lines 176 to 178).
- A cancelled future (`Future.cancel`) is a possible caller step, although the daemon itself never
  cancels one.
- The client's lines are kept in parsed form; `Wire`, `Crc` and `Framing` relate that form to bytes.
- The simulator refuses (its write raises) a status line that exceeds 64 bytes, which happens with
  CRC on, a four-digit identifier, a fault and three-digit slots. The model has that path.
- The controller's C strings are Dafny strings without NUL; the v1 dispatcher refuses embedded NULs
  before it parses anything.

Where the natural stronger claim is false of the code, the project proves for every state where it
holds and where it does not:

- A `configure` can overwrite a change its caller never saw exactly when the caller guesses a
  generation at least the slack ahead of the one at its read (`OverwritesExactlyWhen`).
- Stored configuration values take effect exactly when no stored version, possibly of an earlier
  daemon life, has a higher generation (`VisibleExactlyWhenNewest`).
- A request that reuses a stored key latches the journal fault exactly when the key has expired
  unpruned and the request is otherwise admissible (`StoredKeyNeverAdmits`).
- Only `_recover` drains the lane (`OnlyRecoveryDrains`); after an operator's session intent every
  queued ordinary item can still be written (`OperatorRecoverKeepsTheLane`).
- A subscriber receives events in order as long as never two are on their way to it
  (`DeliveredInOrder`); wherever two are, and it has room, they can arrive reversed
  (`OverlapReorders`).
- The raw stop detector fires at the end of a line exactly behind `stop`, optionally preceded by
  any number of `stop` CR and one more byte (`DetectorFires`).

## Model

| member | source | states |
|---|---|---|
| `WorkerTheorems.FuturesAreHeldUntilResolved` | appliance/daemon/src/cs71d/serial_worker.py:247-300 | in every reachable state of every interleaving an accepted work or stop future is unresolved exactly while one party (lane, stop waiters, a preempting caller, the owning thread) holds it, and nobody holds a resolved one |
| `WorkerTheorems.NothingPendingAtTheEnd` | appliance/daemon/src/cs71d/serial_worker.py:645-677 | once the thread has ended, on whichever failure, close or reconnect path, every accepted future is resolved, was cancelled by its owner, or is one that the caller which took it out of the lane has yet to fail; none is still running |
| `WorkerTheorems.ResolvedIsFinal` | appliance/daemon/src/cs71d/serial_worker.py:528-570 | along every continuation of every run a resolved future keeps its outcome |
| `WorkerTheorems.ResolvesOnce` | appliance/daemon/src/cs71d/serial_worker.py:528-624 | no step of any reachable state tries to resolve a finished future: whoever resolves one (the caller failing what it took, the owning thread letting go of its item or of the first future it took) finds it unresolved or cancelled and, unless cancelled, finishes it; and a future is finished by such a step only |
| `WorkerTheorems.StopSucceedsOnlyWhenConfirmed` | appliance/daemon/src/cs71d/serial_worker.py:596-624 | a stop waiter succeeds only after it asked and in a state whose last wire action was reading the exact `stopped` in answer to `stop`, with no command in between |
| `WorkerTheorems.StopLetsOneCommandOut` | appliance/daemon/src/cs71d/serial_worker.py:465-478 | in every reachable history, from any stop request to the next `stop` line or worker failure at most one admitted command is written |
| `WorkerTheorems.StopTakesTheWholeLane` | appliance/daemon/src/cs71d/serial_worker.py:285-300 | the first stop request empties the lane and dooms every item it found there |
| `WorkerTheorems.PreemptedIsNeverWritten` | appliance/daemon/src/cs71d/serial_worker.py:295-300 | an item taken out of the lane by a stop or a close stays failed (or cancelled) and is never written, along every continuation |
| `WorkerTheorems.RecoveryNeverReplays` | appliance/daemon/src/cs71d/serial_worker.py:405-435 | whatever the interleaving of the READY check, the append, the RECOVERING publication and the drain: between a recovery and a later command lies an admission check of that very item that saw READY |
| `WorkerTheorems.EachCommandIsWrittenOnce` | appliance/daemon/src/cs71d/serial_worker.py:516-562 | no admitted command is written twice, and none without its dispatch callback having let it through |
| `WorkerTheorems.OnlyRecoveryDrains` | appliance/daemon/src/cs71d/serial_worker.py:417-420 | the owning thread takes a queued item only to serve it, to drain for `_recover`, or to finish |
| `WorkerTheorems.OperatorRecoverKeepsTheLane` | appliance/daemon/src/cs71d/serial_worker.py:497-511 | from every reachable state in which an operator's CONNECT or RECOVER has torn the session down, with the worker running, no stop asked for and the lock free, every queued ordinary item that is not cancelled, wherever it stands in the lane, is unwritten and has a continuation that writes it: the no-replay claim never extends to operator recovery |
| `WorkerTheorems.TornDown` | appliance/daemon/src/cs71d/serial_worker.py:497-508 | such a state is reachable: a RECOVER in hand has torn the session down and a sort admitted before that waits in the lane |
| `WorkerTheorems.InvStep` | appliance/daemon/src/cs71d/serial_worker.py:330-368 | the whole invariant (ledger, shape, stop, burst, recovery, readiness, evidence) is kept by every atomic step |
| `WorkerOnce.LedgerStep` | appliance/daemon/src/cs71d/serial_worker.py:613-660 | per future: the number of holders and the future's state stay in step over every critical section and every resolution |
| `WorkerStory.StoryStep` | appliance/daemon/src/cs71d/serial_worker.py:437-457 | the stop, burst and recovery stories of the wire history are kept by every step, including every reconnect attempt |
| `WorkerReadiness.ReadyStep` | appliance/daemon/src/cs71d/serial_worker.py:388-404 | in every step a READY session rests on the history: READY was published after a handshake and the session was neither lost nor under recovery since; no handshake starts from READY |
| `WorkerEvidence.EvidenceStep` | appliance/daemon/src/cs71d/serial_worker.py:528-562 | behind each resolved future stand the gate it passed, the bytes written for it and the line that settled it; behind a successful session intent a status read in a session whose READY stands (for RECOVER one published after its gate); behind a successful stop its own request and an exact stop exchange; and a settled future keeps its evidence |
| `WorkerQueue.SerialWorker.TrySubmit` | appliance/daemon/src/cs71d/serial_worker.py:261-283 | the mutable worker's admission region computes the specification region: state, readiness, stop flag and capacity are checked in this order, then the item is appended |
| `WorkerQueue.SerialWorker.SubmitPriorityStop` | appliance/daemon/src/cs71d/serial_worker.py:285-296 | the mutable stop region computes the specification region, handing back exactly the lane it emptied |
| `WorkerQueue.SerialWorker.BeginClose` | appliance/daemon/src/cs71d/serial_worker.py:302-328 | the mutable close region computes the specification region for all six lifecycle states |
| `WorkerQueue.SerialWorker.TakeNextAction` | appliance/daemon/src/cs71d/serial_worker.py:465-478 | stop before leaving before work, from the mutable fields |
| `WorkerQueue.SerialWorker.TakeStopWaiters` | appliance/daemon/src/cs71d/serial_worker.py:613-617 | all waiters are taken and the stop flag is lowered together |
| `WorkerQueue.SerialWorker.TakeQueue` | appliance/daemon/src/cs71d/serial_worker.py:626-630 | the whole lane is taken at once |
| `WorkerQueue.SerialWorker.RecordFailure` | appliance/daemon/src/cs71d/serial_worker.py:638-643 | the first failure is kept, a closed worker is left alone |
| `WorkerQueue.SerialWorker.Finish` | appliance/daemon/src/cs71d/serial_worker.py:645-654 | both lanes are taken and a failed worker stays failed |
| `DaemonTheorems.DispatchGate` | appliance/daemon/src/cs71d/domain.py:643-659 | the step that writes a home, sort or session item's command happens only while the journal holds RUNNING for an operation of this life with the fitting action, after a gate at which the deadline had not passed, and not for the second time |
| `DaemonTheorems.OutcomesAreHonest` | appliance/daemon/src/cs71d/domain.py:690-741 | in every reachable daemon a home or sort operation is SUCCEEDED only after RUNNING with its correlated success read; after RUNNING it is FAILED only on its correlated error and CANCELLED only after a confirmed stop following its command, everything else is UNCERTAIN; what never ran was never written |
| `DaemonTheorems.SessionAndStopOutcomes` | appliance/daemon/src/cs71d/domain.py:669-688 | a recorded success of connect or recover means that, behind its gate, the concluding status was read in a session whose published READY still stood, and for recover that READY was published after the gate; a recorded success of stop means that at some moment after its own request the last thing on the wire was the exact `stopped` in answer to `stop` |
| `DaemonTheorems.OutcomeStays` | appliance/daemon/src/cs71d/domain.py:736-741 | a terminal record never changes along any continuation |
| `DaemonTheorems.JointStep` | appliance/daemon/src/cs71d/domain.py:286-296 | every atomic step of callers, worker, journal and callbacks keeps the agreement between what the journal records and what the wire history shows |
| `DaemonTheorems.DaemonKeepsBoth` | appliance/daemon/src/cs71d/domain.py:661-667 | stop safety, no replay and the journal's refinement hold of the combined daemon |
| `DomainTheorems.JournalRefinesView` | appliance/daemon/src/cs71d/domain.py:826-850 | in every run of a daemon life generations have no gap, every row is the replay of its append-only log, every lifecycle entry carries exactly the generation whose view announces it, and no view announces a transition the journal does not hold |
| `DomainTheorems.StepKeeps` | appliance/daemon/src/cs71d/machine.py:137-150 | each region of the machine lock keeps that refinement, for every outcome of every storage transaction |
| `DomainTheorems.TerminalIsFinal` | appliance/daemon/src/cs71d/journal.py:346-360 | no run rewrites a terminal row |
| `DomainTheorems.SameKeySameOperation` | appliance/daemon/src/cs71d/domain.py:257-284 | whatever happens between two calls with one live key, and whichever of the two is a `configure`: the second changes nothing; it returns the first operation when the fingerprints agree (whatever generation it expects), conflicts when they differ, and is refused when the journal fault is latched |
| `DomainTheorems.AdmissionBinds` | appliance/daemon/src/cs71d/domain.py:463-515 | an admission binds its key to its operation and fingerprint, also when the first call is a `configure` |
| `DomainTheorems.KeySurvives` | appliance/daemon/src/cs71d/journal.py:482-508 | a stored key keeps its binding through every run that does not prune past its expiry |
| `DomainTheorems.StoredKeyNeverAdmits` | appliance/daemon/src/cs71d/domain.py:621-641 | by either route a stored key never admits a second operation; an expired unpruned one makes an otherwise admissible request latch the journal fault, and exactly such a request does |
| `ConfigTheorems.AlwaysLive` | appliance/daemon/src/cs71d/domain.py:463-551 | every state of every run of a daemon life, over whatever journal it started with, is live in the sense of the next two rows |
| `ConfigTheorems.NoLostUpdate` | appliance/daemon/src/cs71d/domain.py:463-551 | from every live state, also one in which another `configure` holds the lock between its published generations: a call whose expected generation is less than the slack ahead of the one at its read (four with a free lock; every generation it can have observed qualifies) stores, if it stores anything, the values then in force with exactly its own changes, although it read them outside the lock |
| `ConfigTheorems.OverwritesExactlyWhen` | appliance/daemon/src/cs71d/domain.py:463-551 | from every live state with the journal available, some run makes a call that reads there overwrite a version it has not seen if and only if the generation it expects is at least the slack ahead: four when the lock is free, three or two while a `configure` has published but not stored |
| `ConfigTheorems.UpdateTakesEffect` | appliance/daemon/src/cs71d/domain.py:455-461 | in a life that starts with no version of a later generation, along every run, what a `configure` stores is at once what reading back returns |
| `ConfigTheorems.GuessedGenerationLosesAnUpdate` | appliance/daemon/src/cs71d/domain.py:455-484 | from every state with a free lock whose stored versions are not ahead of it, every call that guesses four or more generations ahead has a run in which it overwrites values that differ from the ones it read |
| `ConfigTheorems.VisibleExactlyWhenNewest` | appliance/daemon/src/cs71d/journal.py:457-470 | in any life, stored values become the ones in force if and only if no stored version carries a higher generation (or the same pair was already newest) |
| `Journal.ReadBack` | appliance/daemon/src/cs71d/journal.py:434-470 | reading back returns what was just stored if and only if no stored version carries a higher generation, or that very version already was the newest |
| `Journal.NewestIsHighest` | appliance/daemon/src/cs71d/journal.py:457-465 | the configuration read back is stored, and none has a higher generation |
| `Journal.AdmissionRefines` | appliance/daemon/src/cs71d/journal.py:253-317 | admission keeps every row equal to the replay of its log |
| `Journal.TransitionRefines` | appliance/daemon/src/cs71d/journal.py:319-392 | a transition keeps every row equal to the replay of its log |
| `Journal.JournalFile.Admit` | appliance/daemon/src/cs71d/journal.py:253-317 | the mutable tables change as the transaction does, or not at all when any primary key or the commit fails |
| `Journal.JournalFile.Move` | appliance/daemon/src/cs71d/journal.py:319-392 | the mutable tables change as the transition does, or not at all |
| `Journal.JournalFile.PruneKeys` | appliance/daemon/src/cs71d/journal.py:499-508 | exactly the expired keys are removed |
| `Journal.JournalFile.ReadConfiguration` | appliance/daemon/src/cs71d/journal.py:457-470 | the scan returns the newest version, ties broken by insertion |
| `Machine.MachineState.FinishTransition` | appliance/daemon/src/cs71d/machine.py:137-150 | the next generation is published with the new active operation |
| `Machine.MachineState.SeeConnection` | appliance/daemon/src/cs71d/machine.py:152-159 | an unchanged connection publishes nothing, a changed one exactly one view |
| `Machine.MachineState.LatchFault` | appliance/daemon/src/cs71d/machine.py:179-205 | the fault is latched once and stays |
| `Configuration.WithChanges` | appliance/daemon/src/cs71d/configuration.py:47-54 | a change is accepted if and only if it names something and every named and every kept field is in bounds; the result then differs from the old values exactly in the named fields |
| `Client.ProtocolClient.DoRequest` | host/src/cs71_protocol/client.py:203-273 | against an arbitrary peer: a completion whose trace is one write and ends in the sole terminal of that identifier; or an interruption confirmed by an exact stop exchange; or verified v1; or admitted uncertainty; or nothing was written |
| `Client.ProtocolClient.AwaitTerminal` | host/src/cs71_protocol/client.py:226-273 | the read loop returns the correlated responses in order and stops at the first line that is neither an event nor an own response |
| `Client.ProtocolClient.Start` | host/src/cs71_protocol/client.py:176-192 | a refused request writes nothing and frees its identifier; a failed write fails closed |
| `Client.ProtocolClient.RecoverToV1` | host/src/cs71_protocol/client.py:122-169 | v1 is claimed only after a successful reset, exactly `Ready`, `ping` and exactly ` ok`; otherwise the mode is uncertain |
| `Client.ProtocolClient.OutOfBandStop` | host/src/cs71_protocol/client.py:350-365 | returns only on the exact `stopped`, keeping mode and CRC; anything else fails closed |
| `Client.ProtocolClient.Discover` | host/src/cs71_protocol/client.py:75-89 | answers only on one of the two exact replies, after at most one busy retry behind a ping barrier |
| `Client.ProtocolClient.PingBarrier` | host/src/cs71_protocol/client.py:66-73 | returns only on the exact ` ok` |
| `Client.ProtocolClient.WaitReady` | host/src/cs71_protocol/client.py:61-64 | succeeds exactly on `Ready`, and changes nothing otherwise |
| `Client.ProtocolClient.ActivateKnownAvailable` | host/src/cs71_protocol/client.py:97-120 | v2 is claimed only after the exact confirmation and three completed queries |
| `Client.ProtocolClient.EnableCrc` | host/src/cs71_protocol/client.py:275-284 | CRC is claimed on only after a completed exchange whose terminal is a protected `done` carrying `crc=on` |
| `Client.ProtocolClient.DisableCrc` | host/src/cs71_protocol/client.py:286-295 | CRC is claimed off only after a completed exchange whose terminal is a protected `done` carrying `crc=off` |
| `Client.ProtocolClient.LeaveV2` | host/src/cs71_protocol/client.py:297-317 | v1 is claimed only after a correlated `done` carrying `protocol=1`; every failure fails closed |
| `Client.ProtocolClient.Fetch` | host/src/cs71_protocol/client.py:319-348 | a typed query returns the merged fields of its exchange only if they are acceptable for it |
| `Client.ProtocolClient.Allocate` | host/src/cs71_protocol/tracking.py:17-25 | a fresh identifier in 1..65535 that was not active; none exactly when all of them are active |
| `Client.ProtocolClient.Reserve` | host/src/cs71_protocol/tracking.py:27-31 | exactly the free identifiers in range are reserved |
| `Client.ProtocolClient.Observe` | host/src/cs71_protocol/tracking.py:33-40 | exactly the responses of active identifiers are accepted, and a terminal retires its identifier |
| `Link.SoleTerminal` | host/src/cs71_protocol/client.py:264-273 | every response of a completed request carries its identifier, and exactly the last one is terminal |
| `Agreement.ClientAndSimulatorAgree` | appliance/daemon/src/cs71d/simulator/transport.py:149-164 | after any sequence of client calls against a fresh simulator, for any timeouts, scenario, clock driving and closing, a client that is not uncertain has the simulator's mode, in v2 its CRC setting, and nothing but events is under way |
| `Agreement.CallKeepsAgreement` | appliance/daemon/src/cs71d/simulator/transport.py:187-338 | each call keeps the agreement, whatever the client believed before |
| `SimulatorFacts.RequestAnswered` | appliance/daemon/src/cs71d/simulator/transport.py:259-338 | whatever an idle simulator is asked, it then owes at most one terminal, nothing but events follows it, and it tells the mode and CRC setting truly |
| `SimulatorFacts.SaneStep` | appliance/daemon/src/cs71d/simulator/transport.py:385-394 | every act at the transport keeps the simulator's invariant: a `protocol:2 ready` still under way means v2 without CRC, at rest, with only identifier-less output behind it |
| `SimulatorFacts.SaneAdvance` | appliance/daemon/src/cs71d/simulator/clock.py:42-50 | running due callbacks in order keeps that invariant |
| `Exchanges.WaitingActs` | appliance/daemon/src/cs71d/simulator/transport.py:424-476 | while the terminal is awaited, scheduled progress and completion keep the promise of a single terminal |
| `Exchanges.StopCuts` | appliance/daemon/src/cs71d/simulator/transport.py:481-491 | a stop in the middle of a movement leaves nothing under way and nothing scheduled |
| `EventRing.LossIsNeverSilent` | appliance/daemon/src/cs71d/events.py:69-93 | for all interleavings of the two publish phases, an open subscriber not flagged overflowed has received, waiting or being offered every event after its cursor exactly once, within its capacity |
| `EventRing.DeliveredInOrder` | appliance/daemon/src/cs71d/events.py:90-92 | a healthy subscriber to which never two events were on their way at once receives the events after its cursor in contiguous order, in every interleaving |
| `EventRing.OverlapReorders` | appliance/daemon/src/cs71d/events.py:90-92 | from every ring with two events on their way to a healthy subscriber that has room for both, a continuation delivers them the wrong way round: order ends exactly where publishes overlap |
| `EventRing.OverlapHappens` | appliance/daemon/src/cs71d/events.py:69-93 | two publishes after a subscription lead to such a ring |
| `EventRing.ResumeIsComplete` | appliance/daemon/src/cs71d/events.py:95-115 | a resumed subscriber starts with exactly the events after its cursor unless it starts overflowed |
| `EventRing.Subscriber.Offer` | appliance/daemon/src/cs71d/events.py:138-150 | a full subscriber loses its backlog and is flagged, a closed one is left alone |
| `EventRing.Subscriber.Prime` | appliance/daemon/src/cs71d/events.py:152-157 | a backlog over capacity flags the subscriber |
| `EventRing.Subscriber.Drain` | appliance/daemon/src/cs71d/events.py:176-191 | everything waiting is handed over, nothing after an overflow |
| `EventRing.EventLog.Append` | appliance/daemon/src/cs71d/events.py:80-89 | identifiers are consecutive and the oldest event falls out of a full window |
| `EventRing.EventLog.Backlog` | appliance/daemon/src/cs71d/events.py:104-104 | the filtered backlog is every retained event after the cursor, in order |
| `EventBroadcast.BrowserSeesNoGap` | appliance/web/src/lib/server/daemon/broadcast.ts:219-249 | given an upstream that is contiguous or resyncs, in every run a browser's events between two resyncs are a contiguous run, its backlog is bounded, and an open browser is up to date with the reader or owes a resync |
| `EventBroadcast.OpeningServes` | appliance/web/src/lib/server/daemon/broadcast.ts:152-167 | a new browser is told to resync or is handed exactly the run since its cursor |
| `EventBroadcast.OfferServes` | appliance/web/src/lib/server/daemon/broadcast.ts:281-297 | one more message keeps a browser's view free of silent gaps, also when its backlog overflows |
| `EventBroadcast.Subscriber.Offer` | appliance/web/src/lib/server/daemon/broadcast.ts:281-297 | a full backlog is replaced by one resync |
| `EventBroadcast.Subscriber.Shift` | appliance/web/src/lib/server/daemon/broadcast.ts:304-317 | messages leave in order, one at a time |
| `Crc.HostChecksum` | host/src/cs71_protocol/crc.py:6-13 | the host's masked accumulator computes the specified checksum |
| `Crc.FirmwareChecksum` | ArduinoCode/CS71_Arduino/crc16.cpp:15-25 | the firmware's 16-bit accumulator computes the same checksum |
| `Crc.FirmwareUpdateByte` | ArduinoCode/CS71_Arduino/crc16.cpp:3-13 | one byte of the division, in 16-bit arithmetic |
| `Crc.OneByteChanges` | host/src/cs71_protocol/crc.py:6-13 | changing one byte of a body of any length changes the checksum |
| `Crc.TwoBytesChange` | ArduinoCode/CS71_Arduino/crc16.cpp:3-25 | changing two adjacent bytes of a body of any length changes the checksum |
| `Crc.FormatParses` | ArduinoCode/CS71_Arduino/crc16.cpp:27-62 | reading the four formatted digits gives the checksum back |
| `Crc.ParseFormats` | ArduinoCode/CS71_Arduino/crc16.cpp:41-62 | every accepted text is the formatting of what was read |
| `Crc.ReadCrc` | ArduinoCode/CS71_Arduino/crc16.cpp:41-62 | the digit loop computes the specified reading and refuses everything else |
| `Crc.RemoveAppended` | host/src/cs71_protocol/crc.py:21-47 | removing and verifying undoes appending for every body, even one with stars; with CRC off the protected frame is refused |
| `Crc.AcceptsOnlyAppended` | host/src/cs71_protocol/crc.py:30-47 | with CRC required a frame is accepted with a body if and only if it is that body appended |
| `Crc.DamagedByteIsRejected` | host/src/cs71_protocol/crc.py:30-47 | a frame damaged in one body byte is refused |
| `Crc.DamagedPairIsRejected` | host/src/cs71_protocol/crc.py:30-47 | a frame damaged in two adjacent body bytes is refused |
| `Framing.V2FramersAgree` | ArduinoCode/CS71_Arduino/v2_parser.cpp:7-67 | on every byte stream the host reader and the firmware parser (reset after each ready frame) give the same accepted frames and the same rejections |
| `Framing.LineReader.ReadLine` | host/src/cs71_protocol/framing.py:33-73 | one call takes arrivals from the front and no others, reads exactly the bytes among them and returns the first line they complete; it returns none only when its time ran out or nothing is left to arrive, and then keeps everything it has read |
| `Framing.LineReader.ReadToTheEnd` | host/src/cs71_protocol/framing.py:33-73 | calling `read_line` until nothing is left, wherever reads time out or bring nothing, yields exactly the frames and rejections that the firmware parser yields on the same bytes |
| `Framing.ReadAllJoins` | host/src/cs71_protocol/framing.py:33-73 | wherever timeouts cut the stream, reading in pieces gives the same lines as reading at once |
| `Framing.LineReader.Take` | host/src/cs71_protocol/framing.py:51-72 | one byte of the host framer, on its mutable fields |
| `Framing.V2FrameParser.Consume` | ArduinoCode/CS71_Arduino/v2_parser.cpp:7-47 | one byte of the firmware v2 framer, on its fixed buffer without leaving it |
| `Framing.CommandParser.Consume` | ArduinoCode/CS71_Arduino/command_parser.cpp:7-46 | one byte of the firmware v1 framer, on its fixed buffer without leaving it |
| `Framing.CommandParserMeetsSpec` | ArduinoCode/CS71_Arduino/command_parser.cpp:7-71 | on complete lines followed by an unfinished rest the parser yields, per line, what the specification says: drop one trailing CR, then the first of NUL or byte 41 decides |
| `Framing.EveryStreamSplits` | ArduinoCode/CS71_Arduino/command_parser.cpp:7-46 | every byte stream is such lines and a rest |
| `Framing.DetectorFires` | ArduinoCode/CS71_Arduino/protocol.cpp:36-61 | at the end of every line the raw stop detector fires if and only if the line is `stop` with an optional CR behind any number of `stop` CR and one more byte |
| `Framing.StopIsNeverMissed` | ArduinoCode/CS71_Arduino/protocol.cpp:36-61 | an exact stop line is never missed; `stop` CR `X` `stop` also fires |
| `Framing.RawStopLineDetector.Consume` | ArduinoCode/CS71_Arduino/protocol.cpp:36-61 | one byte of the detector |
| `Wire.RequestRoundTrip` | host/src/cs71_protocol/parsing.py:147-162 | for every identifier and legal command the firmware envelope parser recovers exactly what `format_request` printed |
| `Wire.FormatAccepts` | host/src/cs71_protocol/parsing.py:147-162 | `format_request` accepts exactly identifiers in range with legal commands that fit 64 bytes |
| `Wire.ScanId` | ArduinoCode/CS71_Arduino/protocol.cpp:162-169 | the identifier loop, whose accumulator stays below 655360 |
| `Wire.ResponseRoundTrip` | host/src/cs71_protocol/parsing.py:93-144 | every accepted, progress, data and done line with well-formed fields that the firmware formats is read back with its identifier, kind and fields |
| `Wire.ErrorRoundTrip` | ArduinoCode/CS71_Arduino/protocol.cpp:351-395 | every error line is read back with its code, name and fields |
| `Wire.StateRoundTrip` | ArduinoCode/CS71_Arduino/protocol.cpp:397-411 | every state event is read back with its sequence and fields |
| `Wire.FaultRoundTrip` | host/src/cs71_protocol/parsing.py:85-91 | every fault and reject event is read back with its sequence, code, name and fields |
| `Wire.FieldsRoundTrip` | host/src/cs71_protocol/parsing.py:69-82 | fields survive printing and reading |
| `Wire.ReadFields` | host/src/cs71_protocol/parsing.py:69-82 | the dictionary loop computes the specified fields and refuses malformed or repeated ones |
| `Wire.PrintUnsigned` | ArduinoCode/CS71_Arduino/protocol.cpp:314-326 | the digit loop prints the canonical decimal |
| `Logic.ParseUint32` | ArduinoCode/CS71_Arduino/logic.cpp:23-44 | accepts exactly the non-empty digit strings up to the maximum, without leaving 32 bits |
| `Logic.ParseInt32` | ArduinoCode/CS71_Arduino/logic.cpp:46-87 | accepts exactly the signed numerals in range, including the most negative one |
| `Motion.MotionNeverOverflows` | ArduinoCode/CS71_Arduino/protocol.cpp:1039-1251 | for every sequence of v1 commands, diagnostic moves, gate openings and queue resets from a valid configuration with positive microsteps, every slot, every queued position and every movement fits the controller's integers, and so does the intermediate product of position and steps |
| `Motion.DispatchKeeps` | ArduinoCode/CS71_Arduino/protocol.cpp:1039-1169 | whatever command arrives, the configuration stays valid and an accepted position fits it |
| `Motion.SlotLimitIsExact` | ArduinoCode/CS71_Arduino/logic.h:9-23 | a position is below the slot limit if and only if its movement fits |
| `Motion.MoveKeeps` | ArduinoCode/CS71_Arduino/CS71_Arduino.ino:1360-1412 | queued and direct sorter movements keep every position and movement in range |
| `Timers.ElapsedMeans` | ArduinoCode/CS71_Arduino/runtime_timer.cpp:3-5 | the modular test never fires early in true time, and fires at every poll between the duration and one wrap |
| `FeedCompletion.StagesInOrder` | ArduinoCode/CS71_Arduino/feed_completion.cpp:24-49 | in every run of starts, polls and cancels each accepted start emits its stages once, in order and never before the delay it was given has truly passed, nothing else is emitted, and a start refused while active changes nothing whatever configuration it brings |
| `FeedCompletion.StageEndsInTime` | ArduinoCode/CS71_Arduino/feed_completion.cpp:24-49 | in every such run the stage in progress ends at the first poll whose true elapsed time lies between its delay and 2^32 |
| `FeedCompletion.FeedCompletion.Start` | ArduinoCode/CS71_Arduino/feed_completion.cpp:6-22 | a start is refused while active and otherwise snapshots the configuration |
| `FeedCompletion.FeedCompletion.Update` | ArduinoCode/CS71_Arduino/feed_completion.cpp:24-49 | one poll of the mutable machine |
| `ProximitySettler.SettledForTheWholeDuration` | ArduinoCode/CS71_Arduino/proximity_settler.cpp:32-52 | when a required settle is reported over without bypass there is the call at which that very timer started, with the sensor seen active; the duration given there has truly passed, and since then no reset came and every observation was active |
| `ProximitySettler.AlwaysAccounted` | ArduinoCode/CS71_Arduino/proximity_settler.cpp:9-30 | in every run of observations, questions and resets a running settle timer has the call at which it started, with only active observations since |
| `ProximitySettler.ProximitySettler.Observe` | ArduinoCode/CS71_Arduino/proximity_settler.cpp:9-30 | one observation of the mutable settler |
| `ProximitySettler.ProximitySettler.Ready` | ArduinoCode/CS71_Arduino/proximity_settler.cpp:32-52 | one question to the mutable settler |

## Left out

- HTTP and socket serving, the command line, real serial ports, DTR handling and process locks: I/O and platform policy.
- SQLite, SHA-256, UUIDs and JSON: replaced by maps, an append-only sequence, injective numbers and fresh identifiers.
- Camera, training, classification, web routes, wording and authentication: library wrappers and user interface.
- Field validation of requests, actors, reasons and terminal fields: a badly named terminal field or an overlong reason can leave an operation unsettled; no claim is made that every operation settles.
- Start-up treatment of operations left open by an earlier daemon life: rows of earlier lives are carried along and never claimed about.
- `require_supported`: its answer is part of the request.
- Disk-space and backup monitoring: its effect is the step that latches the journal fault.
- Session history texts and generation of `SessionState`: only the published connection state is used.
- User callbacks of the client (`on_event`, `on_recovery`) and exceptions they raise.
- `EventTracker`: it only informs the event callback.
- Byte-level reading inside the client: a call to `read_line` yields a line, a framing fault, a transport fault or nothing.
- The simulator and the v1 dispatcher are modelled on values rather than as mutable objects: they have a single owner, so aliasing does not arise; transcript and log output of the simulator are not modelled.
- The simulator's incoming byte buffer: the client writes whole lines.
- v1 command classification by prefix, `airdropenabled`, `cameraledlevel`, `version`, `getconfig` and `ping`: they do not touch the movement arithmetic and would add easy members.
- `convertSpeedToDelay`, `secondsToMilliseconds`, `parseBool`: finite or trivial.
- CRC on the wire round trips: `Wire` covers CRC off, `Crc` the suffix for every body.
- Rate limiting, dynamic routing, `PhysicalRequestTracker`, `V2RequestLifecycle`, `FaultStateTracker`: small finite-state machines.
- Liveness: nothing is claimed to happen eventually, except that a timer stage ends at the polls that are due.
