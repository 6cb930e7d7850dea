# Cockatiel engine: a verified model of the message pipeline

Cockatiel is a chat engine: messages come in from adapters, are fanned out to
pre-process modules, walk an ordered chain of in-process modules, are fanned out
to displays, and end in one terminal write to the timeline table. Acks, ack
timeouts with capped resends, abandons, an operator pause, dependency blocks,
audit holds and crash recovery interleave with that. This project models the
pipeline and four smaller parts of the engine in Dafny, and proves what they
promise for every input, run and schedule.

Run `dafny verify dfyconfig.toml` in this directory to check everything.

## How it is organised

The pipeline is modelled twice, and the two are tied together.

* `Messages` describes one message wherever the engine keeps a piece of it (a
  `Cell`: timeline row, in-memory state, pending acks, hold, owed replays, and a
  ghost log of dispatches). Every handler is a function from cell to cell, and
  `Run` folds any sequence of ticks, each with its own outside `World`, clock
  reading, gate and event. All run-level theorems are about `Run`.
* `Engine.Orchestrator`, with `Tracker.AckTracker`, `Database.TimelineDb` and
  `Replays.ReplayTasks`, has the source's tables as fields and updates them in
  place. Each handler is proved to make exactly one `Step` of the cell it
  concerns and to leave every other message's cell alone; the sweep and the
  drain are proved to make one `Step` of every message, whatever order the hash
  map lists them in.
* `Session.Session` ties the two: it keeps, beside the orchestrator and across
  restarts, the run each message has made, and every handler keeps every cell of
  the tables equal to the `Run` of those ticks. So every theorem about `Run` holds
  of the engine's tables (`Session.Session.NothingIsLost` is one read off there).

| module | part of the engine |
|---|---|
| `Messages`, `Engine`, `Session`, `Tracker`, `Replays` | `src/pipeline.rs`: orchestrator, ack tracker, pause state |
| `Rows`, `Database`, `AudioFlags`, `CommaTypes` | `src/database.rs`: the timeline row and its statements |
| `Delivery`, `AuditHold`, `HoldRace`, `Finality`, `Stalls`, `Coherence`, `MixedSweep`, `Sweeps`, `Once`, `Resends`, `Chain`, `Untimed`, `Pausing` | what holds of every run of a message |
| `Registry`, `Routing`, `Parser`, `Whitespace` | `src/command_registry.rs` and who a message is sent to |
| `EditDistance` | `src/main.rs`: edit distance and "did you mean" |
| `Streaks`, `Multipliers` | `src/stream_rewards.rs` |
| `EnvFile` | `src/credentials.rs` |
| `Basics`, `Text` | shared values and string laws |

## What is proved, and where the code differs from its comments

* **Nothing is lost** (`Delivery`). In every run a message with a state has a
  pending ack, a hold, an owed replay, or a row that was held for audit. A
  'queued' row without a state exists only after a crash that no recovery has
  followed, and a drain claims exactly those rows.
* **Pausing is transparent** (`Pausing`). Flushing a message's hold or owed
  replay at any point of a run with pauses gives the same message, clock readings
  aside, as the run with every pause, resume and replay removed, crashes included,
  as long as the engine does not crash and the message's surroundings and audit
  status do not change while it is parked.
* **Stage coherence fails in exactly one way** (`Coherence`, `MixedSweep`). The
  comment above the sweep says a message is never advanced while a resend left a
  fresh entry pending. The set of resent messages is filled while the loop runs,
  so an entry that cannot be resent, standing before one that can, advances the
  message first; the later entry is then re-tracked at the stage just left.
  `StepCoherentIff` gives the exact condition, and `DisplayedTwice` a run in
  which the display gets the same message twice.
* **Audit holds** (`AuditHold`, `HoldRace`). From the flag to the release no order
  of whole handlers changes the status, the stage or the reason at the front of the
  flags. But the three terminal paths and the two stage starts ask for the hold
  before they act, and the flag may land in between; `HoldRace` lets runs contain
  the second half of any of the five. The hold and its reason survive if and only if
  no late failure, and no late drop of a message in flight, lands
  (`HoldSurvivesIff`; `LateFailureLosesHold` is a losing run). While it survives, the
  message stays where it is if and only if no late stage start moves its stage or
  reaches a module (`PlaceStaysIff`); `FlaggedButShown` is a message that is flagged
  and shown all the same. A late completion keeps the hold but loses the run's text
  and audio for good, because the row is left as it was and the state is gone
  (`LateCompletionLosesTheRun`).
* **A terminal row is final** (`Finality`) for a message that was never held, until
  somebody flags it: no later ack, timeout, replay, recovery or crash touches the row.
  A message that was held can end twice: approved with an ack outstanding, then
  failed by its timeout (`ApprovedThenFails`).
* **A hold can strand a message** (`Stalls`). A message whose stage ends while it is
  held keeps its state with nothing left to move it, and the release does not move
  it either: an approved message of this kind is never shown. `StepStallsIff` says
  exactly which step does that, `StalledForGood` that it lasts until a restart, and
  `ApprovedButStuck` is a whole run that ends so.
* **Dispatched once in a process** (`Once`). Without mixed sweeps, the pre-process
  dispatches, and the display dispatches, of the whole history of a message are one
  fan-out after another, to the reached recipients of the message's own command in
  order, with a crash between any two: one fan-out when the engine never crashed, and
  at most one more than crashes. With the resend cap that bounds the frames a module
  gets of a message. A crash does repeat a dispatch: the row stays 'queued' until the
  terminal write, so a recovered message is shown again (`ShownAgain`).
* **The chain is exact** (`Chain`), **resends are bounded** (`Resends`, a
  conservation law between frames sent and entries tracked), **one call finishes
  a stage** (`Tracker.ExactlyOneFinisher`), and **a sweep** either only resends,
  or fails the message once, or advances it once (`Sweeps.SweepClosedForm`).
* **One terminal write equals the per-stage writes** (`AudioFlags`, `CommaTypes`)
  exactly when no stored content type, free of commas, is already listed in the row's
  flags. With commas in content types the per-stage writer never finds a type it has
  listed, so one such call agrees and the same type stored twice diverges. Calls that
  suit both writers always leave the two in agreement (`SuitedWritersAgree`), and for
  types whose later pieces do not look like markers nothing else does
  (`WritersAgreeIff`); `RepeatedTypeCanAgree` shows that without that restriction a
  repeated type can agree by coincidence. A reader gets the first content type with
  the last bytes.
* **The registry** replays its history; **the parser** uses every word once, in
  order, and parses back what is printed.
* **The edit distance** is the least number of edits. The "did you mean" hint
  asks its shared-prefix rule only of the nearest name, so a name sharing a
  prefix can go unsuggested, contrary to the comment above it (`MissedIff`); when
  names are equally near, the answer depends on the order the hash map lists them
  in (`NoneInSomeOrder`).
* **Streaks** are runs of attended streams. A restart forgets which stream came
  last, so it keeps a user's count exactly when they were on no run. The score
  multipliers are proved for any rounding of the floats that is monotone and exact
  on 24 bits: a gain is never shrunk up to 16777216, and beyond it exactly when
  the gain survives its own cast to a float (`Multipliers.ShrinksIff`).
* **The `.env` merge** reads back what it wrote if and only if every key is one the
  reader can return and the last value of each key is one line and is what the key
  then reads as (`ReadAfterMerge`). It does not for a value with a newline, whose
  second line becomes a setting of its own (`NewlineSplits`), for a value with a
  quote at an end, which the reader strips (`NeverReadsBack`), or before a later
  `KEY =value` line, which the writer does not take for the key and the reader does
  (`SpacedLineWins`).

Modelling choices: a uuid7 is a natural number (its creation order); a handler
runs to completion as one step; for one message, stage and module a `World` gives
one answer of the cost gate and one outcome of the bounded send per step; hash-map
iteration orders, clock readings and new ids are parameters; storage calls
succeed; time is an integer and a float operation is a real one followed by a
rounding. In `Run` a sweep names the positions it expires; in the class they are
the entries whose budget is spent. The dispatch log covers every engine process
that worked on the message. A resume's debt is recorded when it takes the holds
off, before its sweep. `WriteOutcome`'s guard, the pushed SET list and its argument
order are those of the one UPDATE.

## Model

| member | source | states |
|---|---|---|
| Delivery.NeverLost | src/pipeline.rs:1425-2323 | in every run a message with a state has a pending ack, a hold, an owed replay or was held for audit; a pending ack always has a state; an unheld state has a 'queued' row |
| Delivery.QueuedMeansClaimed | src/pipeline.rs:1382-1423 | a 'queued' row without a state means a crash that no recovery has followed |
| Delivery.RecoverClaimsTheStranded | src/pipeline.rs:1324-1388 | recovery claims exactly stranded rows, never re-drives a live message, and doing it twice changes nothing |
| Delivery.StepSafe | src/pipeline.rs:2029-2323 | every step keeps the safety invariant; only a crash strands a row |
| AuditHold.HoldIsSafe | src/pipeline.rs:1886-1992 | until a release, any run of whole handlers keeps the status 'audit', the stage of a live message, and the old flags as a prefix |
| AuditHold.FlaggedStaysHeld | src/database.rs:1828-1838 | from the flag on, any run without a release keeps the row held with the reason in front |
| HoldRace.CheckThenLate | src/pipeline.rs:1898-1992 | every terminal path is its hold check followed by the write that may land late |
| HoldRace.CheckThenStart | src/pipeline.rs:1542-1704 | every stage start is its gate, its hold check, and the move and send that may land late |
| HoldRace.RunIsRacing | src/pipeline.rs:1879-1992 | a run of whole handlers is one of the runs with late halves |
| HoldRace.HoldSurvivesIff | src/pipeline.rs:1879-1992 | with late halves anywhere in an unreleased run, the row stays held throughout if and only if no late failure, and no late drop of a message in flight, lands on it; then the reason stays too |
| HoldRace.PlaceStaysIff | src/pipeline.rs:1542-1814 | while the hold survives, the message stays at its stage and is sent to nobody of a further one, throughout, if and only if no late stage start of a message in flight moves its stage or reaches a module |
| HoldRace.FlaggedButShown | src/pipeline.rs:1698-1704 | a message flagged after its display start asked for the hold is held and shown to a display |
| HoldRace.LateFailureLosesHold | src/pipeline.rs:1926-1964 | a concrete run in which a failure that had passed its check takes the hold away |
| HoldRace.LateCompletionLosesTheRun | src/pipeline.rs:1898-1925 | a completion that lands under a hold keeps it, but the text and audio of the run never reach the row, whatever follows |
| HoldRace.NeverLostRacing | src/pipeline.rs:1879-1992 | delivery safety holds of runs with late writes |
| Finality.EndedOnce | src/pipeline.rs:1898-1992 | the terminal row of a message that was never held stays as it is over every later run without a flag |
| Finality.ApprovedThenFails | src/database.rs:1939-1962 | a message approved with a critical ack outstanding fails when that ack times out |
| Stalls.StepStallsIff | src/pipeline.rs:1542-1565 | a step leaves a message with a state but nothing to wait for if and only if the row is held and the step ends the stage |
| Stalls.StalledForGood | src/pipeline.rs:1542-1565 | such a message is never dispatched, acked or parked again without a restart, whatever happens to its row |
| Stalls.FlaggedAnsweredReleased | src/pipeline.rs:1542-1565 | any message waiting for one module, flagged, answered, then approved, is stuck |
| Stalls.ApprovedButStuck | src/pipeline.rs:1542-1565 | a whole run after which an approved message is shown to no display |
| Coherence.SweepCoherentIff | src/pipeline.rs:2195-2323 | a sweep keeps stage coherence if and only if it is not the mixed one |
| Coherence.StepCoherentIff | src/pipeline.rs:1130-1146 | every step keeps coherence (acks at the current stage, a parked message has none and one point) except exactly the mixed sweep |
| Coherence.RunCoherent | src/pipeline.rs:1557-1684 | a run without mixed sweeps is coherent throughout |
| MixedSweep.DisplayedTwice | src/pipeline.rs:2212-2289 | a concrete run in which one sweep advances and resends, and the display is dispatched twice |
| Sweeps.SweepClosedForm | src/pipeline.rs:2222-2323 | one sweep only resends, or fails the message once at its first fatal entry, or advances it once; never both fails and advances |
| Sweeps.ResumeExpiresNothing | src/pipeline.rs:618-631 | the sweep a resume runs expires nothing while the restarted budgets last |
| Sweeps.FirstFatal | src/pipeline.rs:2238-2288 | the entry that fails the message is the first critical one that cannot be resent |
| Once.DispatchedOncePerLife | src/pipeline.rs:1425-1814 | in a run without mixed sweeps the pre-process dispatches, and the display dispatches, are fan-outs to the reached recipients of the message's own command, in order, one after the other with a crash between any two, so at most one more than crashes |
| Once.DispatchedOnce | src/pipeline.rs:1425-1814 | without a crash they are nothing, or one fan-out |
| Once.OwnCommand | src/pipeline.rs:1243-1290 | that command is the one the message was ingested with, until a crash |
| Once.ShownAgain | src/pipeline.rs:1300-1388 | a concrete run in which a crash and a recovery show a display the same message twice, without any sweep |
| Once.FramesAreBounded | src/pipeline.rs:2228-2289 | no pre-process module and no display gets more than (1 + crashes) times 1 + MAX_ACK_RESENDS frames of a message |
| Once.ChainFramesAreBounded | src/pipeline.rs:2228-2289 | with fixed surroundings and no crash an in-process module gets at most 1 + MAX_ACK_RESENDS frames |
| Resends.RunConserves | src/pipeline.rs:497-511 | over any run, frames of attempt k+1 plus entries still tracked at attempt k never exceed frames of attempt k, and the last permitted attempt has no successor |
| Resends.ResendsAreBounded | src/pipeline.rs:2238-2258 | a module gets at most 1 + MAX_ACK_RESENDS frames per dispatch of a stage to it |
| Chain.RunOnChain | src/pipeline.rs:1542-1684 | with fixed surroundings, a message has been through exactly the takers before its position on the in-process chain |
| Chain.ChainIsExact | src/pipeline.rs:2065-2084 | a completed message's first in-process dispatches are the configured list filtered to the modules that take it, in order, each once, and displays see it only after the last |
| Pausing.ClosedGateSendsNothing | src/pipeline.rs:1115-1146 | while the gate is closed no step sends anything or ends a message by timeout |
| Pausing.HoldThenFlush | src/pipeline.rs:1222-1233 | replaying a recorded hold point equals the direct dispatch |
| Pausing.GatedStep | src/pipeline.rs:1139-1146 | a step behind a closed gate, then flushed, is the open-gate step |
| Pausing.GateCommutes | src/pipeline.rs:1148-1220 | any run, flushed, equals the run with pauses, resumes and replays removed |
| Pausing.PauseIsTransparent | src/pipeline.rs:1148-1220 | once nothing is parked, the dispatches equal those of the run that never paused |
| Untimed.StepErases | src/pipeline.rs:2029-2094 | what an open-gate step does to a message does not depend on clock readings |
| AudioFlags.OneWriteRefinesStageWrites | src/pipeline.rs:2325-2361 | carried audio and one terminal write leave the same flags and blob as per-stage writes, if and only if no stored type was listed before |
| AudioFlags.StageWritesForm | src/database.rs:1181-1222 | per-stage writes leave the last bytes and append each new content type once |
| AudioFlags.ReadBack | src/database.rs:1227-1262 | when reading after the terminal write returns the content type that was stored |
| AudioFlags.SingleTypeRoundTrip | src/database.rs:1227-1262 | with one content type, reading returns exactly what was stored |
| CommaTypes.WritersAgreeIff | src/pipeline.rs:2325-2361 | for any content types whose later pieces do not look like markers, the two writers leave the same flags and blob if and only if each stored type with a comma is stored once, and each without is stored before or is listed nowhere, neither in the row's flags nor among the pieces of what was stored |
| CommaTypes.SuitedWritersAgree | src/pipeline.rs:2325-2361 | for any content types at all, calls each of which is new to both writers or found by both leave the same flags and blob |
| CommaTypes.CommaTypeTwiceDiverges | src/database.rs:1181-1222 | a content type with a comma stored at two calls of any list makes the flags differ |
| CommaTypes.CommaTypeOnceAgrees | src/database.rs:1181-1222 | one call with any comma in its type leaves them equal |
| CommaTypes.RepeatedTypeCanAgree | src/database.rs:1181-1222 | without the restriction on later pieces a type stored twice can still agree |
| Tracker.ExactlyOneFinisher | src/pipeline.rs:513-584 | over any answers and sweeps without re-tracking, exactly one call reports the stage finished, and none if entries remain |
| Tracker.MarkReceiptAt | src/pipeline.rs:485-495 | a receipt marks the module's first entry and no other |
| Tracker.AckTracker.constructor | src/pipeline.rs:462-466 | a new tracker has no entry |
| Tracker.AckTracker.Track | src/pipeline.rs:468-483 | appends one entry with no receipt and no resend |
| Tracker.AckTracker.Receive | src/pipeline.rs:485-495 | changes only the receipt mark of one entry of one message |
| Tracker.AckTracker.ReTrack | src/pipeline.rs:497-511 | re-adds the entry with a fresh clock, no receipt and one resend more |
| Tracker.AckTracker.Clear | src/pipeline.rs:513-528 | drops one message's entries |
| Tracker.AckTracker.AckModule | src/pipeline.rs:530-552 | removes the module's entries and reports its stage, the time it took and whether anything is still pending |
| Tracker.AckTracker.CheckTimeouts | src/pipeline.rs:559-584 | splits every message's entries into kept and expired, with accurate still-pending flags and no empty list, in any map order |
| Tracker.AckTracker.IsPendingFor | src/pipeline.rs:598-609 | true exactly when the module has an entry at that stage |
| Tracker.AckTracker.Rebase | src/pipeline.rs:624-631 | restarts every clock and changes nothing else |
| Replays.OwedPop | src/pipeline.rs:1207-1215 | taking one replay off a task takes exactly it off the debt |
| Replays.SpawnedOwes | src/pipeline.rs:1203-1215 | a new task owes each held message exactly its hold point |
| Replays.InUuidOrder | src/pipeline.rs:1174-1189 | lists the held set in ascending uuid7 order, each once |
| Replays.ReplayTasks.Spawn | src/pipeline.rs:1203-1215 | adds a task for a held set to the debt |
| Replays.ReplayTasks.Pop | src/pipeline.rs:1207-1215 | hands out the next replay and shrinks the debt by it |
| Engine.CriticalUuids | src/pipeline.rs:2217-2221 | a message is in the critical set exactly when one of its own expired entries is critical |
| Engine.Orchestrator.Boot | src/pipeline.rs:812-836 | a new engine knows nothing but the rows, and is sound; what was sent and flagged before is history |
| Engine.Orchestrator.Pause | src/pipeline.rs:1121-1128 | closes the gate and touches no message |
| Engine.Orchestrator.DeferPause | src/pipeline.rs:1104-1108 | forgets a deferred resume and pauses |
| Engine.Orchestrator.DeferResume | src/pipeline.rs:1098-1100 | remembers the resume and touches no message |
| Engine.Orchestrator.SetBlock | src/pipeline.rs:1070-1079 | the more fundamental fault stays reported |
| Engine.Orchestrator.ClearBlock | src/pipeline.rs:1081-1094 | clears only a matching block and says whether a resume was deferred; held messages stay held |
| Engine.Orchestrator.HoldIfGated | src/pipeline.rs:1139-1146 | records the hold point exactly when the gate is closed |
| Engine.Orchestrator.FanOutTo | src/pipeline.rs:1475-1535 | tracks and logs exactly the permitted, connected modules in order, and says whether any was reached |
| Engine.Orchestrator.BroadcastPreProcess | src/pipeline.rs:1425-1540 | one step of the entry dispatch on one message |
| Engine.Orchestrator.StartInProcess | src/pipeline.rs:1542-1684 | one step of the in-process dispatch, skipping modules, terminating on the rest of the chain |
| Engine.Orchestrator.StartPostProcess | src/pipeline.rs:1686-1814 | one step of the display dispatch, completing the message when nobody is reached |
| Engine.Orchestrator.PreserveAuditHold | src/pipeline.rs:1879-1896 | lands the run's data on a held row and nothing else |
| Engine.Orchestrator.End | src/pipeline.rs:1898-1964 | the shared end of a run: one write, then no state and no acks; or a kept hold |
| Engine.Orchestrator.Abandon | src/pipeline.rs:1966-1992 | an abandon ends a message in flight and is ignored otherwise |
| Engine.Orchestrator.HandleAcked | src/pipeline.rs:2029-2094 | removes the acks and advances exactly when the stage is finished |
| Engine.Orchestrator.HandleReply | src/pipeline.rs:2366-2550 | a reply without a pending ack for its stage changes nothing; otherwise exactly one step of one message |
| Engine.Orchestrator.HandleReceipt | src/pipeline.rs:485-495 | a receipt is one step of one message |
| Engine.Orchestrator.InsertAndStart | src/pipeline.rs:1243-1307 | one ingest step; a second row for one uuid7 is refused |
| Engine.Orchestrator.RecoverOne | src/pipeline.rs:1324-1388 | re-drives exactly a stranded row |
| Engine.Orchestrator.DrainQueuedOnce | src/pipeline.rs:1390-1423 | recovers every stranded row once, leaves none, touches no other message, and counts both sets |
| Engine.Orchestrator.FlagForAudit | src/main.rs:4151-4164 | holds a message not already held |
| Engine.Orchestrator.ReleaseFromAudit | src/database.rs:1939-1962 | a release acts on held rows only |
| Engine.Orchestrator.ResendStage | src/pipeline.rs:2096-2193 | re-tracks and logs exactly when the frame was taken |
| Engine.Orchestrator.SweepEntry | src/pipeline.rs:2228-2319 | one expired entry: resent, failing, advancing or ignored, with the sweep's marks |
| Engine.Orchestrator.SweepBatch | src/pipeline.rs:2217-2323 | the whole batch sweeps every message by its own entries, whatever the batch order |
| Engine.Orchestrator.HandleTimeout | src/pipeline.rs:2195-2323 | nothing behind a closed gate; otherwise one sweep step of every message |
| Engine.Orchestrator.Resume | src/pipeline.rs:1148-1220 | opens the pause, owes every held dispatch in uuid7 order, and sweeps from restarted clocks |
| Engine.Orchestrator.ReplayNext | src/pipeline.rs:1222-1233 | one replay step of one message, which asks the gate again |
| Session.Session.constructor | src/pipeline.rs:812-836 | an engine over an empty timeline has every message at the start of its run |
| Session.Session.Restart | src/pipeline.rs:812-836 | a new process over the timeline another one left is one crash tick of every message |
| Session.Session.Ingest | src/pipeline.rs:1243-1307 | every cell stays the run of its ticks; one message gets one tick |
| Session.Session.Reply | src/pipeline.rs:2366-2550 | every cell stays the run of its ticks; one message gets one tick |
| Session.Session.Sweep | src/pipeline.rs:2195-2323 | every cell stays the run of its ticks; every message gets its own sweep |
| Session.Session.Drain | src/pipeline.rs:1390-1423 | every cell stays the run of its ticks; every message gets one recovery tick |
| Session.Session.Resume | src/pipeline.rs:1148-1220 | every cell stays the run of its ticks; every message gets the resume |
| Session.Session.ReplayNext | src/pipeline.rs:1222-1233 | every cell stays the run of its ticks; one message gets one replay |
| Session.Session.NothingIsLost | src/pipeline.rs:1425-2323 | in the engine's own tables every state has an ack, a hold, an owed replay or a past audit hold, and a stranded row means a crash no recovery followed |
| Database.NewestFrom | src/database.rs:2130-2139 | the cutoff id selects exactly the `keep` largest ids |
| Database.TimelineDb.InsertEvent | src/database.rs:840-878 | inserts a 'queued' row with the given columns unless the key exists |
| Database.TimelineDb.SetUserUuid | src/database.rs:1127-1140 | records the user once |
| Database.TimelineDb.WriteTerminalOutcome | src/database.rs:896-1014 | the pushed SET list and the guarded update change the row column by column as stated |
| Database.TimelineDb.MarkAudit | src/database.rs:1828-1838 | takes a hold with its reason |
| Database.TimelineDb.IsAudited | src/database.rs:1842-1860 | true exactly for a held row |
| Database.TimelineDb.ReleaseAudit | src/database.rs:1939-1962 | completes or fails a held row, and no other |
| Database.TimelineDb.LoadQueued | src/database.rs:1656-1690 | returns a row exactly while it is 'queued' |
| Database.TimelineDb.QueuedUuids | src/database.rs:1699-1720 | lists every 'queued' row once, oldest first |
| Database.TimelineDb.SetAudio | src/database.rs:1181-1222 | stores the bytes and appends a content type not yet listed |
| Database.TimelineDb.CullTimelineNoise | src/database.rs:2113-2176 | keeps exactly the newest `keep` noise rows and every other row, and returns before minus after |
| Registry.OwnerIsLastClaim | src/command_registry.rs:51-78 | an owner is the module of the last claim that has not registered since, and every index entry is backed by its owner's commands |
| Registry.CollisionsExact | src/command_registry.rs:51-78 | the reported collisions are exactly the pairs taken from another module, each once |
| Registry.FindCommandFinds | src/command_registry.rs:100-127 | the stored definition is found exactly when the module stores the pair |
| Registry.CommandRegistry.Register | src/command_registry.rs:51-78 | the in-place update is one replayed claim, with its collisions |
| Routing.CommandRecipients | src/pipeline.rs:32-66 | a command goes to exactly its owner and the catch-alls of the list, each once |
| Parser.EveryWordOnce | src/command_registry.rs:253-290 | every word after the name is used exactly once and in order as a flag, a value or an argument |
| Parser.ItemsReadBack | src/command_registry.rs:253-290 | well-formed flags and arguments are read back from their words |
| Parser.PairOrInline | src/command_registry.rs:256-272 | writing any `-n v` as `-n:v` changes neither flags nor arguments |
| Parser.OneLongest | src/command_registry.rs:234-245 | the longest registered prefix is unique, so the map order cannot matter |
| Parser.LongestFlag | src/command_registry.rs:234-245 | the loop finds the longest registered prefix in any order |
| Parser.ReadWords | src/command_registry.rs:250-292 | the walk's flags and arguments are those of the items |
| Parser.ParseCommand | src/command_registry.rs:228-305 | the parser computes the specified result in any map order, with its four ways to give none |
| Parser.ParseIsLossless | src/command_registry.rs:228-305 | the words after the flag are the name and the words of the items, none empty and none with white space |
| Parser.ParseOfPrint | src/command_registry.rs:225-305 | parsing what was printed returns flag, name, ordered pairs and arguments |
| Whitespace.WordsOfJoin | src/command_registry.rs:252-253 | splitting on white space undoes joining with spaces |
| Whitespace.WordsTrim | src/command_registry.rs:250-253 | trimming does not change the words |
| EditDistance.Symmetric | src/main.rs:438-452 | the distance is symmetric |
| EditDistance.ZeroIffEqual | src/main.rs:438-452 | the distance is zero exactly for equal strings |
| EditDistance.Triangle | src/main.rs:438-452 | the triangle inequality |
| EditDistance.NoScriptIsShorter | src/main.rs:438-452 | every script of edits is at least as long as the distance |
| EditDistance.ShortestScript | src/main.rs:438-452 | some script is exactly as long as the distance |
| EditDistance.DistanceIsMinimal | src/main.rs:438-452 | the distance is the least number of insertions, deletions and substitutions |
| EditDistance.EditDistance | src/main.rs:438-452 | the rolling rows compute the recursive distance |
| EditDistance.ClosestCommand | src/main.rs:421-436 | the answer is the first nearest name if that is close; a suggestion is a nearest registered name; none means no name within distance 2 |
| EditDistance.MissedIff | src/main.rs:421-436 | nothing is suggested although some name is close exactly when all names are more than two edits away, some name shares a prefix and the first nearest does not |
| EditDistance.NoneInSomeOrder | src/main.rs:421-436 | some order of the hash map suggests nothing exactly when some nearest name is not close |
| EditDistance.SharedPrefixMissed | src/main.rs:421-436 | a concrete name that shares a prefix and is not suggested |
| Streaks.StreakIsLastRun | src/stream_rewards.rs:110-136 | the streak is exactly the length of the user's last unbroken run of streams |
| Streaks.RestartForgetsRuns | src/stream_rewards.rs:90-94 | after a restart the first count is 1, which is right exactly when the user was on no run |
| Streaks.NextIsRun | src/stream_rewards.rs:118-126 | the stored counters give the run so far plus one |
| Streaks.StreamTracker.LoadStreaks | src/stream_rewards.rs:89-94 | seeds the rows and no previous stream |
| Streaks.StreamTracker.OpenStream | src/stream_rewards.rs:96-106 | closes an open stream first and starts with no attendance |
| Streaks.StreamTracker.CloseStream | src/stream_rewards.rs:108-136 | every attendee's row becomes their streak, and exactly those rows are returned |
| Streaks.StreamTracker.NoteAttendance | src/stream_rewards.rs:138-153 | keeps the first sighting and the latest one |
| Streaks.StreamTracker.StreakCount | src/stream_rewards.rs:155-176 | the count shown, cached or not, is what closing the stream will store for an attendee |
| Streaks.StreamTracker.Multiplier | src/stream_rewards.rs:155-183 | neutral without a stream; otherwise the run and the combined factor |
| Multipliers.StreakAnchors | src/stream_rewards.rs:35-41 | between 1 and 2; 1 exactly for a first stream, 2 exactly from the 11th, under any rounding |
| Multipliers.ActivityAnchors | src/stream_rewards.rs:43-51 | between 1 and 2, at its ends for no presence and for full presence |
| Multipliers.CapNeverBinds | src/stream_rewards.rs:53-56 | with both factors in range the cap of 4 never changes the rounded product |
| Multipliers.GainsAreScaledOnly | src/stream_rewards.rs:58-65 | a gain of up to 16777216 is never shrunk nor more than quadrupled, a loss never scaled |
| Multipliers.ShrinksIff | src/stream_rewards.rs:58-65 | some multiplier shrinks a gain if and only if its own cast to a float does |
| Multipliers.FirstShrunk | src/stream_rewards.rs:58-65 | rounding to even, 16777217 is the first gain that shrinks |
| EnvFile.ReadEnvMap | src/credentials.rs:16-38 | reads the settings of the file's lines in order |
| EnvFile.WriteEnvMap | src/credentials.rs:40-59 | the merge rewrites the first line of each key or appends one, and joins the lines into the file's text |
| EnvFile.ReadAfterMerge | src/credentials.rs:16-59 | for any file and entries, the merge reads back as the old map updated by every entry in order if and only if every key can be returned and the last value of each key is one line and what the key then reads as |
| EnvFile.ReadAfterWrite | src/credentials.rs:16-59 | the same for one entry |
| EnvFile.NeverReadsBack | src/credentials.rs:16-59 | a value with a newline or with a quote at an end never reads back |
| EnvFile.NewlineSplits | src/credentials.rs:16-59 | the second line of a value becomes a setting of its own |
| EnvFile.SpacedLineWins | src/credentials.rs:16-59 | a later `key =value` line makes a write unreadable |

## Left out

- WebSocket, TLS, JWT, protobuf encoding, the SQLite driver, backups: foreign code and I/O; a row update is a map update that succeeds, and error returns of storage calls are not modelled.
- Interleavings inside one handler: a handler is one atomic step, so a reply that arrives between two sends of one fan-out is not a case here.
- The windows between a hold check and what follows it are the interleavings inside a handler that runs may contain, and only in `HoldRace`; what follows is again one step.
- Message payloads the pipeline only passes on (channel, the sender's raw data, donations, user data): they take part in no decision modelled here.
- `permit_module`, block and ban caches, score charging: network and access control; an arbitrary answer per message, stage and module.
- The legacy 'processing' status and the latency averages: nothing in the protocol depends on them.
- CommaTypes.WritersAgreeIff: the "only if" half is stated for content types whose later comma-separated pieces do not start like a marker, because `RepeatedTypeCanAgree` shows it fails for others; the "if" half is unrestricted (`SuitedWritersAgree`).
- Chain.ChainIsExact: stated for runs with fixed surroundings, without a crash and without mixed sweeps, because outside them the list it compares with changes or the mixed sweep duplicates dispatches.
- Pausing.PauseIsTransparent: stated for runs in which, while the message is parked, the engine does not crash and its surroundings and audit status do not change, because a crash forgets the hold and a replay uses the surroundings of its own time.
- Once.DispatchedOncePerLife: stated for runs without mixed sweeps, because a mixed sweep dispatches a display twice (`MixedSweep.DisplayedTwice`).
- Once.ChainFramesAreBounded: stated for runs without a crash and with fixed surroundings, because a recovered message starts its chain again and a changed list moves its index.
- Once.FramesAreBounded: stated for configured lists that name each module once and a registry built by registrations, because a module listed twice is dispatched twice.
- Engine.Orchestrator.SweepEntry: a resend's error return, which skips the entry, is not modelled; a send that cannot be queued is.
- Multipliers.StreakAnchors: a float's overflow and not-a-number values are not modelled; the results need only that rounding is monotone, idempotent and exact on 24 bits.
- EnvFile.WriteEnvMap: file permissions, the atomic rename and JSON-encoded lists are not modelled.
- Rank chart, help text, config backfill, module discovery, shutdown signalling: plumbing or easy members.
