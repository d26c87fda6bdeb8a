# HumanFlow: verified model of the voice runtime

This Dafny 4.11 project models the hard parts of the HumanFlow voice runtime and of its offline
harness, and proves what they promise. `dafny verify dfyconfig.toml` checks all of it.

## What is modelled

**The response/playback protocol** (`domain`, `state_machine`, `ledger`, `ledger_truth`, `protocol`,
`session`). A session is cooperative concurrency: one response task, its playback tasks, interrupting
callers and arriving turns share the conversation state, the operation epoch, the cancel event, the
playback owner and the played-audio ledger. `Protocol.World` is everything they share; a `Choice` is
what runs between two suspension points; `Step` is that stretch of code. `Session.RealtimeVoiceSession`
is the session as an object whose methods update fields, a state machine object and a ledger object in
place; each method is proved to take the object exactly where the protocol says, so what is proved
about runs of the protocol holds for the object. `Invariants` and `Keeps` hold the inductive
invariant; `SessionReplay`, `SessionFinality`, `SessionTheorems` and `SessionStranding` hold the
theorems; `SessionAdmission` says which chunks a session admits, `SessionEvents` what every step
tells, and `SessionProgress` that an undisturbed response is played whole. `Sink` is the timed sink,
and `SinkSchedules` proves that playback tasks and sink allow each other's receipts.

**Strict timeline replay** (`timeline`, `timeline_theorems`, `interleaving`, `audit`). The checker that
reads what the state machine writes: what it accepts and measures is characterised by the positions of
events, and producer and consumer are proved to agree on every run, up to one exactly characterised
exception.

**PCM speech** (`final_admission`, `admission_gate`, `admission_theorems`, `admission_verdicts`,
`admission_episodes`, `barge_in`). The admission gate is a bounded deque of mutable episode objects
claimed by transcripts; its verdicts are characterised by levels, times and words, and its episodes by
the frames heard. The barge-in detector is a set of incremental counters, proved equal to a definition
over the frame history.

**Synthesis** (`packets`, `packet_queue`, `speech_stream`, `fallback`). Cutting a byte stream
into even packets, the bounded queue behind it, gapless reassembly, and the choice of a fallback
provider, also with the requests of many responses interleaved.

**Text** (`text`, `segmentation`, `segmenter`, `segmentation_theorems`, `segmentation_cuts`). From a
model's deltas to speakable segments: nothing is lost, and every cut is where it should be.

**Calendar and appointments** (`calendar`, `temporal`, `appointments`, `appointment_theorems`, `tracker`,
`tracker_theorems`). Weeks begin on Monday and dates are proleptic Gregorian (sections 3.2.1 and 3.2.2
of ISO 8601:2004). The tracker is a heap of mutable appointment objects with frame conditions; which
appointment a turn is about, and what each slot then holds, is characterised case by case.

**Harness** (`paths`, `scheduler`, `circuit`). The conservative scheduler with its path overlap test,
the integrity gate, and the retry circuit.

## Assumptions

- Clock readings never go back (`Domain.NonDecreasing`); everything else about time is arbitrary. Only
  readings that end up in the stream or in the ledger are counted.
- A sink behaves like `TimedPcmOutput.play`, which `Sink.Play` models: a receipt is cancelled only if
  the cancel event is set. It may also raise at any suspension point, and it may suspend in its
  progress observer.
- The tool coordinator makes at most one attempt per response and returns in THINKING, or raises; the
  turn policy, the reasoner, the synthesizer and all callers may do anything at any time.
- Background overlaps are not assumed to fire only while the agent speaks. The guard in
  `session.py:1362-1366` also admits an acoustic episode, so the step is part of the model with that
  flag as a free input, and the theorems say exactly what it breaks.

## Findings

Where the code does not meet what its documentation or its tests suggest, the model follows the code.
Each finding is proved, with the exact condition under which the promise does hold.

- A background overlap admitted by an acoustic episode while the session listens or is interrupted
  fires out of turn: the session is then SPEAKING although its response has ended, is winding up or is
  cancelled. If a response still lives, two things can repair this: its exception handler, and an
  interruption that finds it uncancelled. Without either the response ends and leaves the session
  SPEAKING for good. `StrandedExactly` says this of every run as an equivalence; `InterruptedOverlap`
  shows both outcomes after an interruption, and `FirstOverlapStrands` a session stranded by its first
  event.
- `docs/ARCHITECTURE.md:65-67` promises that replay rejects uncorrelated cancellations. The session
  itself emits one when a response fails while a look-ahead chunk still waits for its sink
  (`ReplayExact`, `OrphanExactly`, `OrphanHappens`). Without a failing response it never does.
- `docs/ARCHITECTURE.md:44` calls the ledger append-only. Its order is; its entries are replaced, but
  only move forward, and a settled entry never changes (`PerformAllKeeps`).
- How many packets an odd number of bytes gives depends on how the network splits them
  (`SplitBlindExactly`).
- The packet queue drops its end mark when it is full at the end of a response. The stream, which has
  everything by then, still waits until its deadline raises or it is cancelled (`LostForGood`); no
  schedule loses the mark exactly below twelve packets (`EndMarkExactly`).
- A request text with outer blanks cannot be reassembled gaplessly (`ReassemblesExactly`).
- The disclosure check strips outer commas from every fragment it looks at, not only from one that held
  a self-introduction. A long sentence that is cut right behind a comma loses it (`CutComma`); nothing
  else is lost (`ReviewedKeeps`), and nothing at all exactly without such commas (`ResponseKeeps`).
- The loop of the prosody planner's word split ends exactly when segments may hold a character or there
  is nothing to split; a maximum of zero is not refused (`EndsExactly`).
- After 128 newer responses a response forgets its synthesizer and can go on in another voice
  (`Forgotten`); up to 128 it never does (`OneVoice`).
- The path overlap test is unsound for globs that are anchored on the right only; `SafeExactly` says
  for which rules it is sound. Matching ignores leading slashes and the overlap test does not, so
  `/src/**` and `src/**` match the same paths unreported; `AnchoredOverlap` and `SafeAgainstAllExactly`
  give the exact conditions. Task records admit no absolute rules (`registry.py:408-411`).
- A second cancellation of a booking by the user, before a tool answers the first, marks it CANCELLED
  locally (`CancelledTwice`).
- `record_tool_result` is documented as the only path to an external claim
  (`appointment_state.py:439`); restoring a committed booking is another one (`RestoreHolds`).

## Model

Member names are qualified by module and class; source paths are relative to the repository root.

| member | source | states |
|---|---|---|
| SessionStranding.StrandedExactly | src/humanflow/runtime/session.py:1986-2163 | On every run the response task raises no refused transition, ledger refusal or failed ledger check; whenever none runs, the session is stranded if and only if some background overlap fired out of turn and after it no response raised and no interruption took effect, and else it is quiescent: it listens or has handed over, every entry is settled, no owner or provider pin is left and no task is unfinished |
| SessionStranding.StepDooms | src/humanflow/runtime/session.py:2070-2122 | One step dooms a session to speak out of turn if and only if an overlap fires out of turn, or it was doomed before and neither the handler of the live response runs nor an interruption finds that response uncancelled |
| SessionStranding.RunDooms | src/humanflow/runtime/session.py:1429-1446 | The same over every schedule from any world of the invariant |
| SessionStranding.TaskDecided | src/humanflow/runtime/session.py:2052-2107 | A step of the response runs its exception handler exactly when the guards of the raising branches say so, and only that saves a doomed session |
| SessionStranding.InterruptedOverlap | src/humanflow/runtime/session.py:2070-2107 | After an interruption the same overlap strands the session if the response then ends, and leaves it quiescent if the response then raises |
| SessionStranding.InterruptedReached | src/humanflow/runtime/session.py:792-934 | Such an interrupted session is reached from a fresh one by a turn, its launch and an interruption |
| SessionStranding.CompletionWaits | src/humanflow/runtime/session.py:2046-2110 | Every response that completes with audio reaches its final wait uncancelled and listening, so an overlap can still fire out of turn there |
| SessionStranding.InterruptionRepairs | src/humanflow/runtime/session.py:803-815 | While a response only waits for its finished tasks, an interruption repairs what an overlap did |
| SessionTheorems.Quiescence | src/humanflow/runtime/session.py:1986-2163 | Without an overlap out of turn every ended response leaves the session quiescent; with one it is quiescent or speaks |
| SessionTheorems.DoneIsQuiescent | src/humanflow/runtime/session.py:2108-2163 | With no response task the session is quiescent if and only if it is not stranded, and only an overlap out of turn strands it |
| SessionTheorems.NeverStuck | src/humanflow/runtime/session.py:2311-2321 | No live response waits for something that cannot happen: the response task or a playback task it waits for can always go on without a caller |
| SessionTheorems.AwaitStates | src/humanflow/controller/state_machine.py:15-114 | OVERLAP, POSSIBLE_INTERRUPTION and RECOVERING never survive to an await point, THINKING never has a playback task, and SPEAKING in turn means a live, uncancelled response with a current token |
| SessionTheorems.TurnTakesOver | src/humanflow/runtime/session.py:1495-1520 | A complete turn cancels a live response that has not begun to speak and takes the session to INTERRUPTED, and leaves any other response alone |
| SessionTheorems.EntersSpeaking | src/humanflow/runtime/session.py:1868-1921 | Speaking begins only with the first audio of a live, uncancelled response whose operation token is current, or by an overlap out of turn |
| SessionTheorems.RunStrays | src/humanflow/runtime/session.py:1429-1446 | A run is marked as strayed if and only if some background overlap in it fired out of turn |
| SessionTheorems.OverlapStrands | src/humanflow/runtime/session.py:1429-1446 | Between turns a background overlap strands the session if and only if an acoustic episode admits it |
| SessionTheorems.FirstOverlapStrands | src/humanflow/runtime/session.py:1362-1366 | A session that has only just started can be stranded by its very first event |
| SessionTheorems.StrandedForever | src/humanflow/runtime/session.py:1535-1538 | Once stranded, the session speaks without a response on every continuation |
| SessionTheorems.SingleOwner | src/humanflow/runtime/session.py:2395-2409 | At every await point everything queued or playing belongs to the one live response, which owns the sink; at most two of its tasks are unfinished; it has retried speech, called the tool and run the reasoner at most once each |
| SessionTheorems.RetriesOnlySilent | src/humanflow/runtime/session.py:1949-1976 | Speech is retried only by a live, uncancelled response with no audio in the ledger and no earlier retry |
| SessionTheorems.CancellationIsFinal | src/humanflow/runtime/session.py:792-934 | After a response is cancelled no continuation registers, queues or schedules a chunk of it, and no sink consumes another sample of it, including when the cancel lands while it waits for playback capacity |
| SessionTheorems.PlayedTruth | src/humanflow/runtime/providers.py:544-581 | At every await point a settled entry claims exactly what its sink consumed, no entry claims more, and a fully delivered one was consumed to its last sample |
| SessionAdmission.AdmitsExactly | src/humanflow/runtime/session.py:2358-2432 | From every reachable world with no broken playback, no cancellation and room for a task, a chunk becomes one more queued entry and one more waiting task if and only if it is of the live response, its id and its own place in its stream are new, and sink and provider are free or its own; otherwise it leaves the ledger, the tasks and the names heard of as they were |
| SessionAdmission.RefusesExactly | src/humanflow/runtime/session.py:1811-1830 | A chunk that meets a broken playback, a cancellation or two unfinished tasks leaves everything as it was, and the response goes on, closes the stream or waits accordingly |
| SessionAdmission.StepReceives | src/humanflow/runtime/session.py:2358-2432 | A step registers the admissible chunk it brings and nothing else |
| SessionAdmission.RunReceives | src/humanflow/runtime/session.py:1830-1921 | Over every run the ledger registers exactly the chunks received, in the order they came, and the session knows exactly their ids and their places in their streams |
| SessionProgress.PlaysOut | src/humanflow/runtime/session.py:2175-2300 | A queued chunk whose sink is not disturbed is played to its last sample and settled as that |
| SessionProgress.ChunksSpoken | src/humanflow/runtime/session.py:1811-1921 | Any number of new chunks of one segment are registered in order and played whole |
| SessionProgress.SegmentSpoken | src/humanflow/runtime/session.py:1922-1976 | A segment that brought audio is closed and followed by the next segment or the next text |
| SessionProgress.ResponseSpoken | src/humanflow/runtime/session.py:1535-2163 | From every quiescent reachable world, for any texts of any segments of any new chunks: an undisturbed response registers exactly these chunks in order, plays each to its last sample and leaves the session listening and quiescent, with the earlier ledger untouched |
| SessionProgress.RetriesExactly | src/humanflow/runtime/session.py:1771-1976 | A stream that raises or ends without audio is tried once more if and only if nothing was heard yet, it was the first attempt and the response is not cancelled; otherwise the response fails, unless it is cancelled and the stream only ended |
| SessionEvents.StepTells | src/humanflow/runtime/session.py:1599-2432 | Every step of every caller, provider, sink and scheduler tells exactly the events, of these kinds, in this order and under these correlations, that its guards call for |
| SessionEvents.ArrivalTells | src/humanflow/runtime/session.py:1811-1921 | A chunk is told stale, duplicate, or received and scheduled, behind the owner, the provider and the first audio where these are new |
| SessionEvents.TaskTells | src/humanflow/runtime/session.py:2165-2300 | A playback tells its start and its end, and the first cancelled receipt of a response tells the stop under the correlation of the interruption |
| SessionEvents.FailTells | src/humanflow/runtime/session.py:2052-2110 | The exception handler tells invalidation, recovery, lost audio if there is any, and the way out of the state it found |
| SessionReplay.ReplayExact | src/humanflow/evaluation/timeline.py:48-120 | Strict replay accepts the stream of a run if and only if the run has no orphan step, then ends in the machine's own state, and always accepts a run in which no response fails |
| SessionReplay.OrphanExactly | src/humanflow/runtime/session.py:2286-2297 | A first cancelled receipt lacks its candidate if and only if its response failed without being interrupted and the sink only now starts the chunk |
| SessionReplay.OrphanHappens | src/humanflow/runtime/session.py:2052-2107 | There is such a run from a fresh session: speech fails while its only chunk waits for the sink |
| SessionReplay.StepAudits | src/humanflow/runtime/session.py:813-859 | Every single step keeps the stream consistent and accepted, except exactly the orphan; in particular every audio cancellation has its own earlier candidate |
| SessionReplay.RunAudits | src/humanflow/runtime/session.py:1599-2163 | The same over whole runs from any reachable world: acceptance is kept if and only if no orphan step occurs |
| SessionFinality.StepWorks | src/humanflow/runtime/session.py:1808-1921 | Every step winds entries down, or enlists one chunk of the uncancelled live response behind all others, or advances one playback task |
| SessionFinality.RunFinal | src/humanflow/runtime/providers.py:560-573 | Samples consumed and entries of a cancelled response never grow again |
| SessionFinality.StepSchedules | src/humanflow/runtime/session.py:1876-1921 | The chunks the stream says were scheduled are always the ledger's registration order |
| SessionFinality.StepHeard | src/humanflow/audio/ledger.py:102-124 | The ledger keeps claiming exactly what the sinks consumed |
| SessionFinality.RunSound | src/humanflow/runtime/session.py:1599-2163 | Invariant, stream, schedule and heard samples stay consistent on all runs |
| Keeps.StepKeeps | src/humanflow/runtime/session.py:1599-2300 | The inductive invariant survives every step of every caller, provider, sink and scheduler |
| Keeps.RunKeeps | src/humanflow/runtime/session.py:1599-2300 | It holds after every feasible run |
| Keeps.InitialInv | src/humanflow/runtime/session.py:246-259 | It holds for a session that has just started |
| Keeps.InterruptKeeps | src/humanflow/runtime/session.py:792-934 | An interruption at any suspension point keeps the invariant |
| Keeps.InterruptShape | src/humanflow/runtime/session.py:813-859 | An interruption leads from speaking, overlap, a possible interruption or thinking to interrupted, sets the cancel event and marks the response as cancelled, and touches nothing else |
| Keeps.ConfirmKeeps | src/humanflow/runtime/session.py:1500-1520 | A complete turn, and its takeover of a response that has not begun to speak, keep the invariant |
| Keeps.BeginKeeps | src/humanflow/runtime/session.py:1528-1597 | Beginning a response keeps the invariant |
| Keeps.OverlapKeeps | src/humanflow/runtime/session.py:1429-1446 | A background overlap keeps the invariant, which then records whether it fired out of turn |
| Keeps.ToolReturnedKeeps | src/humanflow/runtime/session.py:1621-1669 | Whatever the tool did, the session goes on in thinking or recovers |
| Keeps.AdmitKeeps | src/humanflow/runtime/session.py:2358-2432 | Admitting, rejecting or refusing a chunk keeps the invariant; no ledger operation is refused |
| Keeps.CancelRestKeeps | src/humanflow/runtime/session.py:2111-2122 | Cancelling the rest of a response succeeds, leaves nothing queued and keeps tasks and entries matched |
| Keeps.RecoverKeeps | src/humanflow/runtime/session.py:2052-2107 | Whatever raised, recovery settles the ledger and leads to listening, or to handoff when audio of unknown extent was playing |
| Keeps.StopKeeps | src/humanflow/runtime/session.py:2175-2300 | Settling a receipt keeps the invariant and the sink's task is finished |
| Keeps.ConcludeKeeps | src/humanflow/runtime/session.py:2108-2163 | The end of a response leaves the session silent and listening or handed over |
| Session.RealtimeVoiceSession.Interrupt | src/humanflow/runtime/session.py:792-934 | The object's interruption takes it exactly where the protocol says |
| Session.RealtimeVoiceSession.ConfirmTurn | src/humanflow/runtime/session.py:1498-1520 | A complete turn as the protocol says, including the takeover |
| Session.RealtimeVoiceSession.BeginResponse | src/humanflow/runtime/session.py:1528-1597 | A new response as the protocol says, or nothing when one runs or the session does not listen |
| Session.RealtimeVoiceSession.BackgroundOverlap | src/humanflow/runtime/session.py:1429-1446 | The overlap step as the protocol says |
| Session.RealtimeVoiceSession.TextArrives | src/humanflow/runtime/session.py:1677-1720 | One text of the reasoner as the protocol says |
| Session.RealtimeVoiceSession.AcceptAudioChunk | src/humanflow/runtime/session.py:2358-2432 | The gate for chunks as the protocol says: response, cancellation, duplicates, owner, provider |
| Session.RealtimeVoiceSession.Enter | src/humanflow/runtime/session.py:1836-1921 | Registering, queueing and scheduling as the protocol says, with the last-moment cancel check |
| Session.RealtimeVoiceSession.StreamClosed | src/humanflow/runtime/session.py:1922-1985 | The end of a speech stream, retry included, as the protocol says |
| Session.RealtimeVoiceSession.Fail | src/humanflow/runtime/session.py:2052-2107 | Recovery as the protocol says |
| Session.RealtimeVoiceSession.Conclude | src/humanflow/runtime/session.py:2108-2163 | The final block as the protocol says |
| Session.RealtimeVoiceSession.SinkReturns | src/humanflow/runtime/session.py:2175-2300 | Settling a receipt as the protocol says |
| Session.RealtimeVoiceSession.PlaybackStarted | src/humanflow/runtime/session.py:2469-2506 | The start of a playback as the protocol says |
| Session.RealtimeVoiceSession.RecordCancelled | src/humanflow/runtime/session.py:2647-2734 | The first cancelled receipt of a response, and only that, announces the stop |
| Session.RealtimeVoiceSession.ReleasePlaybackOwner | src/humanflow/runtime/session.py:2434-2467 | Only the owner releases the sink and its provider pin |
| Session.RealtimeVoiceSession.Take | src/humanflow/runtime/session.py:1599-2300 | Every enabled choice takes the object exactly one protocol step further |
| Session.RealtimeVoiceSession.Follow | src/humanflow/runtime/session.py:1599-2300 | Every feasible schedule takes the object exactly where the run of the protocol leads, so all theorems above are about this object |
| StateMachine.ConversationStateMachine.Transition | src/humanflow/controller/state_machine.py:139-168 | A move succeeds if and only if the graph has the edge; a refused one has no effect |
| StateMachine.ConversationStateMachine.Emit | src/humanflow/controller/state_machine.py:204-242 | Every event gets the next sequence number, the next clock reading and the current state |
| StateMachine.ConversationStateMachine.IssueOperation | src/humanflow/controller/state_machine.py:170-176 | A fresh token is current |
| StateMachine.ConversationStateMachine.InvalidateOperations | src/humanflow/controller/state_machine.py:178-186 | All earlier tokens become stale and the stream says so |
| StateMachine.ConversationStateMachine.AcceptResult | src/humanflow/controller/state_machine.py:188-202 | A result is accepted if and only if its token is current; a stale one leaves a trace |
| Audit.RecordKeeps | src/humanflow/controller/state_machine.py:204-242 | Recording keeps the replay in agreement with the machine, and only an unannounced cancellation loses acceptance |
| Audit.MoveKeeps | src/humanflow/controller/state_machine.py:139-168 | Every accepted move of the machine is one the replay accepts |
| Timeline.ReplayTimeline | src/humanflow/evaluation/timeline.py:48-120 | The single pass over dictionaries and metric lists computes the replay fold, errors included |
| TimelineTheorems.AcceptsExactly | src/humanflow/evaluation/timeline.py:48-113 | A timeline is accepted if and only if each event has its identities, the number after that of its conversation's last event and no earlier time, starts a transition where its conversation's last transition led to and follows the graph or is recorded there, and cancels audio only behind an unanswered candidate of its own correlation |
| TimelineTheorems.SamplesExactly | src/humanflow/evaluation/timeline.py:101-120 | The k-th first-audio sample is the time from the last confirmed turn of its conversation and correlation to the k-th first audio that answers one; the same for barge-in with candidates and cancellations; the conversations counted are those with a transition |
| Interleaving.InterleavingExact | src/humanflow/evaluation/timeline.py:49-120 | A timeline of many conversations is accepted if and only if every line names its conversation and each conversation's own projection is accepted; final states agree |
| Interleaving.SamplesAgree | src/humanflow/evaluation/timeline.py:103-113 | The latency samples of the whole are, as multisets, those of the projections |
| Interleaving.SampleCounts | src/humanflow/evaluation/timeline.py:103-113 | One barge-in sample per cancellation, at most one first-audio sample per confirmed turn, none negative |
| LedgerTruth.SplitExactly | src/humanflow/audio/ledger.py:158-186 | The semantic ids of a report split exactly into delivered and unheard ones, each unheard id listed once |
| LedgerTruth.UnheardFirst | src/humanflow/audio/ledger.py:167-186 | Unheard ids are listed by their first registration, in registration order |
| LedgerTruth.RelevantExactly | src/humanflow/audio/ledger.py:154-156 | A report holds exactly the entries of its response |
| LedgerTruth.PerformAllKeeps | src/humanflow/audio/ledger.py:59-151 | Under any operations, accepted or refused, the order only grows and settled entries never change |
| LedgerTruth.DeliveredWasPlayed | src/humanflow/audio/ledger.py:38-41 | Nothing unconfirmed or never started counts as delivered |
| LedgerTruth.DeliveredNeverLost | src/humanflow/audio/ledger.py:158-197 | Delivered ids are never lost and the ledger's own assertions hold, under any operations |
| LedgerTruth.FromEmpty | src/humanflow/audio/ledger.py:54-57 | A ledger that starts empty is valid after any operations |
| Ledger.CancelFromWalk | src/humanflow/audio/ledger.py:126-138 | Cancelling alters only waiting entries of its response and only to cancelled |
| Ledger.CancelFromCompletes | src/humanflow/audio/ledger.py:126-138 | With a late enough time the walk completes and nothing of the response is left waiting |
| Ledger.PerformKeeps | src/humanflow/audio/ledger.py:59-151 | Every operation keeps the ledger valid and moves entries forward only |
| LedgerTruth.PlayedAudioLedger.RegisterGenerated | src/humanflow/audio/ledger.py:59-76 | Registers behind all others, or refuses without effect |
| LedgerTruth.PlayedAudioLedger.MarkQueued | src/humanflow/audio/ledger.py:78-87 | Queues a generated entry, or refuses without effect |
| LedgerTruth.PlayedAudioLedger.MarkPlaybackStarted | src/humanflow/audio/ledger.py:89-100 | Starts a queued entry, or refuses without effect |
| LedgerTruth.PlayedAudioLedger.RecordPlayback | src/humanflow/audio/ledger.py:102-124 | Settles a playing entry at its receipt, or refuses without effect |
| LedgerTruth.PlayedAudioLedger.CancelUnplayed | src/humanflow/audio/ledger.py:126-138 | Walks the order in place; entries before an offending one stay cancelled |
| LedgerTruth.PlayedAudioLedger.MarkPlaybackUnconfirmed | src/humanflow/audio/ledger.py:140-152 | Every playing entry of the response becomes unconfirmed, and it says whether there was one |
| LedgerTruth.PlayedAudioLedger.DeliveredText | src/humanflow/audio/ledger.py:158-165 | The texts of delivered entries in order |
| LedgerTruth.PlayedAudioLedger.UnheardText | src/humanflow/audio/ledger.py:167-186 | The loop with its seen set computes the texts of unheard ids, each once |
| LedgerTruth.PlayedAudioLedger.AssertInvariants | src/humanflow/audio/ledger.py:188-197 | Passes if and only if every entry is sound |
| SinkSchedules.ReturnedExactly | src/humanflow/runtime/providers.py:544-581 | The sink can be stopped after any number of samples and says so if and only if some are left |
| SinkSchedules.StopsLikeSink | src/humanflow/runtime/session.py:2175-2200 | A playback task finishes only by leaving its loop, at its start, after a block or after its observer, and its receipt is then one the sink returns; no other step finishes a task |
| SinkSchedules.BlockStep | src/humanflow/runtime/providers.py:556-573 | Each block of the sink is a step of the protocol, and the last one stops the task with a complete receipt |
| SinkSchedules.BlocksRun | src/humanflow/runtime/providers.py:556-573 | Any number of the sink's blocks is a run of the protocol that leaves the task where the sink is |
| SinkSchedules.CancelledBlock | src/humanflow/runtime/providers.py:560-573 | Once the event is set the next block stops the task where it was, with a cancelled receipt |
| Sink.Play | src/humanflow/runtime/providers.py:544-581 | Plays blocks until the chunk is consumed or the event is seen; a receipt is cancelled if and only if samples are missing, and only if the event was set |
| AdmissionTheorems.ClaimsRise | src/humanflow/runtime/final_admission.py:380-385 | Per stream, accepted finals claim episodes of strictly increasing generation: none twice and none that expired, despite the bounded deque and claims on the growing episode |
| AdmissionTheorems.RunKeeps | src/humanflow/runtime/final_admission.py:239-400 | The invariant behind it holds after all time-ordered frames and finals |
| AdmissionTheorems.ObserveKeeps | src/humanflow/runtime/final_admission.py:239-300 | A frame keeps it, whether it opens, grows, closes or switches an episode |
| AdmissionTheorems.EarliestFirst | src/humanflow/runtime/final_admission.py:437-490 | Of all open episodes a final takes the one that starts first |
| AdmissionTheorems.FoundIsNew | src/humanflow/runtime/final_admission.py:437-490 | What a final finds is newer than everything claimed before on its stream |
| AdmissionTheorems.ExpireKeeps | src/humanflow/runtime/final_admission.py:437-490 | Expiring passed episodes keeps the invariant |
| AdmissionGate.FinalTranscriptAdmissionGate.Observe | src/humanflow/runtime/final_admission.py:239-300 | The mutable episodes and the deque follow the gate's value on every frame, events included |
| AdmissionGate.FinalTranscriptAdmissionGate.AssessFinal | src/humanflow/runtime/final_admission.py:302-399 | A final is judged, claimed, or expires episodes in place exactly as the value says |
| AdmissionVerdicts.AcceptsExactly | src/humanflow/runtime/final_admission.py:302-399 | A final that belongs to an episode is accepted if and only if the episode is speech with enough voice for its words, by the written-out formula, or corroborated outside playback, and overwhelming where it may be the assistant's own speech; reasons and effect follow |
| AdmissionVerdicts.RefusesExactly | src/humanflow/runtime/final_admission.py:437-490 | A final that belongs to no episode is refused with the first reason that applies, and expires the waiting episodes of its frames if and only if all of them are over |
| AdmissionVerdicts.PlaybackNeverHelps | src/humanflow/runtime/final_admission.py:412-413 | Playback never turns a refusal into an acceptance, and under it only enough voice is accepted |
| AdmissionVerdicts.SuspicionNeverHelps | src/humanflow/runtime/final_admission.py:337-352 | Neither does a suspicion that the assistant hears itself; a suppressed final needs 480 ms, one and a half times the required voice and both raised levels |
| AdmissionEpisodes.ObserveExactly | src/humanflow/runtime/final_admission.py:239-300 | One frame continues, begins, ends or leaves the growing episode by its level, stream, gap and silence; noise floor and events follow |
| AdmissionEpisodes.MeasuresAll | src/humanflow/runtime/final_admission.py:239-300 | Over every run each episode is exactly what was heard in it: beginning, end, length of voice, largest levels, and whether it counts as speech; the growing one has heard less silence since than would end it |
| AdmissionGate.FinalTranscriptAdmissionGate.Associate | src/humanflow/runtime/final_admission.py:437-490 | The loop over candidates finds the earliest open episode |
| AdmissionGate.FinalTranscriptAdmissionGate.FinishActive | src/humanflow/runtime/final_admission.py:498-516 | Finalises the growing episode and appends it to the bounded deque |
| AdmissionGate.FinalTranscriptAdmissionGate.ExpirePassed | src/humanflow/runtime/final_admission.py:437-490 | Exactly the finalizing episodes framed by the final expire |
| AdmissionGate.FinalTranscriptAdmissionGate.Explain | src/humanflow/runtime/final_admission.py:437-490 | The reason given when no open episode fits |
| AdmissionGate.FinalTranscriptAdmissionGate.HasRecoverableEvidence | src/humanflow/runtime/final_admission.py:401-435 | Independent evidence replaces voiced time only outside playback and with every condition met |
| BargeIn.DetectorAgrees | src/humanflow/runtime/acoustic_barge_in.py:77-147 | On every frame history the incremental counters equal the definition over the frames since the last reset, and each frame emits exactly what the definition says |
| BargeIn.SpeechExactly | src/humanflow/runtime/acoustic_barge_in.py:80-82 | Speech is what reaches the minimum level, the noise floor times its factor and the minimum peak |
| BargeIn.AdaptExactly | src/humanflow/runtime/acoustic_barge_in.py:174-176 | The noise floor moves 4 percent of the way towards the level, which counts at most as the minimum |
| BargeIn.EventGrammar | src/humanflow/runtime/acoustic_barge_in.py:95-147 | Events form blocks of one onset, at most one takeover and one end, cut short only by a playback stop |
| BargeIn.FloorDecays | src/humanflow/runtime/acoustic_barge_in.py:174-176 | The excess of the noise floor over the minimum level decays geometrically with every move |
| BargeIn.LoudSpeechIsSpeech | src/humanflow/runtime/acoustic_barge_in.py:77-84 | The floor never exceeds the larger of its start and the minimum level, so loud enough speech is classified as speech after every history |
| BargeIn.AcousticBargeInDetector.Observe | src/humanflow/runtime/acoustic_barge_in.py:77-147 | The fields follow the detector's value on every frame |
| Packets.ReadExactly | src/humanflow/runtime/elevenlabs_provider.py:327-359 | Without cancellation reading has no audio below one sample, exhausts the budget if and only if the whole samples do not fit, and else yields exactly the expected packets |
| Packets.SecondsExactly | src/humanflow/runtime/elevenlabs_provider.py:51-56 | A second of audio are 16,000 samples of two bytes |
| Packets.PacketRoundTrip | src/humanflow/runtime/elevenlabs_provider.py:327-359 | For every split of at least two bytes the packets are non-empty and even, join to the bytes without an odd last one, and exactly the last is final |
| Packets.SplitBlindExactly | src/humanflow/runtime/elevenlabs_provider.py:327-345 | The packet list depends on the bytes alone if and only if their number is even or exceeds the first packet by at most one |
| SpeechStream.SynthesisBudget.Reserve | src/humanflow/runtime/elevenlabs_provider.py:39-45 | Reserves if and only if the text is not empty and fits; a refusal has no effect |
| SpeechStream.SynthesisBudget.RecordAudio | src/humanflow/runtime/elevenlabs_provider.py:55-57 | Adds the duration of the bytes |
| SpeechStream.ReadResponse | src/humanflow/runtime/elevenlabs_provider.py:275-359 | The in-place packet loop computes the specified outcome and spends the specified budget, with a cancellation at any piece |
| SpeechStream.StreamGapless | src/humanflow/runtime/providers.py:449-533 | The loop over lists and sets reassembles exactly, or reports the first objection; a cancelled segment yields nothing |
| SpeechStream.NumberedPasses | src/humanflow/runtime/elevenlabs_provider.py:163-245 | The chunks the provider numbers raise none of the reassembler's objections |
| SpeechStream.FirstWrong | src/humanflow/runtime/providers.py:458-475 | The first chunk that is out of place decides the error, and there is none if and only if all chunks are of the response, in their places and with different ids |
| SpeechStream.AcceptedExactly | src/humanflow/runtime/providers.py:481-520 | A segment is reassembled if and only if its chunks are in place and are one browser chunk, or PCM of one source that ends with the boundary and the text of the request |
| SpeechStream.OnlyLastSpeaks | src/humanflow/runtime/elevenlabs_provider.py:218-240 | Only the final chunk carries the text, as it is to be shown |
| SpeechStream.ReassemblesExactly | src/humanflow/runtime/providers.py:455-533 | One request reassembles into one buffer with the same PCM if and only if its text has no outer blanks; otherwise the final boundary is reported missing |
| SpeechStream.StreamRoundTrip | src/humanflow/runtime/elevenlabs_provider.py:327-359 | From the network to the sink exactly the received bytes arrive, without an odd last one, however they were split |
| PacketQueue.StreamReceives | src/humanflow/runtime/elevenlabs_provider.py:179-245 | On every schedule, with any deadline, cancellation or reader failure, what was received is a prefix of the packets; after a stop at the end mark it is all of them; a reader that is done left something to stop at if and only if it did not lose its end mark |
| PacketQueue.LostForGood | src/humanflow/runtime/elevenlabs_provider.py:179-225 | Once the end mark is lost, only the deadline or a cancellation ends the stream |
| PacketQueue.StopsByItself | src/humanflow/runtime/elevenlabs_provider.py:216-225 | Otherwise taking what is queued is enough to stop at the mark or at a failure |
| PacketQueue.EndMarkExactly | src/humanflow/runtime/elevenlabs_provider.py:247-273 | No schedule loses the end mark if and only if a response has fewer packets than the queue holds |
| Fallback.FallbackStreamingTTSProvider.StreamSpeech | src/humanflow/runtime/elevenlabs_provider.py:412-456 | The two chunk loops with their pins yield the specified voices and ending, and no pin is ever contradicted |
| Fallback.FallbackStreamingTTSProvider.PinResponseProvider | src/humanflow/runtime/elevenlabs_provider.py:458-465 | Raises if and only if another provider is pinned; the oldest of more than 128 pins is dropped |
| Fallback.SpeakKeeps | src/humanflow/runtime/elevenlabs_provider.py:412-456 | A request never mixes providers and obeys the pin of its response |
| Fallback.OneVoice | src/humanflow/runtime/elevenlabs_provider.py:458-465 | Over any requests for at most 128 responses each response is heard in one voice only, whatever fails |
| Fallback.OneVoiceInterleaved | src/humanflow/runtime/elevenlabs_provider.py:412-465 | However the requests of many responses interleave, chunk by chunk, no chunk is refused by its pin, and up to 128 responses each is heard in one voice only |
| Fallback.ScriptSpeaks | src/humanflow/runtime/elevenlabs_provider.py:412-456 | Served alone, a request does in that interleaved system what is specified for it |
| Fallback.Forgotten | src/humanflow/runtime/elevenlabs_provider.py:463-465 | The bound is exact: after 128 others a response may go on in another voice |
| SegmentationTheorems.StreamKeeps | src/humanflow/runtime/anthropic_provider.py:285-310 | For every chopping into deltas fragments and pending text hold exactly the characters other than blanks, in order; fragments have at most 220 characters |
| SegmentationTheorems.SpokenKeeps | src/humanflow/runtime/anthropic_provider.py:285-309 | The fragments that reach the review, the flushed one included, hold all of them |
| SegmentationTheorems.ReviewedKeeps | src/humanflow/runtime/anthropic_provider.py:331-345 | A review whose guard and pattern take nothing out adds the introduction once, if it is due, and loses at most commas: none if and only if no fragment that the disclosure check looks at begins or ends with one |
| SegmentationTheorems.CutComma | src/humanflow/runtime/anthropic_provider.py:331-371 | A comma right before the cut of a long sentence is one of those that are lost |
| SegmentationTheorems.ResponseKeeps | src/humanflow/runtime/anthropic_provider.py:285-316 | A response always says something; where guard and pattern take nothing out it says exactly the model's characters other than blanks behind the introduction if due, or asks back where that would be nothing, if and only if no checked fragment has an outer comma |
| SegmentationTheorems.StableKeeps | src/humanflow/runtime/speech_text.py:43-56 | Taking stable sentences loses nothing and leaves no complete sentence behind |
| SegmentationTheorems.SentencesKeep | src/humanflow/runtime/speech_text.py:59-74 | Splitting a complete text loses nothing |
| SegmentationTheorems.SplitLongKeeps | src/humanflow/runtime/anthropic_provider.py:362-371 | Splitting a long fragment loses nothing and bounds every piece |
| SegmentationTheorems.BoundariesKeep | src/humanflow/runtime/anthropic_provider.py:348-359 | Taking boundaries loses nothing and bounds what is pending |
| SegmentationTheorems.PlanKeeps | src/humanflow/runtime/prosody.py:42-83 | Planning keeps every character other than blanks in order, no segment is empty or too long, and a text is refused if and only if it has no such character |
| SegmentationTheorems.PipelineKeeps | src/humanflow/runtime/prosody.py:42-83 | From deltas through the review to segments nothing that the response says is lost, added or reordered; where guard and pattern take nothing out and something is to be said, the segments hold the introduction and the model's characters if and only if no checked fragment has an outer comma |
| SegmentationTheorems.EndsExactly | src/humanflow/runtime/prosody.py:70-83 | The loop of the word split ends if and only if segments may hold a character or there is nothing to split |
| SegmentationCuts.FirstEndExactly | src/humanflow/runtime/speech_text.py:109-121 | The scan finds the first mark with a blank or nothing behind it that is no protected period, and none if and only if there is none |
| SegmentationCuts.WordSplitExactly | src/humanflow/runtime/speech_text.py:77-88 | A cut is made at the last run of blanks within the limits whose sides may be separated, or at the maximum if and only if there is none |
| SegmentationCuts.FirstCuts | src/humanflow/runtime/anthropic_provider.py:348-371 | Long sentences and pending text are cut so between 120 and 220, long segments from the smaller of 80 and half the maximum on |
| SegmentationCuts.ClauseEndExactly | src/humanflow/runtime/prosody.py:54-54 | A clause ends at the first blank behind a comma, a semicolon or a colon |
| SegmentationCuts.ShortStays | src/humanflow/runtime/prosody.py:51-53 | A text that fits is one segment |
| SegmentationCuts.ClauseStaysWhole | src/humanflow/runtime/prosody.py:54-67 | A clause that fits is never cut |
| SegmentationCuts.PacksTightly | src/humanflow/runtime/prosody.py:54-67 | Neighbouring segments of clauses that fit would not have fitted together |
| Segmenter.FirstBoundary | src/humanflow/runtime/speech_text.py:109-121 | The scan finds the first boundary as specified |
| Segmenter.TakeStableSpeechBoundaries | src/humanflow/runtime/speech_text.py:43-56 | The loop computes the specified fragments and rest, and terminates |
| Segmenter.FindWordSplit | src/humanflow/runtime/speech_text.py:77-88 | The last permitted blank run, or the maximum |
| Segmenter.TakeSpeechBoundaries | src/humanflow/runtime/anthropic_provider.py:348-359 | The loop computes the specified fragments and rest, and terminates |
| Segmenter.StreamResponse | src/humanflow/runtime/anthropic_provider.py:285-346 | The pending loop with its flush, the review of every fragment and the question for an empty response compute what is specified |
| Segmenter.ProsodyPlanner.SplitLongSegment | src/humanflow/runtime/prosody.py:51-68 | The loop packs clauses as specified |
| Segmenter.ProsodyPlanner.SplitAtWord | src/humanflow/runtime/prosody.py:70-83 | The loop cuts at words as specified, and terminates |
| Segmenter.ProsodyPlanner.Plan | src/humanflow/runtime/prosody.py:42-49 | The planned segments as specified |
| Calendar.Bijection | src/humanflow/runtime/temporal.py:129-242 | Day numbers and Gregorian dates determine each other |
| Calendar.NumbersOrder | src/humanflow/runtime/temporal.py:391-399 | Later dates have larger day numbers, and only those |
| Calendar.AddExactly | src/humanflow/runtime/temporal.py:179-242 | Adding days is exact and fails if and only if the years 1 to 9999 are left |
| Temporal.NextValidAnnualDate | src/humanflow/runtime/temporal.py:391-399 | The search finds the earliest such date not before the reference, and none if and only if there is none before the year 10000 |
| Temporal.AlwaysFound | src/humanflow/runtime/temporal.py:391-399 | Up to the reference year 9991 every day that exists in some year is found |
| Temporal.NineAreNeeded | src/humanflow/runtime/temporal.py:391-399 | Nine years are exact: across 1900 the leap day needs the ninth |
| Temporal.NearestWeekCount | src/humanflow/runtime/temporal.py:339-348 | The loop computes the specified count |
| Temporal.NearestIsNearest | src/humanflow/runtime/temporal.py:339-348 | The count is the nearest one spoken, and the first among equally near ones |
| Temporal.WeekCountExactly | src/humanflow/runtime/temporal.py:339-348 | The nearest count, the first of equally near ones, counts unless it is zero |
| Temporal.ResolveWeekday | src/humanflow/runtime/temporal.py:179-242 | The date reassigned by branch is the reference plus the specified offset, or out of range |
| Temporal.WeekdayRules | src/humanflow/runtime/temporal.py:179-242 | Every weekday rule lands on the weekday spoken and never in the past, with the exact offsets of each rule |
| Temporal.NextIsNearest | src/humanflow/runtime/temporal.py:179-242 | No such weekday lies between the reference and the date the plain rule or this week's rule finds |
| Temporal.ResolveExplicit | src/humanflow/runtime/temporal.py:280-318 | The date spoken last resolves: a full one if and only if it exists, a yearless one to its next occurrence |
| Temporal.Resolve | src/humanflow/runtime/temporal.py:129-242 | An existing explicit date wins and is refused if and only if the last weekday spoken contradicts it; no other rule ever raises that. Otherwise an ambiguous weekday gives nothing, a count of days from an agreed date lands exactly there, and of relative days and weekdays the one spoken last decides and lands on its day |
| Temporal.ClarificationCandidate | src/humanflow/runtime/temporal.py:244-273 | A tentative date is the next such weekday, one to seven days ahead, and is given if and only if the weekday is ambiguous and no date is named |
| Appointments.UnreportedKeep | src/humanflow/runtime/appointment_state.py:819-858 | Slots that are not reported keep value and provenance |
| Appointments.LastEntryHolds | src/humanflow/runtime/appointment_state.py:819-858 | The last value set for a slot is the one it holds |
| Appointments.UserTurnNeverBooks | src/humanflow/runtime/appointment_state.py:796-816 | Booked after a user turn means booked before and not cancelled now; a cancellation takes effect at once if and only if nothing was booked |
| Appointments.CancelledTwice | src/humanflow/runtime/appointment_state.py:800-803 | A second cancellation before any tool answered cancels a booking locally |
| Appointments.WrittenKeeps | src/humanflow/runtime/appointment_state.py:349-427 | What a turn does not report keeps value and provenance, and a turn books nothing |
| AppointmentTheorems.TurnExactly | src/humanflow/runtime/appointment_state.py:349-427 | Slot by slot: each holds what the turn says for it, with this turn's provenance if the value is new, or what it held; the status is the derived one; reported is exactly what has a new value |
| Appointments.ToolReportHolds | src/humanflow/runtime/appointment_state.py:429-516 | A tool report leaves its own status behind; it books if and only if it reports a success of booking or moving, or preserves a booking; what it books is confirmed |
| Appointments.RestoreHolds | src/humanflow/runtime/appointment_state.py:518-574 | A restored booking is booked |
| AppointmentTheorems.ToolExactly | src/humanflow/runtime/appointment_state.py:429-516 | A tool report moves date and time to the committed start if and only if it books or moves, leaves every other slot but the status alone, and confirms if and only if it leaves a booked or cancelled appointment or keeps a booking |
| AppointmentTheorems.StartRaisesExactly | src/humanflow/runtime/appointment_state.py:463-468 | A committed start that cannot be read raises if and only if it would be written |
| AppointmentTheorems.RestoreExactly | src/humanflow/runtime/appointment_state.py:518-574 | A restored booking has its kind, start, provider and place, and is booked |
| Tracker.AppointmentState.SetSlots | src/humanflow/runtime/appointment_state.py:384-397 | The loop sets every entry in turn and reports those that changed |
| Tracker.AppointmentStateTracker.ApplyUserTurn | src/humanflow/runtime/appointment_state.py:265-427 | A turn alters at most the one object it reports, sets exactly what it says, keeps what it does not report, confirms and books nothing; where the resolver raises, at most an empty new appointment and the focus are left |
| Tracker.AppointmentStateTracker.Resolve | src/humanflow/runtime/appointment_state.py:647-779 | Reads the state as specified and gives up the focus if and only if the turn asks for an overview |
| TrackerTheorems.QuestionsAnswered | src/humanflow/runtime/appointment_state.py:655-677 | A question about free slots keeps the focus, one about all appointments offers every live one in order |
| TrackerTheorems.RaisesExactly | src/humanflow/runtime/appointment_state.py:281-293 | A turn raises before anything is touched if and only if the resolver does, for a question or for the date in focus |
| TrackerTheorems.SeveralAsk | src/humanflow/runtime/appointment_state.py:680-692 | Several actions on several purposes are asked back: the appointments mentioned, in order of mention, or the purposes |
| TrackerTheorems.OrdinalReferenceFound | src/humanflow/runtime/appointment_state.py:693-706 | With references an ordinal takes the first or the last live appointment in order of mention |
| TrackerTheorems.ReferenceFound | src/humanflow/runtime/appointment_state.py:707-717 | Otherwise the last reference takes the newest appointment it may mean, or begins a new one |
| TrackerTheorems.OrdinalFound | src/humanflow/runtime/appointment_state.py:719-728 | Without references the first ordinal takes the live appointment with the smallest number and any other the one with the largest |
| TrackerTheorems.OtherFound | src/humanflow/runtime/appointment_state.py:729-737 | The other one is the only live appointment out of focus, and else it asks |
| TrackerTheorems.PronounFound | src/humanflow/runtime/appointment_state.py:739-749 | A pronoun among several live appointments means the focused one if and only if it is live and the turn before named it, and else it asks |
| TrackerTheorems.ContextFound | src/humanflow/runtime/appointment_state.py:751-779 | Where nothing points at an appointment a new one begins, the focus is kept or the only live one is taken, exactly as stated |
| TrackerTheorems.CreatesExactly | src/humanflow/runtime/appointment_state.py:647-779 | A turn begins a new appointment in exactly these cases |
| Tracker.AppointmentStateTracker.RecordToolResult | src/humanflow/runtime/appointment_state.py:429-516 | Exactly one object gets the confirmation and the slots the report implies, all others are untouched |
| Tracker.AppointmentStateTracker.RestoreCommittedAppointment | src/humanflow/runtime/appointment_state.py:518-574 | A known booking is found again without effect; a new one gets its own object, number and confirmed slots |
| Tracker.AppointmentStateTracker.ApplyUserTurns | src/humanflow/runtime/appointment_state.py:265-427 | Over any user turns numbers are never reused, objects are never replaced and nothing becomes booked |
| Tracker.Operate | src/humanflow/runtime/appointment_state.py:429-574 | Over any operations numbers are never reused, the focus is absent or valid, and whatever is booked is confirmed |
| Paths.AnchoredOverlap | src/humanflow/engineering/scheduler.py:95-113 | Two literal or directory rules that match one path are reported as overlapping if and only if they begin with the same slashes or one has no component before its first wildcard |
| Paths.AnchoredMatches | src/humanflow/engineering/scheduler.py:80-92 | Such a rule matches exactly the paths that begin with the components of its root |
| Paths.GlobExactly | src/humanflow/engineering/scheduler.py:92-92 | Any other rule with a wildcard fits the last components of a path, one by one from the right |
| Paths.RootMatchesNothing | src/humanflow/engineering/scheduler.py:81-84 | The root itself neither matches nor is matched |
| Paths.SafeExactly | src/humanflow/engineering/scheduler.py:95-113 | Among rules that begin with the same slashes the overlap test is safe for a rule if and only if it is anchored, has no component before its first wildcard, or matches nothing |
| Paths.SafeAgainstAllExactly | src/humanflow/engineering/scheduler.py:80-113 | Against rules that may begin differently it is safe if and only if the rule has no component before its first wildcard or matches nothing |
| Scheduler.ConservativeTaskScheduler.Plan | src/humanflow/engineering/scheduler.py:23-65 | The loop over the sorted tasks schedules and defers exactly as specified |
| Scheduler.SortSorts | src/humanflow/engineering/scheduler.py:34-34 | The order is by priority, a permutation of the tasks |
| Scheduler.ConflictExactly | src/humanflow/engineering/scheduler.py:68-77 | Tasks conflict if and only if they are one, one of them may touch anything, or two of their rules may overlap |
| Scheduler.PlanSound | src/humanflow/engineering/scheduler.py:23-65 | Scheduled and running tasks never exceed the limit when running alone do not; what is scheduled is ready, has verified dependencies and no conflict; what is left out is kept out by the limit or a conflict |
| Scheduler.PriorityHolds | src/humanflow/engineering/scheduler.py:34-61 | A task that could run yields only to running tasks and to scheduled ones before it in the order |
| Scheduler.Inspect | src/humanflow/engineering/verification.py:92-127 | The loops over changed paths and rules find exactly the specified findings and pass if and only if there is none |
| Scheduler.GateExactly | src/humanflow/engineering/verification.py:108-127 | A candidate passes if and only if it stays inside its rules, off protected paths and weakens no test |
| Scheduler.NoSharedPath | src/humanflow/engineering/scheduler.py:68-77 | Tasks without a conflict share no path when their rules are anchored and, as task records require, relative |
| Scheduler.CandidatesDisjoint | src/humanflow/engineering/verification.py:108-116 | Any two co-scheduled candidates with anchored, relative rules that pass the gate change disjoint paths |
| Circuit.FailureCircuitBreaker.RecordFailure | src/humanflow/engineering/failures.py:103-108 | Counts one fingerprint and opens the circuit if and only if its threshold is reached |
| Circuit.FailureCircuitBreaker.AuthorizeRetry | src/humanflow/engineering/failures.py:130-138 | Grants if and only if the circuit is open and a retry is left; otherwise an open circuit blocks |
| Circuit.RunTaskBounded | src/humanflow/engineering/supervisor.py:101-174 | The loop makes exactly the attempts the series calls for and ends in the verdict of the last one |
| Circuit.LengthBound | src/humanflow/engineering/failures.py:103-108 | A run of failures with k fingerprints that opens the circuit n times has at most k(t-1)+n members |
| Circuit.AttemptBound | src/humanflow/engineering/supervisor.py:112-165 | A task makes at most the smaller of its maximum and k(t-1)+R+1 attempts |
| Circuit.BoundAttained | src/humanflow/engineering/supervisor.py:112-165 | For all numbers there is a series of attempts that needs every one of them |
| Circuit.MakesUnique | src/humanflow/engineering/supervisor.py:112-165 | A series of attempts determines how many are made |

## Left out

- WebSockets, HTTP, SQLite, git, threads and files: inputs and outcomes are parameters.
- `close()` racing an accepted transcript, and task cancellation by the event loop.
- Soft duck and resume, latency figures, cost hooks and playback acknowledgements of the session: they
  do not touch the protocol state. Events that only carry metrics are one event kind, `OtherEvent`.
- The response task's nested loops are control states of the protocol (`Protocol.Control`), because
  every suspension point inside them is a point where other tasks run.
- The turn policy, the tool executor and the appointment coordinator: arbitrary inputs.
- Integer widths and floating-point rounding: numbers are unbounded integers and reals. Rounding of
  milliseconds to nanoseconds in the admission gate is modelled.
- Regular expressions, case folding, number words and similarity: predicates and parameters that the
  theorems quantify over. The one glob language of the scheduler is a parameter as well.
- Reply wording and speech normalisation, prosody intents and pauses: table lookups. What the transaction
  guard makes of a fragment, and what is left of one without the matches of the disclosure pattern, are
  parameters; the chat history and usage figures of the reasoner are not modelled.
- Fallback.FallbackStreamingTTSProvider.StreamSpeech: one whole request at a time, because a method of the
  object cannot be suspended; `OneVoiceInterleaved` covers the interleavings as a transition system. A
  response is assumed to have one open request at a time, as its session awaits every segment.
- `record_iteration` of the circuit breaker and `evaluate_merge_gate`: expressions over their inputs.
- Circuit.RunTaskBounded: the attempts' outcomes are a given series; workspaces and metrics are not
  modelled.
- Tracker.AppointmentStateTracker.ApplyUserTurn: appointment numbers instead of prefixed ids, and the
  delta without the rendered copies of the appointments.
- Segmenter.ProsodyPlanner.SplitAtWord: requires a maximum of at least one character, which the source does
  not check; `EndsExactly` says why that is the condition for its loop to end.
- Segmenter.ProsodyPlanner.SplitLongSegment: the same.
- Segmenter.ProsodyPlanner.Plan: the same.
- `registry.py`, `release.py`, `tournament.py`, `discovery.py`, `routing.py`, `cost/`, the scorecard
  and the benchmarks: lookups, sums and finite scenarios.
