# Workload Fabric in Dafny

Workload Fabric keeps *durable workloads*: units of computational intent that outlive the processes
working on them. A workload moves through a 26-state lifecycle, hands authority from one execution
episode to the next across worker losses, restarts and migrations, counts progress reported by workers,
and is saved as one checksummed record per workload. This project models that behaviour and proves what
it guarantees.

Two forms of every stateful component stand side by side. The value form (`Model`, `Codec`, `Engine`)
says what each call does to a value; the imperative form (`Aggregate`, `Encoding`, `Decoding`, `Store`,
`Coordinator`, `Worker`) updates fields, buffers and maps in place, as the program does, and every method
is proved to do what the value form says. The theorems are about the value form, over all runs.

| file | what it holds |
|---|---|
| Basics, Vocabulary | machine words, IEEE doubles as bit patterns, enumerations, the edge table |
| ProgressModel, Dependencies, Resources | counters, dependency gating, contracts, grants and the reference broker |
| Model, Aggregate | the workload as a value and as a mutable object |
| Verdicts, Gates, Amounts | when each call is allowed, refusal by refusal, and the whole workload afterwards; doubles as numbers |
| Lifecycle, Runs, Guarantees, RestartLimit | what one call keeps; what every run keeps; fencing, cancellation, completion; which starts the restart limit bounds |
| Binary, Streams, Codec, Encoding, Decoding | big-endian primitives, the payload, writing and reading it |
| CodecLaws, Payloads, Hash, Records, Store | round trip, prefix-freeness, FNV-1a, the framed record, the in-memory store |
| Numbers, Layout, Wire | literal numbers of enumerators, the numbered edge table, records and frames byte by byte |
| Engine, Coordinator, EngineLaws, Journeys | the engine as a state machine and as an object, what it guarantees, a run that completes |
| Identities, Collision, Simulation | episode ids, the bound on their number, the store following the engine |
| Loading, Reload | which inputs give records that load; going on from a loaded record |
| Protocol, Worker, Sessions | wire frames, the worker's loop, what a session's frames mean |
| Increments, ExactlyOnce, OutOfOrder | end-to-end accounting: when every unit is counted once, and when not |

How to read the main results:

- *Corruption.* Magic, version, checksum and equal-length payloads fall to comparison and to the
  injectivity of each FNV-1a step; a lengthened payload runs past the end; a shortened one is a proper
  prefix, on which the decoder provably runs out of bytes even if the hash happened to match.
- *Runs.* The engine holds one mutex per call, so concurrency is an arbitrary sequence of atomic calls by
  callers holding any generation. `Runs.Run` is such a sequence, `Engine.EngineRunsAreWorkloadRuns` lifts
  every theorem about it to the engine.
- *Literal forms.* The step functions, the codec and the tables are each given a second, literal form: call by
  call in `Verdicts` and `Gates` (states, outcomes, log entries), byte by byte in `Layout` and `Wire`, number by
  number in `Numbers` and `Amounts`. The two forms are proved equal, so neither can drift alone.
- *Totals.* `OpDeclareTotal` stands for a host writing the total through the workload's progress accessor; the
  engine has no such call.
- *Exactly once.* `ExactlyOnce` puts a workload and one FIFO channel per dispatched episode together; the
  channel holds the frames the worker encoded, and delivering one decodes it. A dispatch resumes from the
  completed count its episode took over. Before a dispatch against a known total a caller checks
  `OrderlyDispatch`; `OutOfOrder` shows that check to be exact.
- *Restart limit.* `Covered` says that a restart was planned since the last start. Starts so covered are paid
  for by slots, one each, in every run; the others are free.

Where the code differs from its comments, the model follows the code, and each difference has its own
theorem:

- `planRestart` spends a slot before the edge is checked, so a call from RUNNING is refused and its slot is
  gone (`Lifecycle.PlanRestartIff`).
- The restart limit does not bound fresh episodes: a start from READY, SUSPENDED or RECOVERING needs no
  planned restart. Losing workers reaches RECOVERING (`RestartLimit.RecoveryBypassesLimit`), and settling a
  start that was never dispatched reaches READY (`RestartLimit.SettlingBypassesLimit`). Exactly the starts
  preceded by a planned restart are paid for (`RestartLimit.CoveredStartsArePaid`, `RestartLimit.PlannedIff`),
  and a run that plans each of them stays within the limit (`RestartLimit.PlannedStartsStayWithinLimit`).
- A dispatch beyond a known total can skip units and still reach the total, because a refused increment does
  not stop a later, shorter one (`OutOfOrder.SkippedUnit`); exactly when it cannot is
  `OutOfOrder.CountsInOrderIffOrderly`.
- The limit of restarts is said to apply to one kind of policy; it applies to every kind
  (`Verdicts.RestartVerdict`). The required units and the durable artifact of a completion policy are never
  asked for (`Verdicts.UnitsAndArtifactAreIgnored`).
- A maximum of zero is said to mean an exact match; it is no bound (`Amounts.ZeroMaximumIsNoBound`). An amount
  that is not a number meets every requirement (`Amounts.NaNMeetsEverything`).
- Refused commits, cancellations, cancel requests and migration requests leave marks behind, spelled out in
  `Lifecycle.CommitAllOrNothing`, `Lifecycle.CancelAllOrNothing`, `Lifecycle.RequestCancelIff` and
  `Lifecycle.RequestMigrationIff`.
- `finalize` does not ask about CANCEL_FIRST (`Lifecycle.FinalizeIff`).
- `satisfied` does not compare generations (`Resources.StaleGrantSatisfiesIff`).
- `reconcile` of a counter that is not monotonic can leave the checkpoint above the completed count
  (`ProgressModel.ReconcileKeepsCheckpointIff`, `ProgressModel.RecoveryBelowCheckpoint`).
- Bytes after the outer checksum are accepted (`Records.BytesAfterChecksumAreIgnored`).
- A record with more dependency states than definitions overruns a vector inside a `noexcept` setter, which
  ends the process instead of being reported (`Records.RecordRoundTripIff`, `Terminated`).
- The engine accepts id 0, non-finite amounts, negative minima and negative grants, whose records then do not
  load: exactly these inputs decide (`Loading.RecordLoadsIffInputsGood`; inputs in `Loading.IdZeroDoesNotLoad` and
  `Loading.InfiniteAmountDoesNotLoad`).
- The engine never declares a total, so three of the four completion policies never complete through it
  (`EngineLaws.EngineCompletesOnlySingleResult`).
- Engine ids from 1000 meet migration ids from 2000 (`Collision.ThousandAndFirstIdCollides`).
- The counter of migration ids is not persisted, so it starts over after a reload; the migrated episode is then
  heard exactly when no earlier episode has id 2000 (`Reload.MigrationAfterReloadIff`). Runs
  continued from a record keep the whole invariant (`Reload.ReloadedRunsAreSound`).
- A malformed acknowledgement ends `runWorker` by an error nothing catches; nothing else does
  (`Sessions.SessionMeans`).

## Model

| member | source | states |
|---|---|---|
| Records.CorruptionIsRefused | src/persistence.cpp:263-294 | replacing any one byte of a loadable workload's record by any other value makes decode answer REJECT_UNKNOWN, wherever the byte stands |
| Records.AnyChangedByteIsRefused | src/persistence.cpp:276-294 | the same for the record of any accepted payload, also one no encoder wrote |
| Records.ChangedFrame | src/persistence.cpp:278-287 | a record with one changed byte can still pass every frame check only if its payload became a proper prefix of the old one |
| Records.FramesFarApart | src/persistence.cpp:263-287 | two records of equal payload length never differ in exactly one byte |
| Records.TruncatedIsRefused | src/persistence.cpp:278-293 | every proper prefix of any record is refused with REJECT_UNKNOWN |
| Records.RecordRoundTripIff | src/persistence.cpp:263-294 | a record decodes to the workload it was made from, in every persisted field, iff id, generation, revision and amounts are acceptable and dependency states are paired; it ends the process iff there are more states than definitions |
| Records.LoadsIff | src/persistence.cpp:276-294 | the byte strings that load as `w` are exactly those that begin with the frame of a payload accepted as `w` |
| Records.UnframeIff | src/persistence.cpp:278-287 | the frame reader returns a payload exactly on the bytes that start with that payload's frame |
| Records.FreshRecordLoads | src/persistence.cpp:263-294 | a fresh workload with a valid id always loads back, and its record is 327 bytes plus name and intent |
| Records.BytesAfterChecksumAreIgnored | src/persistence.cpp:279-289 | bytes after the outer checksum change nothing, contrary to line 47 of the repository's README |
| Payloads.RoundTripIff | src/persistence.cpp:26-127 | decoding a workload's own payload gives back the workload iff it is loadable and paired, for all strings and list lengths their length fields can hold |
| Payloads.PayloadReadsBack | src/persistence.cpp:138-261 | what decoding an encoded workload gives in every case: the first bad part decides between rejection and termination |
| Payloads.PrefixRunsShort | src/persistence.cpp:138-261 | on every proper prefix of an accepted payload the decoder runs out of bytes |
| Payloads.PrefixFree | src/persistence.cpp:138-261 | no accepted payload is a proper prefix of another |
| Payloads.DecodedSurvivesReload | src/persistence.cpp:138-261 | whatever decodes, from any bytes, is loadable and survives another save and load unchanged |
| Hash.OneByteChangesHash | include/workload_fabric/detail/binary.hpp:62-66 | changing any one byte of any input changes its FNV-1a value |
| Hash.StepInjective | include/workload_fabric/detail/binary.hpp:64 | one hash step is injective in the 64-bit state and in the byte |
| Hash.Unmultiply | include/workload_fabric/detail/binary.hpp:64 | multiplying by the FNV prime modulo 2^64 is undone by its inverse |
| Hash.Fnv1a64 | include/workload_fabric/detail/binary.hpp:62-66 | the loop computes the recursive hash |
| Hash.KnownHashes | include/workload_fabric/detail/binary.hpp:62-66 | published values: the hash of nothing and of "a" |
| Hash.MixedIsXor | include/workload_fabric/detail/binary.hpp:64 | mixing a byte in is the exclusive or of the whole 64-bit state with it |
| Hash.XorIsBitwise | include/workload_fabric/detail/binary.hpp:64 | the exclusive or has a bit exactly where the two numbers differ |
| Layout.RecordIsItsBytes | src/persistence.cpp:26-127 | the record of every workload is, byte by byte, "WFBR", version 1, the length, one flat list of fields in order with every enumerator as its literal number, and the FNV-1a value of that list |
| Layout.PayloadIsItsFields | src/persistence.cpp:26-127 | the nested writers give that flat list for every workload: order, widths, byte order, flags, signs, counts |
| Layout.FixedPlaces | src/persistence.cpp:27-30 | id, generation and revision stand at bytes 16, 24 and 32 of every record, and the number of the state at byte 40 |
| Layout.LoadedFixedPlaces | src/persistence.cpp:141-144 | in every byte string that loads, whoever wrote it, the loaded id, generation, revision and state stand as numbers at those places |
| Layout.FieldsRead | include/workload_fabric/detail/binary.hpp:44-53 | how each field is read: big-endian numbers, a flag from any byte but 0, a signed number from its low 32 bits, a text by its length |
| Layout.TextTooLong | include/workload_fabric/detail/binary.hpp:51 | a text whose length exceeds the bytes left runs short |
| Layout.NumbersAsBytes | include/workload_fabric/detail/binary.hpp:18-19 | the recursive writer of numbers gives four and eight bytes, highest first, spelled out |
| Numbers.WorkloadStateNumbers | include/workload_fabric/state.hpp:14-41 | the list of states that the codec indexes follows the literal numbers 0 to 25 |
| Numbers.EpisodeStateNumbers | include/workload_fabric/state.hpp:43-54 | the same for the ten episode states |
| Numbers.OutcomeNumbers | include/workload_fabric/outcome.hpp:10-49 | the same for the 37 outcomes |
| Numbers.RestartKindNumbers | include/workload_fabric/policy.hpp:12-20 | the same for the restart kinds |
| Numbers.CompletionKindNumbers | include/workload_fabric/policy.hpp:23-28 | the same for the completion kinds |
| Numbers.MigrationEligibilityNumbers | include/workload_fabric/policy.hpp:31 | the same for migration eligibility |
| Numbers.CancelRaceNumbers | include/workload_fabric/policy.hpp:36-39 | the same for the race rules |
| Numbers.NeedLevelNumbers | include/workload_fabric/resource.hpp:18 | the same for the levels of need |
| Numbers.ResourceKindNumbers | include/workload_fabric/resource.hpp:23-41 | the same for the resource kinds |
| Numbers.GrantStatusNumbers | include/workload_fabric/resource.hpp:63-65 | the same for the grant states |
| Numbers.DependencyStatusNumbers | include/workload_fabric/dependency.hpp:35-37 | the same for the dependency states |
| Numbers.DependencyRequirementNumbers | include/workload_fabric/dependency.hpp:15 | the same for required and optional dependencies |
| Numbers.DependencyReadyNumbers | include/workload_fabric/dependency.hpp:19-23 | the same for what a dependency waits for |
| Numbers.PriorityTierNumbers | include/workload_fabric/priority.hpp:11-13 | the same for the priority tiers |
| Numbers.TotalKindNumbers | include/workload_fabric/progress.hpp:13 | the same for the kinds of total |
| Numbers.ProvenanceNumbers | include/workload_fabric/progress.hpp:18-23 | the same for the provenance of progress |
| Numbers.MsgTypeNumbers | include/workload_fabric/protocol.hpp:14-23 | the same for the message types |
| Numbers.ByteNames | src/persistence.cpp:129-136 | a byte is read as the enumerator of that number, and past the last one it is rejected |
| Numbers.TransitionsAreTheEdges | include/workload_fabric/state.hpp:88-213 | a transition exists exactly where the table of 105 numbered edges has one |
| Numbers.ClassesOfStates | include/workload_fabric/state.hpp:56-74 | terminal, cancelling and active states, by number |
| ExactlyOnce.EveryUnitOnce | src/workload.cpp:149-163 | over any interleaving of calls, dispatches, deliveries of the worker's encoded frames, losses, restarts, migrations and cut channels, the counted units are 0, 1, 2, ... up to the completed count - given that each episode is dispatched at most once and resumes from the completed count, that the total is not declared anew, and that each dispatch against a known total passes OrderlyDispatch: the dispatched total stays within the known one, or the chunk divides the work, or the last, shorter increment exceeds what whole chunks leave below the known total |
| OutOfOrder.CountsInOrderIffOrderly | src/workload.cpp:158-161 | the condition is exact: a dispatch whose frames are all delivered to a listening workload keeps the count in order if and only if it passes OrderlyDispatch |
| OutOfOrder.SkippedUnit | src/workload.cpp:158-161 | a run on which it matters: of 8 known units, 15 are dispatched in chunks of 7; unit 7 is never counted, unit 14 is, completed equals the total, and REQUIRED_UNITS has its evidence |
| OutOfOrder.WholeTally | src/worker.cpp:73-92 | delivering all frames of a dispatch, whatever its total, adds up increment by increment against the limit |
| ExactlyOnce.UnknownTotalIsOrderly | src/workload.cpp:158-161 | without a known total every dispatch is orderly |
| Increments.InOrderIff | src/worker.cpp:73-79 | the arithmetic condition on total, chunk and room says exactly that once an increment does not fit none of the later ones does |
| Increments.TalliedInOrderIff | src/workload.cpp:158-161 | increments that start where the count stands are counted in order exactly when they stop for good |
| Increments.AllAboveIff | src/worker.cpp:73-79 | with less room than a chunk, all increments are too large exactly when the last, shorter one is |
| ExactlyOnce.NextFrameCounts | src/workload.cpp:120-133 | a frame that may still report starts exactly at the workload's completed count and cannot exceed a known total |
| ExactlyOnce.NextFrame | src/worker.cpp:81-92 | the next undelivered frame of every stream decodes to a durable progress report of its next increment, in its episode's name |
| ExactlyOnce.FrameEffect | src/workload.cpp:149-163 | delivering it is accepted exactly when the workload listens to that episode and the increment fits, moves completed by it, and otherwise changes nothing |
| ExactlyOnce.LateFramesAddNothing | src/workload.cpp:149-154 | a frame of an episode that lost authority changes neither workload nor count |
| ExactlyOnce.AllAcceptedReachesTotal | src/worker.cpp:76-103 | when every progress frame of a dispatch was accepted, completed has reached the dispatched total, and equals it while its episode is the last |
| ExactlyOnce.AcceptedIffHeardAndFits | src/workload.cpp:149-161 | a frame of the last episode is accepted iff the workload still listens to it and the increment fits below the known total or 64 bits |
| ExactlyOnce.DeafStays | src/workload.cpp:98-103 | a workload that stopped listening to its last episode never listens to it again |
| ExactlyOnce.RunKeepsSystem | src/workload.cpp:149-163 | the whole system invariant holds after every sequence of events whose dispatches pass OrderlyDispatch |
| Sessions.SessionMeans | src/worker.cpp:40-106 | a session sends a greeting and then only pings, progress reports and completions; it ends with code 2 iff the greeting did not go out or nothing came back, and with code 3 iff it went out, was acknowledged by a well-formed frame and nothing after that ended the session; it ends by an uncaught error iff the acknowledgement is malformed |
| Sessions.ServedMeans | src/worker.cpp:57-105 | the receive loop handles a prefix of what arrives and sends the answers to that prefix in order as far as the connection lasts; it runs until the peer closes iff no frame ends the session and every dispatch finds room, and otherwise the last frame handled tells the exit code |
| Sessions.DispatchCarriesSteps | src/worker.cpp:73-104 | decoding the frames of a dispatch gives back its increments in order, with every field as dispatch and worker determine it, and then a completion whose payload is the decimal number of the runner's sum over the units left modulo 2^64, whatever the chunk |
| Sessions.DispatchEnds | src/worker.cpp:70-104 | a dispatch with a missing number, chunk 0 or resumeFrom beyond total ends the session with 5; otherwise, by how many frames can be sent, it ends with 6, with 7, or goes on |
| Sessions.PingIsAnswered | src/worker.cpp:62-65 | a ping is answered by a blank ping, whether or not it can be sent |
| Worker.DecimalReadsBack | src/worker.cpp:101 | the digits of a number have no leading zero and read, from the left, as that number |
| Worker.ComputedIsSum | src/worker.cpp:78 | what the chunks compute is the true sum of the runner's values modulo 2^64 |
| Sessions.CompletionMeansAllReported | src/worker.cpp:92-104 | however early the connection breaks, the completion gets out iff every frame did, and then the reported units add up to total - resumeFrom |
| Sessions.AnswersSpeak | src/worker.cpp:62-104 | everything the worker answers with decodes to a ping, a progress report or a completion |
| Worker.RunWorker | src/worker.cpp:40-106 | the worker's loops on the connection end as Session does, which Sessions.SessionMeans characterises |
| Worker.Serve | src/worker.cpp:57-105 | the receive loop ends with the link and the exit that Served gives, which Sessions.ServedMeans characterises |
| Worker.ServeDispatch | src/worker.cpp:70-104 | a dispatch sends the frames that Sessions.DispatchCarriesSteps decodes, cut off at the first one that cannot be sent, with the exit code that Sessions.DispatchEnds gives |
| Worker.ReportSteps | src/worker.cpp:73-92 | the chunk loop reports exactly the increments of the work left and sums the runner over it |
| Worker.RunUnits | src/worker.cpp:78 | one chunk adds the runner's values over consecutive units to the running 64-bit sum |
| Worker.StepsCover | src/worker.cpp:73-79 | the increments add up to the work left, and each is a chunk except that the last one may be smaller |
| Worker.SegmentsAdd | src/worker.cpp:78 | the result of a resumed run is the 64-bit sum of its segments' results |
| Protocol.FrameRoundTrip | src/protocol/protocol.cpp:5-49 | a frame decodes to its message whatever follows it, and no truncation of it decodes |
| Wire.FrameIsItsBytes | src/protocol/protocol.cpp:5-21 | the frame of every message is, byte by byte, "WFP1", the number of its type, seven numbers, two flags and two texts in order |
| Wire.DecodedType | src/protocol/protocol.cpp:23-32 | whatever decodes begins with "WFP1" and the number of its type; a type above 7 is refused |
| Protocol.EncodeMessage | src/protocol/protocol.cpp:5-21 | the frame of a message: magic, type, seven numbers, two flags, two strings |
| Protocol.DecodeMessage | src/protocol/protocol.cpp:23-49 | decoding fails on short frames, wrong magic, unknown type and missing bytes, and reads the fields otherwise |
| Runs.RunKeepsInv | src/workload.cpp:44-358 | log, handoff, generation, restart and phase invariants hold after every run of calls |
| Runs.ProgressIsAccounted | src/workload.cpp:120-163 | after any run, completed is the sum of all accepted deltas and each episode stands where its own and its predecessors' deltas add up to |
| Runs.ReplayPrefix | src/workload.cpp:23-76 | every log record starts in the state the log before it leads to, and accepted ones follow a table edge |
| Runs.NothingAfterTerminal | src/workload.cpp:51-55 | once an accepted record enters a terminal state no later record is accepted |
| Runs.RunKeepsOrder | src/workload.cpp:23-32 | record generations never decrease, as long as the generation counter has not wrapped |
| Runs.GenerationExact | src/workload.cpp:133 | the generation is one more than the number of episodes |
| Runs.EpisodesGrow | src/workload.cpp:131 | along a run episodes are never removed |
| Lifecycle.StepKeepsLog | src/workload.cpp:23-76 | every call keeps the log a path of table edges from CREATED to the current state, with revision one more than its length |
| Lifecycle.RawCallsKeepLog | src/workload.cpp:78-80 | so do a raw transition and finalize |
| Lifecycle.StepKeepsHandoff | src/workload.cpp:120-163 | every call keeps authority with the last episode alone, with the workload's own counters |
| Lifecycle.StepKeepsGeneration | src/workload.cpp:133 | the generation moves exactly when an allowed call appends an episode |
| Lifecycle.StepKeepsPhase | src/workload.cpp:82-358 | where calls leave a workload, and what its flags then say |
| Lifecycle.RejectedCallsMoveNothing | src/workload.cpp:82-358 | a call that is not allowed leaves state, generation, number of episodes and progress alone |
| Lifecycle.StartAllOrNothing | src/workload.cpp:98-135 | a start is allowed iff the state is eligible and cancellation is not final; refused, it changes nothing at all |
| Verdicts.CommitAllowedIff | src/workload.cpp:165-200 | policy by policy, exactly when a commit is allowed: the last episode marked completed under SINGLE_RESULT, that and a reached known total under ALL_PHASES, the total alone under REQUIRED_UNITS, never under EXPLICIT_FINALIZE |
| Verdicts.CommitVerdict | src/workload.cpp:165-200 | which refusal a commit meets first, and the whole workload and log after it, also the marks a refused one leaves |
| Verdicts.UnitsAndArtifactAreIgnored | src/workload.cpp:172-188 | the number of required units and the durable artifact a policy names change no commit |
| Verdicts.LossVerdict | src/workload.cpp:234-245 | a loss is believed exactly when it names both the worker and the boot of the last episode; then that episode is lost and a RUNNING or DEGRADED workload recovers; refused, it changes nothing |
| Verdicts.RestartVerdict | src/workload.cpp:262-288 | kind by kind the reasons that count, the limit for every kind, and the slot a refused plan still spends |
| Verdicts.StartVerdict | src/workload.cpp:98-135 | the checks of a start in their order, and the new episode field by field |
| Verdicts.AdmitVerdict | src/workload.cpp:137-147 | only an admitted or preempted episode takes a worker and boot, and a starting workload then runs |
| Verdicts.UnknownEpisodeVerdict | src/workload.cpp:137-163 | calls in the name of no episode of the workload change nothing |
| Verdicts.MarkVerdict | src/workload.cpp:247-251 | the first episode with the id is marked completed |
| Verdicts.ReportVerdict | src/workload.cpp:149-163 | which refusal a report meets first, and every counter of workload and last episode after an accepted one |
| Verdicts.SuspendVerdict | src/workload.cpp:290-296 | a suspension is requested exactly from RUNNING and DEGRADED when the policy allows it; from STARTING it is refused and logged |
| Verdicts.SuspensionVerdict | src/workload.cpp:298-309 | a suspension completes exactly when it was requested, and the last episode rests |
| Verdicts.ResumeVerdict | src/workload.cpp:311-318 | a resume leads a suspended or preempted workload to READY, and is refused from every other state |
| Verdicts.MigrationRequestVerdict | src/workload.cpp:320-332 | a migration is requested exactly from RUNNING, DEGRADED and MIGRATION_PENDING under an eligible policy |
| Verdicts.MigrationVerdict | src/workload.cpp:334-358 | a migration commits exactly from MIGRATION_PENDING and MIGRATING; the new episode, field by field, runs on the target |
| Verdicts.CancelVerdict | src/workload.cpp:212-219 | from which states cancellation can be requested, and what a refused request leaves |
| Verdicts.CancellationVerdict | src/workload.cpp:221-232 | from which states cancellation completes in one call, and what a refused one leaves |
| Verdicts.FinalizeVerdict | src/workload.cpp:202-210 | which refusal finalize meets first, and the whole workload after it |
| Verdicts.TransitionVerdict | src/workload.cpp:44-76 | every attempted transition in full: fence, terminal states, numbered edges, consent to zero work, and what is logged |
| Verdicts.CurrentIsLast | src/workload.cpp:34-42 | with authority where it belongs the current episode is the last one |
| Gates.SettleVerdict | src/workload.cpp:82-96 | settling moves to the first closed gate, from the states that gate can be reached from, by missing dependencies first and the amounts of the grant second |
| Gates.ExplainVerdict | src/workload.cpp:360-366 | the explanation names the first closed gate |
| Gates.ValidateVerdict | src/coordinator.cpp:38-47 | validation is entered from CREATED and from the gates before READY |
| Gates.AddVerdict | src/resources.cpp:28-39 | a requirement is added once per kind and descriptor, a prohibited one without values |
| Gates.GrantVerdict | src/resources.cpp:51-55 | a grant counts as granted exactly when made for the current generation |
| Gates.DependencyVerdict | src/dependencies.cpp:13-18 | a dependency starts out pending, last in the list |
| Gates.StatusVerdict | src/dependencies.cpp:23-31 | an observation is taken unless its index is unknown or it is older than the one before |
| Gates.ReplacingVerdict | src/coordinator.cpp:49-58 | installing a policy and declaring a total change nothing else |
| Lifecycle.CommitAllOrNothing | src/workload.cpp:165-200 | a commit completes the workload or leaves the state alone, on the evidence that Verdicts.CommitAllowedIff spells out |
| Lifecycle.CancelAllOrNothing | src/workload.cpp:221-232 | exactly when cancellation completes, and exactly what a refused one marks |
| Lifecycle.SuspendAllOrNothing | src/workload.cpp:298-309 | a suspension completes or changes nothing |
| Lifecycle.MigrateAllOrNothing | src/workload.cpp:334-358 | a migration hands authority over and resumes RUNNING, or changes nothing |
| Lifecycle.FinalizeIff | src/workload.cpp:202-210 | exactly when finalize completes a workload; CANCEL_FIRST is not asked about |
| Lifecycle.CompletedDirectlyIff | src/workload.cpp:64-70 | exactly when a transition straight to COMPLETED is allowed: unstarted work needs the policy's consent |
| Lifecycle.SlotSpentIff | src/workload.cpp:262-288 | a restart slot is spent exactly when fence, terminal, class and limit checks pass, and both counters agree |
| Lifecycle.PlanRestartIff | src/workload.cpp:281-287 | a planned restart is allowed iff a slot is spent and RESTART_PENDING can be reached; from any other state, RUNNING for one, the slot is spent and the call refused |
| Lifecycle.RequestMigrationIff | src/workload.cpp:320-332 | a migration request is allowed iff its fence and eligibility checks pass and the state is not STARTING; in STARTING it is refused and counted all the same, and in every other refusal nothing changes |
| Lifecycle.RequestCancelIff | src/workload.cpp:212-219 | exactly when a cancel request is allowed; one refused by the edge table alone leaves its mark, one refused before that leaves nothing |
| Lifecycle.ReportEffect | src/workload.cpp:149-163 | an accepted report comes from the last episode and moves both counters by its delta without wrap-around; any other changes nothing |
| Lifecycle.RelabelOnly | src/workload.cpp:137-358 | calls other than starts, migrations and reports change no authority, id or counter of any episode |
| Guarantees.StaleCallsDoNothing | src/workload.cpp:166 | a fenced call with any other generation than the current one changes nothing, not even the log |
| Guarantees.SupersededStaysRefused | src/workload.cpp:335-356 | a call fenced by a superseded generation stays refused at every later point of a run |
| Guarantees.OneMigrationPerGeneration | src/workload.cpp:334-358 | in any interleaving at most one commitMigration fenced by a given generation is allowed |
| Guarantees.CancelFirstWins | src/workload.cpp:165-232 | under CANCEL_FIRST, a cancel that passes its fence and terminal check is never followed by COMPLETED |
| Guarantees.FinalCancellationFreezes | src/workload.cpp:98-232 | once cancellation is final no episode starts, no progress is accepted and COMPLETED is unreachable |
| Guarantees.CompletesIff | src/workload.cpp:165-200 | no call but a commit completes a workload, and a commit does exactly under the evidence that Verdicts.CommitAllowedIff spells out |
| Guarantees.CompletionRestsOnEvidence | src/workload.cpp:165-200 | a run that ends COMPLETED contains the commit that completed it, with its policy's evidence at that moment and the last episode marked completed |
| Guarantees.ReportAcceptedIff | src/workload.cpp:158-161 | although the double-count test wraps, a report is accepted iff the true sum stays within the known total, or within 64 bits |
| Guarantees.ProgressNeverOverruns | src/workload.cpp:158-161 | over any run completed never decreases, never wraps and never exceeds a fixed known total, and checkpointed stays below it |
| RestartLimit.RestartsNeverExceedLimit | src/workload.cpp:262-288 | over any run the restart count is the number of slots spent and never exceeds the largest limit installed |
| RestartLimit.CoveredStartsArePaid | src/workload.cpp:98-135 | the exact accounting of every run of every workload: each start that follows a restart planned since the last start has a slot of its own, and a plan not yet used is paid for as well |
| RestartLimit.PlannedIff | src/workload.cpp:98-135 | starts number at most one more than the paid ones if and only if a restart was planned before each start after the first |
| RestartLimit.PlannedStartsStayWithinLimit | include/workload_fabric/policy.hpp:82-84 | when each start after the first is preceded by a planned restart, a workload is started at most once more than the largest limit installed |
| RestartLimit.UncoveredStartIsFree | src/workload.cpp:105-106 | conversely, a start no plan precedes comes from READY, SUSPENDED, PREEMPTED or RECOVERING, adds an episode and leaves the restart count alone, whatever it is |
| RestartLimit.PendingIsPaid | src/workload.cpp:262-288 | RESTART_PENDING is entered by spending a slot and in no other way |
| RestartLimit.RecoveryBypassesLimit | src/workload.cpp:105-106 | a failing input: under every policy there is a run that starts any number of episodes on lost workers without spending a restart |
| RestartLimit.SettlingBypassesLimit | include/workload_fabric/state.hpp:127 | another: settling a start that was never dispatched goes back to READY, so start and settle in turn add any number of episodes with no loss and no restart spent |
| Engine.EngineRunsAreWorkloadRuns | src/coordinator.cpp:25-262 | interleaved with calls on other workloads, each workload goes through a run of its own from CREATED |
| Engine.EngineKeepsInv | src/coordinator.cpp:25-262 | every workload of every engine run satisfies the whole invariant |
| EngineLaws.EngineNeverRestsInTransit | include/workload_fabric/state.hpp:88-222 | no engine run rests in SUSPENDING, MIGRATING, CANCELLING or COMPLETING, nor reaches a state no call leads to |
| EngineLaws.EngineCompletesOnlySingleResult | src/coordinator.cpp:160-169 | the engine never declares a total, so it completes workloads under SINGLE_RESULT only |
| Journeys.EngineCompletes | src/coordinator.cpp:25-169 | and it does complete them: under SINGLE_RESULT a run of eight calls ends COMPLETED, for every id, text and remaining policy |
| Journeys.RegisterVerdict | src/coordinator.cpp:25-36 | an existing id is refused; a registered workload is given field by field |
| Journeys.CallVerdict | src/coordinator.cpp:38-262 | a call on an unknown id is refused, one on a known id acts on that workload alone, and a start uses up an id |
| EngineLaws.SettleAgreesWithExplain | src/workload.cpp:82-96 | whenever settle is allowed the state is the gate explainBlocked names |
| EngineLaws.SettleIff | src/workload.cpp:82-96 | exactly when settle is allowed; a refusal only logs |
| Identities.LostAuthorityNeverReturns | src/workload.cpp:149-154 | once an episode is not the last, no report in its name has any effect at any later point of any run |
| Identities.WhoMayReportIff | src/workload.cpp:149-156 | a report is listened to iff it names the last episode, no earlier one has its id, and the workload is open |
| Identities.NamedEpisodeIsFound | include/workload_fabric/coordinator.hpp:77 | while the engine has used up at most 1000 ids, first-match lookup finds the very episode named |
| Identities.EngineKeepsApart | include/workload_fabric/workload.hpp:193 | while at most 1000 ids are used up, all ids within each workload are distinct and the counter is exact |
| Identities.RunKeepsIds | src/workload.cpp:137-146 | along a run every episode keeps its place and its id |
| Collision.ThousandAndFirstIdCollides | src/coordinator.cpp:120 | the bound is the best possible: a run that mints 1001 ids gives the authoritative episode a migrated one's id and refuses all its progress |
| Simulation.StoreTracksEngine | src/coordinator.cpp:21-262 | after any engine run the store holds each workload's record of its last allowed call, and the live workload is ahead of it in bookkeeping only |
| Simulation.RejectedCallsAgree | src/workload.cpp:82-358 | a refused call changes at most log, revision, cancellation flags, restart, migration and completion bookkeeping and completed flags |
| Simulation.LoadAfterAllowIff | src/persistence.cpp:349-366 | right after an allowed call, loading gives exactly the live workload's persisted fields iff the workload is loadable |
| Simulation.LoadAlwaysAgrees | src/persistence.cpp:354-366 | at any moment what loads agrees with the live workload in everything but bookkeeping |
| Loading.RecordLoadsIffInputsGood | src/coordinator.cpp:82-102 | after every engine run whose last call was allowed, that workload's record loads back as the live workload iff its id is not 0 and every accepted requirement and the last grant carried acceptable amounts - finite, and neither a minimum nor a granted amount negative; otherwise the load is refused |
| Loading.EngineLoadableIff | src/persistence.cpp:177-259 | the same condition on the inputs decides loadability after every engine run |
| Loading.LoadableIff | src/persistence.cpp:177-259 | and after every run of calls on a fresh workload |
| Loading.AmountsGoodIff | src/coordinator.cpp:82-102 | the amounts of a contract are acceptable exactly when every accepted requirement and the last grant were |
| Loading.RefusedIff | src/persistence.cpp:276-294 | the record of a workload the decoder does not accept is refused, never the end of the process |
| Loading.IdZeroDoesNotLoad | src/persistence.cpp:259 | an input: id 0 is registered and saved, and its record does not load |
| Loading.InfiniteAmountDoesNotLoad | src/persistence.cpp:177 | another: an infinite minimum is accepted and saved, and the record no longer loads |
| Loading.CountersStaySmall | src/workload.cpp:23-32 | no call logs more than three transitions or appends more than one episode |
| Reload.ReloadedRunsAreSound | src/persistence.cpp:205-254 | whatever a store gives back satisfies the whole invariant, and so does every run continued from it |
| Reload.MigrationAfterReloadIff | include/workload_fabric/workload.hpp:193 | after a reload the next migration mints id 2000 again, and the new authoritative episode may report iff no earlier episode has that id |
| Dependencies.DeliveryOrderIndependent | src/dependencies.cpp:23-31 | any two delivery orders of pairwise independent reports end in the same dependency states |
| Dependencies.IndependentIffCommute | src/dependencies.cpp:23-31 | two reports commute in every state iff they differ in dependency or observed generation, or agree in status |
| Dependencies.GreatestGenerationWins | src/dependencies.cpp:26-30 | after any reports each dependency holds the newest observation made of it |
| Amounts.OrderIsNumeric | include/workload_fabric/resource.hpp:54-59 | every finite double is a whole number of units of 2^-1074, and comparing bits compares those numbers |
| Amounts.SatisfiedIff | src/resources.cpp:71-90 | in those numbers: a contract is satisfied exactly by a live grant that, for each REQUIRED entry, binds an amount of its kind from the minimum up to any positive maximum, and binds no positive amount of a PROHIBITED kind |
| Amounts.SatisfiesIff | include/workload_fabric/resource.hpp:54-59 | the same for one entry and one amount |
| Amounts.BrokerGrantMeetsIff | src/execution/reference.cpp:66-77 | in those numbers, exactly which contracts the reference broker's grant satisfies |
| Amounts.ZeroMaximumIsNoBound | include/workload_fabric/resource.hpp:51 | a maximum of zero bounds nothing, although the comment beside it calls it an exact match |
| Amounts.NaNMeetsEverything | include/workload_fabric/resource.hpp:54-59 | an amount that is not a number meets every entry that is not prohibited, and violates none |
| Amounts.SixteenIsRequired | include/workload_fabric/resource.hpp:56 | of a required 16, 8 is too little and 32 enough |
| Amounts.BitPatterns | src/persistence.cpp:177 | which bit patterns are finite and which are not numbers |
| Amounts.AcceptedAmountsIff | src/persistence.cpp:177-188 | the amounts a decoder accepts: finite ones, with no negative minimum and no negative grant |
| Resources.StaleGrantSatisfiesIff | src/resources.cpp:71-90 | after a requirement is added a grant of the earlier generation still satisfies the contract iff its bindings also meet the new entry |
| Resources.LevelsNeverChangeSilently | src/resources.cpp:28-39 | however often requirements are added none is changed, dropped or given a second level |
| Resources.MirrorMembers | src/execution/reference.cpp:72-75 | the broker binds exactly the positive minima of the REQUIRED entries |
| Resources.RequestGrant | src/execution/reference.cpp:66-77 | the binding loop yields the mirror of the requirements |
| Store.MemoryStateStore.Save | src/persistence.cpp:349-353 | the first record of the workload is replaced, or one is appended |
| Store.MemoryStateStore.Load | src/persistence.cpp:354-366 | the first record of the workload is decoded |
| Store.MemoryStateStore.ListIds | src/persistence.cpp:367-371 | the ids of the records in order |
| Store.MemoryStateStore.Remove | src/persistence.cpp:372-375 | the first record of the workload is taken out |
| Store.SavedLookup | src/persistence.cpp:349-353 | a save is seen by loads of that workload only, and keeps one record per workload |
| Store.RemovedLookup | src/persistence.cpp:372-375 | a removed record is gone and every other one is still found |
| Store.EncodeWorkload | src/persistence.cpp:263-274 | the record is magic, version, length, payload and checksum: the bytes that Layout.RecordIsItsBytes lists |
| Store.DecodeWorkload | src/persistence.cpp:276-294 | codec errors and rejections become REJECT_UNKNOWN, the overrun of the states vector ends the process; which numbers it reads where is in Layout.LoadedFixedPlaces and Layout.FieldsRead |
| Store.DecodeFields | src/persistence.cpp:138-261 | the payload is read field by field; trailing bytes, id 0 and zero generations are refused |
| Store.OpenRecord | src/persistence.cpp:279-287 | the frame checks in order: magic, version, length, checksum |
| Binary.ReadsUndoWrites | include/workload_fabric/detail/binary.hpp:14-53 | every primitive read takes back what the matching write put |
| Binary.ReadsAreStable | include/workload_fabric/detail/binary.hpp:44-55 | no primitive read looks past what it takes |
| Binary.EnumLaws | src/persistence.cpp:129-136 | enumerators come back as written and unknown ones are rejected |
| Binary.ManyBack | src/persistence.cpp:172-180 | a counted list comes back whole, or is rejected when one item is |
| Binary.ManyStable | src/persistence.cpp:172-180 | a counted loop reads the same when more bytes follow |
| CodecLaws.PolicyLaws | src/persistence.cpp:34-52 | the policy reads back, and stably |
| CodecLaws.ContractLaws | src/persistence.cpp:54-69 | the contract reads back iff its amounts are finite and no minimum or granted amount is negative, and stably |
| CodecLaws.DepsLaws | src/persistence.cpp:191-195 | fewer states than definitions read back padded, one more overruns the vector |
| CodecLaws.PriorityLaws | src/persistence.cpp:78-85 | the priority reads back through its 64-bit sign extension |
| CodecLaws.EpisodeLaws | src/persistence.cpp:109-121 | an episode reads back in all its fields, and stably |
| CodecLaws.RearLaws | src/persistence.cpp:87-126 | progress, counters, flags, episodes and history read back, and stably |
| Streams.Writer.U8 | include/workload_fabric/detail/binary.hpp:16 | appends one byte |
| Streams.Writer.U32 | include/workload_fabric/detail/binary.hpp:18 | appends four bytes, highest first |
| Streams.Writer.U64 | include/workload_fabric/detail/binary.hpp:19 | appends eight bytes, highest first |
| Streams.Writer.Str | include/workload_fabric/detail/binary.hpp:24 | appends the length and the bytes |
| Streams.Writer.Raw | include/workload_fabric/detail/binary.hpp:26 | appends the bytes |
| Streams.Reader.U8 | include/workload_fabric/detail/binary.hpp:44 | takes one byte or runs short |
| Streams.Reader.U32 | include/workload_fabric/detail/binary.hpp:46 | takes four bytes, highest first |
| Streams.Reader.U64 | include/workload_fabric/detail/binary.hpp:47 | takes eight bytes, highest first |
| Streams.Reader.Str | include/workload_fabric/detail/binary.hpp:51 | checks the length against the bytes left before taking them |
| Streams.Reader.Raw | include/workload_fabric/detail/binary.hpp:52 | takes the bytes or runs short |
| Streams.Reader.Empty | include/workload_fabric/detail/binary.hpp:40 | tells whether anything is unread |
| Streams.Reader.Enum | src/persistence.cpp:129-136 | rejects values past the last enumerator |
| Encoding.WriteHeader | src/persistence.cpp:27-32 | appends the bytes of this part in the order and with the numbers of the list in Layout, before whatever comes next |
| Encoding.WriteRestartPolicy | src/persistence.cpp:34-38 | appends the bytes of this part in the order and with the numbers of the list in Layout, before whatever comes next |
| Encoding.WriteCompletionPolicy | src/persistence.cpp:39-42 | appends the bytes of this part in the order and with the numbers of the list in Layout, before whatever comes next |
| Encoding.WriteMigrationPolicy | src/persistence.cpp:43-46 | appends the bytes of this part in the order and with the numbers of the list in Layout, before whatever comes next |
| Encoding.WriteSuspensionPolicy | src/persistence.cpp:47-50 | appends the bytes of this part in the order and with the numbers of the list in Layout, before whatever comes next |
| Encoding.WritePolicy | src/persistence.cpp:34-52 | appends the bytes of this part in the order and with the numbers of the list in Layout, before whatever comes next |
| Encoding.WriteRequirement | src/persistence.cpp:58-62 | appends the bytes of this part in the order and with the numbers of the list in Layout, before whatever comes next |
| Encoding.WriteRequirements | src/persistence.cpp:57-63 | appends the bytes of this part in the order and with the numbers of the list in Layout, before whatever comes next |
| Encoding.WriteBinding | src/persistence.cpp:69 | appends the bytes of this part in the order and with the numbers of the list in Layout, before whatever comes next |
| Encoding.WriteBindings | src/persistence.cpp:69 | appends the bytes of this part in the order and with the numbers of the list in Layout, before whatever comes next |
| Encoding.WriteGrant | src/persistence.cpp:64-69 | appends the bytes of this part in the order and with the numbers of the list in Layout, before whatever comes next |
| Encoding.WriteContract | src/persistence.cpp:54-69 | appends the bytes of this part in the order and with the numbers of the list in Layout, before whatever comes next |
| Encoding.WriteDef | src/persistence.cpp:74 | appends the bytes of this part in the order and with the numbers of the list in Layout, before whatever comes next |
| Encoding.WriteDefinitions | src/persistence.cpp:74 | appends the bytes of this part in the order and with the numbers of the list in Layout, before whatever comes next |
| Encoding.WriteState | src/persistence.cpp:76 | appends the bytes of this part in the order and with the numbers of the list in Layout, before whatever comes next |
| Encoding.WriteStates | src/persistence.cpp:76 | appends the bytes of this part in the order and with the numbers of the list in Layout, before whatever comes next |
| Encoding.WriteDeps | src/persistence.cpp:71-76 | appends the bytes of this part in the order and with the numbers of the list in Layout, before whatever comes next |
| Encoding.WritePriority | src/persistence.cpp:78-85 | appends the bytes of this part in the order and with the numbers of the list in Layout, before whatever comes next |
| Encoding.WriteProgress | src/persistence.cpp:87-93 | appends the bytes of this part in the order and with the numbers of the list in Layout, before whatever comes next |
| Encoding.WriteCounters | src/persistence.cpp:95-102 | appends the bytes of this part in the order and with the numbers of the list in Layout, before whatever comes next |
| Encoding.WriteMarks | src/persistence.cpp:103-107 | appends the bytes of this part in the order and with the numbers of the list in Layout, before whatever comes next |
| Encoding.WriteEpisodeHead | src/persistence.cpp:111-113 | appends the bytes of this part in the order and with the numbers of the list in Layout, before whatever comes next |
| Encoding.WriteHandle | src/persistence.cpp:114 | appends the bytes of this part in the order and with the numbers of the list in Layout, before whatever comes next |
| Encoding.WriteLineage | src/persistence.cpp:115-116 | appends the bytes of this part in the order and with the numbers of the list in Layout, before whatever comes next |
| Encoding.WriteEpisodeTail | src/persistence.cpp:119-120 | appends the bytes of this part in the order and with the numbers of the list in Layout, before whatever comes next |
| Encoding.WriteEpisode | src/persistence.cpp:111-120 | appends the bytes of this part in the order and with the numbers of the list in Layout, before whatever comes next |
| Encoding.WriteEpisodes | src/persistence.cpp:110-121 | appends the bytes of this part in the order and with the numbers of the list in Layout, before whatever comes next |
| Encoding.WriteRecord | src/persistence.cpp:124-125 | appends the bytes of this part in the order and with the numbers of the list in Layout, before whatever comes next |
| Encoding.WriteRecords | src/persistence.cpp:123-126 | appends the bytes of this part in the order and with the numbers of the list in Layout, before whatever comes next |
| Encoding.WriteFront | src/persistence.cpp:27-85 | appends the bytes of this part in the order and with the numbers of the list in Layout, before whatever comes next |
| Encoding.WriteRear | src/persistence.cpp:87-126 | appends the bytes of this part in the order and with the numbers of the list in Layout, before whatever comes next |
| Decoding.ReadHeader | src/persistence.cpp:141-146 | reads this part as specified: the value and the bytes left, or the same rejection, shortage or overrun |
| Decoding.ReadRestartPolicy | src/persistence.cpp:148-152 | reads this part as specified: the value and the bytes left, or the same rejection, shortage or overrun |
| Decoding.ReadCompletionPolicy | src/persistence.cpp:153-156 | reads this part as specified: the value and the bytes left, or the same rejection, shortage or overrun |
| Decoding.ReadMigrationPolicy | src/persistence.cpp:157-160 | reads this part as specified: the value and the bytes left, or the same rejection, shortage or overrun |
| Decoding.ReadSuspensionPolicy | src/persistence.cpp:161-164 | reads this part as specified: the value and the bytes left, or the same rejection, shortage or overrun |
| Decoding.ReadPolicy | src/persistence.cpp:148-166 | reads this part as specified: the value and the bytes left, or the same rejection, shortage or overrun |
| Decoding.ReadRequirement | src/persistence.cpp:173-179 | reads this part as specified: the value and the bytes left, or the same rejection, shortage or overrun |
| Decoding.ReadRequirements | src/persistence.cpp:172-180 | reads this part as specified: the value and the bytes left, or the same rejection, shortage or overrun |
| Decoding.ReadBinding | src/persistence.cpp:188 | reads this part as specified: the value and the bytes left, or the same rejection, shortage or overrun |
| Decoding.ReadBindings | src/persistence.cpp:188 | reads this part as specified: the value and the bytes left, or the same rejection, shortage or overrun |
| Decoding.ReadGrant | src/persistence.cpp:182-188 | reads this part as specified: the value and the bytes left, or the same rejection, shortage or overrun |
| Decoding.ReadContract | src/persistence.cpp:168-189 | reads this part as specified: the value and the bytes left, or the same rejection, shortage or overrun |
| Decoding.ReadDef | src/persistence.cpp:193 | reads this part as specified: the value and the bytes left, or the same rejection, shortage or overrun |
| Decoding.ReadDefinitions | src/persistence.cpp:193 | reads this part as specified: the value and the bytes left, or the same rejection, shortage or overrun |
| Decoding.ReadState | src/persistence.cpp:195 | reads this part as specified: the value and the bytes left, or the same rejection, shortage or overrun |
| Decoding.ReadStates | src/persistence.cpp:195 | reads this part as specified: the value and the bytes left, or the same rejection, shortage or overrun |
| Decoding.ReadDeps | src/persistence.cpp:191-195 | reads this part as specified: the value and the bytes left, or the same rejection, shortage or overrun |
| Decoding.ReadPriority | src/persistence.cpp:197-203 | reads this part as specified: the value and the bytes left, or the same rejection, shortage or overrun |
| Decoding.ReadProgress | src/persistence.cpp:205-211 | reads this part as specified: the value and the bytes left, or the same rejection, shortage or overrun |
| Decoding.ReadCounters | src/persistence.cpp:213-220 | reads this part as specified: the value and the bytes left, or the same rejection, shortage or overrun |
| Decoding.ReadMarks | src/persistence.cpp:221-225 | reads this part as specified: the value and the bytes left, or the same rejection, shortage or overrun |
| Decoding.ReadEpisodeHead | src/persistence.cpp:230-233 | reads this part as specified: the value and the bytes left, or the same rejection, shortage or overrun |
| Decoding.ReadHandle | src/persistence.cpp:234 | reads this part as specified: the value and the bytes left, or the same rejection, shortage or overrun |
| Decoding.ReadLineage | src/persistence.cpp:235-237 | reads this part as specified: the value and the bytes left, or the same rejection, shortage or overrun |
| Decoding.ReadEpisodeTail | src/persistence.cpp:242-243 | reads this part as specified: the value and the bytes left, or the same rejection, shortage or overrun |
| Decoding.ReadEpisode | src/persistence.cpp:229-244 | reads this part as specified: the value and the bytes left, or the same rejection, shortage or overrun |
| Decoding.ReadEpisodes | src/persistence.cpp:228-245 | reads this part as specified: the value and the bytes left, or the same rejection, shortage or overrun |
| Decoding.ReadRecord | src/persistence.cpp:248-253 | reads this part as specified: the value and the bytes left, or the same rejection, shortage or overrun |
| Decoding.ReadRecords | src/persistence.cpp:247-254 | reads this part as specified: the value and the bytes left, or the same rejection, shortage or overrun |
| Decoding.ReadFront | src/persistence.cpp:141-203 | reads this part as specified: the value and the bytes left, or the same rejection, shortage or overrun |
| Decoding.ReadRear | src/persistence.cpp:205-254 | reads this part as specified: the value and the bytes left, or the same rejection, shortage or overrun |
| Aggregate.DurableWorkload.Create | src/workload.cpp:10-21 | a fresh workload |
| Aggregate.DurableWorkload.Log | src/workload.cpp:23-32 | one record more, revision one higher |
| Aggregate.DurableWorkload.GuardedTransition | src/workload.cpp:44-76 | every attempt is logged except one that finds the workload already there; the state moves iff allowed |
| Aggregate.DurableWorkload.SettleInto | src/workload.cpp:82-96 | the gate is computed from dependencies and contract and entered |
| Aggregate.DurableWorkload.Explain | src/workload.cpp:360-366 | the first gate not passed |
| Aggregate.DurableWorkload.Find | src/workload.cpp:137-140 | the first episode with the id |
| Aggregate.DurableWorkload.Current | src/workload.cpp:34-42 | the first authoritative episode, else the last |
| Aggregate.DurableWorkload.DropAuthority | src/workload.cpp:121 | no episode is authoritative any more |
| Aggregate.DurableWorkload.HandOver | src/workload.cpp:121-133 | the new episode takes authority over |
| Aggregate.DurableWorkload.Start | src/workload.cpp:98-135 | outcome and every field afterwards are what Model.StartEpisode says of the fields before, about which the Verdicts, Lifecycle and Runs theorems are |
| Aggregate.DurableWorkload.Admit | src/workload.cpp:137-147 | outcome and every field afterwards are what Model.AdmitDispatch says of the fields before, about which the Verdicts, Lifecycle and Runs theorems are |
| Aggregate.DurableWorkload.Report | src/workload.cpp:149-163 | as specified, with both 64-bit sums |
| Aggregate.DurableWorkload.Criterion | src/workload.cpp:171-188 | whether the evidence of the policy is there, which Verdicts.CommitAllowedIff spells out |
| Aggregate.DurableWorkload.MarkCompletion | src/workload.cpp:191-195 | what a commit records before its transition |
| Aggregate.DurableWorkload.Commit | src/workload.cpp:165-200 | outcome and every field afterwards are what Model.CommitCompletion says of the fields before, about which the Verdicts, Lifecycle and Runs theorems are |
| Aggregate.DurableWorkload.FinalizeExplicitly | src/workload.cpp:202-210 | outcome and every field afterwards are what Model.Finalize says of the fields before, about which the Verdicts, Lifecycle and Runs theorems are |
| Aggregate.DurableWorkload.RequestCancel | src/workload.cpp:212-219 | outcome and every field afterwards are what Model.RequestCancellation says of the fields before, about which the Verdicts, Lifecycle and Runs theorems are |
| Aggregate.DurableWorkload.FinishCancel | src/workload.cpp:221-232 | outcome and every field afterwards are what Model.CompleteCancellation says of the fields before, about which the Verdicts, Lifecycle and Runs theorems are |
| Aggregate.DurableWorkload.OnWorkerLost | src/workload.cpp:234-245 | outcome and every field afterwards are what Model.WorkerLost says of the fields before, about which the Verdicts, Lifecycle and Runs theorems are |
| Aggregate.DurableWorkload.MarkEpisodeCompleted | src/workload.cpp:247-251 | outcome and every field afterwards are what Model.MarkCompleted says of the fields before, about which the Verdicts, Lifecycle and Runs theorems are |
| Aggregate.DurableWorkload.SpendSlot | src/workload.cpp:281-284 | the slot, its generation, reason and source |
| Aggregate.DurableWorkload.Restart | src/workload.cpp:262-288 | the slot is spent before the edge is checked |
| Aggregate.DurableWorkload.Suspend | src/workload.cpp:290-296 | outcome and every field afterwards are what Model.RequestSuspend says of the fields before, about which the Verdicts, Lifecycle and Runs theorems are |
| Aggregate.DurableWorkload.Quiesce | src/workload.cpp:302 | the current episode is suspended and no longer lost |
| Aggregate.DurableWorkload.FinishSuspend | src/workload.cpp:298-309 | outcome and every field afterwards are what Model.CompleteSuspend says of the fields before, about which the Verdicts, Lifecycle and Runs theorems are |
| Aggregate.DurableWorkload.Resume | src/workload.cpp:311-318 | outcome and every field afterwards are what Model.RequestResume says of the fields before, about which the Verdicts, Lifecycle and Runs theorems are |
| Aggregate.DurableWorkload.CountMigration | src/workload.cpp:327-328 | migration id and generation move, before the edge is checked; when a request so counted is then refused Lifecycle.RequestMigrationIff tells |
| Aggregate.DurableWorkload.Migrate | src/workload.cpp:320-332 | outcome and every field afterwards are what Model.RequestMigration says of the fields before, about which the Verdicts, Lifecycle and Runs theorems are |
| Aggregate.DurableWorkload.AdoptTarget | src/workload.cpp:341-356 | the migrated episode takes authority over under a new generation |
| Aggregate.DurableWorkload.FinishMigration | src/workload.cpp:334-358 | outcome and every field afterwards are what Model.CommitMigration says of the fields before, about which the Verdicts, Lifecycle and Runs theorems are |
| Dependencies.DependencySet.Define | src/dependencies.cpp:13-18 | definition and fresh state are appended |
| Dependencies.DependencySet.Clear | src/dependencies.cpp:19-22 | nothing is left but the id |
| Dependencies.DependencySet.SetStatus | src/dependencies.cpp:23-31 | an older observation never overwrites a newer one |
| Dependencies.DependencySet.Ready | src/dependencies.cpp:32-38 | true iff no required dependency is unmet |
| Dependencies.DependencySet.FirstUnmetRequired | src/dependencies.cpp:39-45 | none iff ready, otherwise the first unmet required one |
| Resources.ResourceContract.Add | src/resources.cpp:28-39 | a duplicate kind and descriptor is refused, a prohibited entry loses its values |
| Resources.ResourceContract.SetRequirements | src/resources.cpp:41-49 | the entries are replaced |
| Resources.ResourceContract.ApplyGrant | src/resources.cpp:51-55 | the grant is granted iff made for the current generation, else stale |
| Resources.ResourceContract.ReleaseGrant | src/resources.cpp:57-63 | a grant is released at most once and only under the current generation |
| Resources.ResourceContract.AdvanceGeneration | src/resources.cpp:65-69 | moves iff the caller holds the current generation |
| Resources.ResourceContract.IsSatisfied | src/resources.cpp:71-90 | true iff the grant is live, meets each REQUIRED entry and binds nothing PROHIBITED, in the numbers of Amounts.SatisfiedIff |
| Resources.ResourceContract.FirstUnsatisfiedRequired | src/resources.cpp:92-102 | none iff all REQUIRED entries are met, in the numbers of Amounts.SatisfiesIff, otherwise the first that is not |
| ProgressModel.ProgressCounters.Advance | src/progress.cpp:12-19 | refuses exactly the deltas that would wrap, and moves the counters otherwise |
| ProgressModel.ProgressCounters.Reconcile | src/progress.cpp:21-28 | refuses exactly a regression of monotonic progress; the counters become what Reconciled says of the old ones, which the next three rows characterise |
| ProgressModel.ReconcileKeepsCheckpointIff | src/progress.cpp:21-28 | recovering a value keeps the checkpoint within the count iff the value is durable or not below the checkpoint; monotonic counters accept no other |
| ProgressModel.RecoveryBelowCheckpoint | src/progress.cpp:21-28 | an input: without monotonicity, recovering 3 over a checkpoint of 5 leaves the checkpoint above the count |
| ProgressModel.MonotonicNeverFalls | src/progress.cpp:12-28 | over any mix of progress and recovery monotonic counters never fall and never checkpoint more than they completed |
| Coordinator.WorkloadEngine.Register | src/coordinator.cpp:25-36 | an existing id is refused, a new workload is filed under its id and saved |
| Coordinator.WorkloadEngine.Exists | src/coordinator.cpp:7-10 | whether the id is known |
| Coordinator.WorkloadEngine.Find | src/coordinator.cpp:276-281 | a copy of the workload, if known |
| Coordinator.WorkloadEngine.Persist | src/coordinator.cpp:21-23 | saves when there is a store |
| Coordinator.WorkloadEngine.Validate | src/coordinator.cpp:38-47 | the engine step on the objects behind the map: all other workloads untouched, the result reported, saved iff allowed |
| Coordinator.WorkloadEngine.SetPolicy | src/coordinator.cpp:49-58 | the engine step on the objects behind the map: all other workloads untouched, the result reported, saved iff allowed |
| Coordinator.WorkloadEngine.AddDependency | src/coordinator.cpp:60-69 | the engine step on the objects behind the map: all other workloads untouched, the result reported, saved iff allowed |
| Coordinator.WorkloadEngine.SetDependencyStatus | src/coordinator.cpp:71-80 | the engine step on the objects behind the map: all other workloads untouched, the result reported, saved iff allowed |
| Coordinator.WorkloadEngine.AddResourceRequirement | src/coordinator.cpp:82-91 | the engine step on the objects behind the map: all other workloads untouched, the result reported, saved iff allowed |
| Coordinator.WorkloadEngine.ApplyGrant | src/coordinator.cpp:93-102 | the engine step on the objects behind the map: all other workloads untouched, the result reported, saved iff allowed |
| Coordinator.WorkloadEngine.Settle | src/coordinator.cpp:104-113 | the engine step on the objects behind the map: all other workloads untouched, the result reported, saved iff allowed |
| Coordinator.WorkloadEngine.StartEpisode | src/coordinator.cpp:115-125 | the engine step, with the id minted before the start is attempted |
| Coordinator.WorkloadEngine.AdmitDispatch | src/coordinator.cpp:127-136 | the engine step on the objects behind the map: all other workloads untouched, the result reported, saved iff allowed |
| Coordinator.WorkloadEngine.Progress | src/coordinator.cpp:138-147 | the engine step on the objects behind the map: all other workloads untouched, the result reported, saved iff allowed |
| Coordinator.WorkloadEngine.EpisodeCompleted | src/coordinator.cpp:149-158 | the engine step on the objects behind the map: all other workloads untouched, the result reported, saved iff allowed |
| Coordinator.WorkloadEngine.CommitCompletion | src/coordinator.cpp:160-169 | the engine step on the objects behind the map: all other workloads untouched, the result reported, saved iff allowed |
| Coordinator.WorkloadEngine.OnWorkerLost | src/coordinator.cpp:171-180 | the engine step on the objects behind the map: all other workloads untouched, the result reported, saved iff allowed |
| Coordinator.WorkloadEngine.PlanRestart | src/coordinator.cpp:182-191 | the engine step on the objects behind the map: all other workloads untouched, the result reported, saved iff allowed |
| Coordinator.WorkloadEngine.RequestSuspend | src/coordinator.cpp:193-202 | the engine step on the objects behind the map: all other workloads untouched, the result reported, saved iff allowed |
| Coordinator.WorkloadEngine.CompleteSuspend | src/coordinator.cpp:203-212 | the engine step on the objects behind the map: all other workloads untouched, the result reported, saved iff allowed |
| Coordinator.WorkloadEngine.RequestResume | src/coordinator.cpp:213-222 | the engine step on the objects behind the map: all other workloads untouched, the result reported, saved iff allowed |
| Coordinator.WorkloadEngine.RequestMigration | src/coordinator.cpp:223-232 | the engine step on the objects behind the map: all other workloads untouched, the result reported, saved iff allowed |
| Coordinator.WorkloadEngine.CommitMigration | src/coordinator.cpp:233-242 | the engine step on the objects behind the map: all other workloads untouched, the result reported, saved iff allowed |
| Coordinator.WorkloadEngine.Cancel | src/coordinator.cpp:243-252 | the engine step on the objects behind the map: all other workloads untouched, the result reported, saved iff allowed |
| Coordinator.WorkloadEngine.CompleteCancellation | src/coordinator.cpp:253-262 | the engine step on the objects behind the map: all other workloads untouched, the result reported, saved iff allowed |

## Left out

Assumptions: constructor arguments in src/persistence.cpp lines 168 and 191 are taken to be evaluated left to
right, which C++ leaves open; memory allocation, including the reservation on line 171, is taken to succeed;
shifts and bitwise ors of the big-endian primitives are written as multiplication by 256 and addition.

- Sockets, timeouts, process spawning and tools: a channel is a sequence of frames that may break at any frame.
- FileStateStore: file system input and output; only the in-memory store is modelled.
- WorkDescriptor::parse splits text and calls a library number parser; the parser is a parameter of `Worker.RunWorker`, the guards on the numbers are modelled.
- The segment runner is an arbitrary function; cpuReferenceSegment, freshBootId and freshWorkerId are not part of this model.
- Explanation objects: outcomes are modelled, detail texts are dropped; explainRestartAllowed and explainMigrationAllowed are one comparison each.
- Name tables, benchmarks, examples, the inspection tool and the CUDA proof only print or need hardware.
- ReferenceExecutionFabric and ReferenceCheckpoint: thin maps with no property of their own.
- Priority arithmetic: only the stored fields matter to persistence.
- markEpisodeFailed and the test hooks are not called by the engine.
- The strong id types: every id and generation is its 64-bit number.
- WorkloadEngine::list returns the keys in order and is not part of this model.
- Runs.RunKeepsOrder: assumes fewer than 2^64 - 2 episodes, because the generation counter then wraps.
- Guarantees.SupersededStaysRefused: assumes fewer than 2^64 - 2 episodes, because a wrapped generation returns.
- Guarantees.OneMigrationPerGeneration: assumes fewer than 2^64 - 2 episodes, because a wrapped generation returns.
- Identities.NamedEpisodeIsFound: assumes fewer than 2^63 calls, so that neither id counter wraps.
- Records.RecordRoundTripIff: assumes list counts below 2^32 and a record below 2^64 bytes, the sizes its fields can hold.
- Simulation.LoadAlwaysAgrees: assumes that the last saved workload is loadable; Loading.EngineLoadableIff says which inputs make it so.
- Simulation.LoadAfterAllowIff: asks of the state after the call; Loading.RecordLoadsIffInputsGood asks of the inputs instead.
- Loading.RecordLoadsIffInputsGood: assumes fewer than a third of 2^64 calls, so that no counter wraps to zero, and a workload within the sizes a record's fields can hold.
- ExactlyOnce.EveryUnitOnce: assumes that each episode is dispatched at most once and from the completed count, that the total is not declared anew during the run, and that each dispatch passes OrderlyDispatch. OutOfOrder.CountsInOrderIffOrderly shows the last condition to be exact; two dispatches of one episode could both report the same units.
- OutOfOrder.CountsInOrderIffOrderly: is about a dispatch delivered in full with no other call in between; other calls are covered by ExactlyOnce.EveryUnitOnce.
- RestartLimit.PlannedIff: is about workloads without episodes yet; RestartLimit.CoveredStartsArePaid and RestartLimit.UncoveredStartIsFree hold of every workload.
- Reload.MigrationAfterReloadIff: starts from MIGRATION_PENDING; no engine run rests in MIGRATING (EngineLaws.EngineNeverRestsInTransit), and from any other state a commit is refused (Lifecycle.MigrateAllOrNothing).
- Amounts.SatisfiedIff: is about finite amounts, the ones a record can hold; Amounts.NaNMeetsEverything covers amounts that are not numbers, and infinities follow the same order of bits.
- Verdicts.CommitVerdict: like the verdicts on losses, restarts, reports and suspensions it assumes that authority rests with the last episode, which every run keeps (Runs.RunKeepsInv).
