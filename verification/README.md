# SentinelFlow: verified models of its stateful core

SentinelFlow watches requests, correlates detector signals into incidents, ships authentication events, and
guards its control plane. This project models the parts of it that carry state and protocol, in Dafny 4.11, and
proves what they promise over every input and every run. `dafny verify dfyconfig.toml` checks everything.

## What is modelled

**Incident correlation** (`Signals`, `Components`, `Relations`, `Snapshot`, `SnapshotWriter`, `Correlate`). The
one-pass sweep returns exactly the connected components of the graph "same source, windows overlapping or at most
five minutes apart". The reference definition (`Correlate.IsCorrelation`) is stated with chains of edges, and the
sweep is proved against it; uniqueness of that meaning gives independence of order and repetition. What a snapshot
lists is stated on the signals themselves, an independent JSON reader (`JsonReader`) reads its bytes back, and command
fingerprints determine what they were made from.

**The incident aggregate** (`Incident`, `IncidentRuns`, `IncidentTheorems`, `Inhabited`). Every command is a function from
incident to incident. When each command takes effect and what it answers is stated on state, source and time; the
other theorems are about arbitrary runs of commands: the invariant, replay of a command after any later steps, used identifiers, unreachable guards, bounded analysis, and an incremental history that equals the
batch correlation. A reopening can break that equality: for every accepted signal the exact condition is proved
(`RouteJoins`), and for every run exactly when the relations are those of the signals (`RelationsOverRuns`).

**The auth-event sender** (`Sender*`, `AuthSender`). A state machine over its indivisible steps, with the network,
the clock and the identifier source free, and an object (`AuthSender.AuthSender`) whose methods are each proved to
be one step of it. Which records a cut takes is what the fitting loop takes: the largest number whose body fits.
Over every run: conservation of events, one body per sequence number, exact loss accounting, the tiling of each
segment by its digest-linked coverage markers, what a committed marker claims, bounded resources, and what a clean
checkpoint means. Nothing gets stuck: from every reachable state that is neither halted nor cancelled a clean
shutdown can be reached (`SenderProgress`).

**Administrator sessions and the login limiter** (`Sessions`, `SessionTheorems`, `SessionStore`, `Limiter`). The
session table under guarded transactions and an advancing database clock, with its lineages; pruned queues against
the whole history of admitted attempts.

**Smaller pieces.** The auth-binding reconciler (`Reconciler`), the strict JSON check and canonical form
(`Json`, `DemoHistory`), the metrics completeness check and rendering (`Metrics`), the AI budget (`Budget`).

## Properties that turned out false of the code

- *No committed coverage marker overlaps a reported loss of its epoch.* This fails where one or two records fill a
  batch: new health records are put in front of older ones that a small batch left behind, so the boundary
  acknowledged last is an old one and coverage moves back over an outage that was just reported. The runs are
  constructed in `SenderOverlap`. Where exactly the batches of up to n records fit (n is the batch size when the byte
  limit never bites), `SeparationExactlyWhenRoomy` proves that the property holds over all runs if and only if n is 0
  or at least 3. For sizes that depend on the contents one direction is proved (`SenderRuns.CoverageAvoidsLoss`): it
  holds when the batch size is at least three and every batch of up to three health records fits.
- *A caller refused for capacity may retry at RetryAfter.* The advertised instant is when the oldest attempt expires,
  which need not empty any queue: `Limiter.CapacityRetryTooEarly` gives the input, `CapacityRetryExact` the condition.
- *An incident's signals form one correlation group.* False after a reopening, which ignores the five-minute rule:
  `Inhabited.ReopeningMaySplit` gives an incident and a signal that turn one group into two. For every accepted signal,
  appended or reopening, `IncidentTheorems.RouteJoins` gives the condition: one group is left if and only if the signal
  is joined to a member of every group there was.
- *An incident's relations are those of its signals.* False right after a reopening, whose entry replaces that of its
  pair: `IncidentTheorems.ReopenedRelations` says what they are then, and `RelationsOverRuns` that over every run they
  are those of the signals if and only if the last accepted signal did not reopen the incident.

## Reading the model

- Instants are integers, nanoseconds after Go's zero instant, so `IsZero` is `== 0`. Integers are unbounded; where
  the source saturates or bounds a number (64-bit durations, 2^53 - 1, 64-bit costs) the model does so explicitly.
- SHA-256 and HMAC digests are taken as one-to-one, so a digest is represented by what it is the digest of.
  Batch identifiers are fresh in each run of the sender, and an identifier of a deleted session is not drawn again.
- Strings are sequences of Unicode code points; where the source counts bytes (`Encoding.ByteLength`), so does the
  model. `Encoding.Quote` escapes as Go's JSON encoder does, HTML characters
  included; it is not the string form of RFC 8785. `Encoding.FormatTime` is a one-to-one stand-in for RFC 3339 text.
- The sender's clock never runs backwards, and the block after an acknowledgement (`internal/authsender/sender.go`
  lines 459 to 474) is one step. No lock of the source enforces that: an overflow recorded between taking the health
  records and clearing the degraded flag would be hidden by it, and the coverage results would fail.
- The marshalled length of a batch is an arbitrary function (`Config.size`) of the batch; `Config.maxBytes` is the limit.
- In the limiter, instants are nondecreasing in lock order; the source reads its clock before it takes the lock.
- Every database transaction is one atomic step that rolls back when it is refused, as its row locks provide.
  The Gateway table may grow between the statements of one reconciliation, but its rows do not change.

## Model

| member | source | states |
|---|---|---|
| `Signals.NormalizeSignals` | internal/correlation/validate.go:20-41 | gathering into a map, draining it in any order and sorting computes `Normalize` |
| `Signals.NormalizeSpec` | internal/correlation/validate.go:20-92 | accepted exactly when every signal is valid and equal IDs carry equal signals; the result holds the same signals, each once, in sweep order |
| `Signals.NormalizeOrderFree` | internal/correlation/validate.go:20-41 | permuting or repeating the input changes nothing |
| `Signals.ValidSignalMeans` | internal/correlation/validate.go:43-127 | a valid signal matches one of the four rules with its thresholds and lists as much evidence as it counts events, each once and in order |
| `Signals.SignalLessOrder` | internal/correlation/validate.go:182-195 | the sweep order is a strict order, total on distinct IDs |
| `Components.TemporalRelationIsEdge` | internal/correlation/correlate.go:98-116 | the case analysis with saturating durations decides the documented edge, is symmetric and names overlap correctly |
| `Components.JoinsAllParts` | internal/correlation/correlate.go:13-58 | a new signal joins all components into one if and only if it is joined to a member of each |
| `Relations.AppendRow` | internal/correlation/correlate.go:81-92 | the inner loop appends the relations of one signal with all later ones |
| `Relations.BuildRelationList` | internal/correlation/correlate.go:78-96 | the nested loops and the sort compute `BuildRelations` |
| `Relations.EntryMeans` | internal/correlation/correlate.go:118-136 | an entry names the two IDs in order, the reason given, and whether service and rule are the same |
| `Relations.JoinsMean` | internal/correlation/correlate.go:98-136 | the entry of a joined pair says overlap exactly when the windows meet, and five minutes otherwise |
| `Relations.RelationsExact` | internal/correlation/correlate.go:78-153 | strictly increasing, with exactly one entry for each joined pair |
| `Relations.RelationsOrderFree` | internal/correlation/correlate.go:78-96 | relations depend on the set of signals only |
| `Snapshot.CompactInPlace` | internal/correlation/snapshot.go:195-203 | the array is compacted in place to its runs without repetition |
| `Snapshot.SortedUniqueList` | internal/correlation/snapshot.go:192-204 | sorting and compacting computes `SortedUnique` |
| `Snapshot.SortedUniqueSpec` | internal/correlation/snapshot.go:192-204 | the strictly increasing list of exactly the given strings |
| `Snapshot.Accumulate` | internal/correlation/snapshot.go:23-56 | the loop succeeds exactly on one source and then holds the window bounds and lists of all signals |
| `Snapshot.BuildEvidenceSnapshot` | internal/correlation/snapshot.go:15-78 | computes `BuildSnapshot`, errors included |
| `Snapshot.SnapshotSucceeds` | internal/correlation/snapshot.go:15-78 | valid signals of one source always have a snapshot, whose window is the tightest around theirs |
| `Snapshot.SnapshotLists` | internal/correlation/snapshot.go:15-78 | evidence, services and signal IDs of the snapshot are in strict order and exactly those of the signals |
| `Snapshot.SnapshotRefs` | internal/correlation/snapshot.go:15-78 | one reference for each signal and no other, in strict order of ID, equal to the signal in all twelve fields |
| `Snapshot.SnapshotOrderFree` | internal/correlation/snapshot.go:15-78 | the snapshot is a function of the set of signals |
| `Snapshot.CanonicalInjective` | internal/correlation/snapshot.go:80-190 | canonical bytes determine the whole minimized snapshot |
| `SnapshotWriter.WriteStringArray` | internal/correlation/snapshot.go:181-190 | the loop writes the printed array |
| `SnapshotWriter.WriteSignalRef` | internal/correlation/snapshot.go:128-166 | the buffer holds the printed reference |
| `SnapshotWriter.WriteRefs` | internal/correlation/snapshot.go:104-111 | the loop writes the printed list of references |
| `SnapshotWriter.MarshalSnapshot` | internal/correlation/snapshot.go:80-126 | what is written key by key are the canonical bytes |
| `SnapshotWriter.CanonicalReadsBack` | internal/correlation/snapshot.go:80-166 | read as JSON, the bytes are one object with every field of the snapshot and of its references under its key |
| `Correlate.MakeGroup` | internal/correlation/correlate.go:60-76 | computes `BuildGroup` |
| `Correlate.CloseComponent` | internal/correlation/correlate.go:34-40 | closing a component into a group cannot fail and extends the finished groups |
| `Correlate.SweepGroups` | internal/correlation/correlate.go:22-46 | the loop ends with segments that cover all signals and are pairwise out of reach |
| `Correlate.SegmentsAreComponents` | internal/correlation/correlate.go:25-46 | such segments are exactly the connected components |
| `Correlate.Correlate` | internal/correlation/correlate.go:13-58 | fails exactly when normalisation does; otherwise returns the components, each built from its own signals, in order |
| `Correlate.FinalSortFixed` | internal/correlation/correlate.go:48-56 | the final sort moves nothing, so the digest tie-break is never consulted |
| `Correlate.CorrelationUnique` | internal/correlation/correlate.go:10-58 | inputs with the same signals have the same correlation |
| `Correlate.CorrelationPartitions` | internal/correlation/correlate.go:13-58 | every signal is in exactly one group, once |
| `Correlate.ConnectedOneGroup` | internal/correlation/correlate.go:13-58 | one group if and only if the signals are connected |
| `Incident.FingerprintInjective` | internal/correlation/lifecycle.go:294-310 | lines prefixed by their length in bytes decode uniquely: equal fingerprints, equal commands |
| `Incident.ScanCommands` | internal/correlation/lifecycle.go:259-267 | the scan finds the record of an ID |
| `Incident.FindLatest` | internal/correlation/lifecycle.go:321-330 | the loop computes `LatestSignal` |
| `Incident.LatestEndsLast` | internal/correlation/lifecycle.go:321-330 | no window ends after that signal's, and among equal ends none has a greater ID |
| `Incident.FilterPair` | internal/correlation/lifecycle.go:332-343 | the loop computes `DropPair` |
| `Incident.DropPairKeeps` | internal/correlation/lifecycle.go:332-343 | every entry of another pair stays as often as it was, and none of the pair |
| `Incident.DropPairOrdered` | internal/correlation/lifecycle.go:332-343 | what stays keeps its order, whatever the order is |
| `Incident.ReplacePairExact` | internal/correlation/lifecycle.go:332-343 | the replaced list is in strict order and holds the replacement and exactly the entries of other pairs |
| `IncidentRuns.NewIncidentInv` | internal/correlation/lifecycle.go:15-39 | a new incident carries its group's evidence, starts open at revision 1 at the given instant, and satisfies the invariant |
| `IncidentRuns.NewIncidentSucceeds` | internal/correlation/lifecycle.go:15-39 | an incident is created exactly at a known instant not before the last signal of its group |
| `IncidentRuns.IdentifierMeansEvidence` | internal/correlation/lifecycle.go:311-319 | incidents of one identifier were opened on the same evidence |
| `IncidentRuns.StepCases` | internal/correlation/lifecycle.go:41-292 | a command leaves the aggregate untouched or is recorded with exactly its effect, relations after a reopening included |
| `IncidentTheorems.TransitionAnswers` | internal/correlation/lifecycle.go:41-124 | a current command begins, completes, fails or closes exactly under its condition on state, attempts, reason and time, answering with the next revision; otherwise it is refused |
| `IncidentTheorems.NotReadyRefused` | internal/correlation/lifecycle.go:250-284 | a new command at another revision is stale, one before the last update a regression of time |
| `IncidentTheorems.RouteAnswers` | internal/correlation/lifecycle.go:126-248 | a signal not yet held is appended if and only if it has the incident's source and is joined to a signal of an incident that is not closed, reopens if and only if at most thirty minutes passed since the closing, and otherwise opens an incident of its own |
| `IncidentTheorems.RetriesAgree` | internal/ai/client.go:386-405 | the client's status is retryable exactly when the reason it leaves lets the analysis be retried |
| `IncidentRuns.StepKeepsInv` | internal/correlation/lifecycle.go:41-292 | every command keeps version, revision and log in step, the time and closing rules, the attempt bound and the evidence, and removes no signal |
| `IncidentRuns.RunKeepsInv` | internal/correlation/lifecycle.go:15-292 | so does every run |
| `Inhabited.OpensIncident` | internal/correlation/lifecycle.go:15-39 | every valid signal opens an incident that satisfies the invariant |
| `Inhabited.ReopeningMaySplit` | internal/correlation/lifecycle.go:163-171 | a concrete incident closes, is reopened by a signal ten minutes away, and its signals then correlate into two groups |
| `IncidentTheorems.FingerprintDecides` | internal/correlation/lifecycle.go:250-310 | commands with one fingerprint are the same, routed signals up to ID and digest |
| `IncidentTheorems.ReplayGuardUnreachable` | internal/correlation/lifecycle.go:148-157 | a signal not yet held never meets its own command in the log |
| `IncidentTheorems.ClosedTimeGuardUnreachable` | internal/correlation/lifecycle.go:163-166 | no accepted command precedes the closing of a closed incident |
| `IncidentTheorems.RunRemembers` | internal/correlation/lifecycle.go:250-292 | a command that took effect is remembered after any later run |
| `IncidentTheorems.ReplayIsIdempotent` | internal/correlation/lifecycle.go:186-207 | resubmitting it then changes nothing and reports its first revision |
| `IncidentTheorems.UsedIDIsReserved` | internal/correlation/lifecycle.go:259-267 | a different command under a used ID is always refused |
| `IncidentTheorems.AnalysisBounded` | internal/correlation/lifecycle.go:41-63 | an incident is analysed at most twice in its life, appends and reopenings included |
| `IncidentTheorems.IncrementalEqualsBatch` | internal/correlation/lifecycle.go:126-232 | without a reopening, the grown signals correlate into one group with the same signals, snapshot and relations |
| `IncidentTheorems.RouteJoins` | internal/correlation/lifecycle.go:160-232 | after any accepted signal, appended or reopening, there is one group if and only if the signal is joined to a member of every group before |
| `IncidentTheorems.ReopenSplits` | internal/correlation/lifecycle.go:163-171 | a reopening of an incident that is one group leaves one group if and only if the new signal is related to an old one |
| `IncidentTheorems.ReopenedRelations` | internal/correlation/lifecycle.go:223-229 | after a reopening the pair of the latest old and the new signal carries the reopening reason alone, every other joined pair its own entry, in order |
| `IncidentTheorems.RelationsAfterRoute` | internal/correlation/lifecycle.go:209-232 | an accepted signal leaves exactly the relations of the signals if and only if it did not reopen: the next append rebuilds them |
| `IncidentTheorems.RelationsOverRuns` | internal/correlation/lifecycle.go:126-232 | over every run the relations are those of the signals if and only if the last accepted signal did not reopen |
| `IncidentTheorems.ReopenedEqualsBatch` | internal/correlation/lifecycle.go:15-232 | over every run from a correlated group, reopenings included: wherever the signals correlate into one group it has the incident's signals and snapshot, and its relations exactly when no reopening came last |
| `SenderInvariants.StepShape` | internal/authsender/sender.go:433-493 | every step keeps, queues, moves or finishes records, and nothing else |
| `SenderInvariants.ConservedKept` | internal/authsender/sender.go:285-493 | each step keeps every accepted event in exactly one place and in order |
| `SenderInvariants.NumberedKept` | internal/authsender/sender.go:684-754 | each step keeps one body per number and numbers consecutive |
| `SenderSteps.MillisecondsAround` | internal/authsender/sender.go:671-682 | cut and start times are the whole milliseconds around an instant |
| `SenderSteps.InitMeans` | internal/authsender/sender.go:143-199 | a fresh sender waits with nothing but the report of an unclean predecessor and is degraded exactly then |
| `SenderSteps.EnqueueMeans` | internal/authsender/sender.go:285-307 | an event is queued exactly when the sender is open, running and has room; a full queue counts one drop |
| `SenderSteps.CutMeans` | internal/authsender/sender.go:433-603 | a cut takes from the front of what waits, under the next number and a fresh identifier; a marker covers the time since coverage stood |
| `SenderSteps.RetryMeans` | internal/authsender/sender.go:684-793 | a failed attempt keeps batch and list and remembers when the outage began |
| `SenderSteps.ReportsMean` | internal/authsender/sender.go:795-843 | the reports of overflow, outage and recovery with their counts and intervals |
| `SenderSteps.AcceptMeans` | internal/authsender/sender.go:458-474 | a delivered batch leaves the list, reports come first, and recovery happens exactly when nothing is left to tell |
| `SenderSteps.RejectMeans` | internal/authsender/sender.go:475-488 | a rejected batch is replaced by a report with its number and count |
| `SenderSteps.EndingsMean` | internal/authsender/sender.go:309-431 | what closing, cancelling, giving up, failing and finishing change and leave alone |
| `SenderHealth.FlaggedKept` | internal/authsender/sender.go:772-852 | the sender is degraded exactly while there is unreported loss, undelivered health or a halt |
| `SenderHealth.AccountedKept` | internal/authsender/sender.go:772-843 | drops stay reported overflow plus accumulator until the counter saturates |
| `SenderHealth.AnsweredKept` | internal/authsender/sender.go:474-490 | unless halted, each rejected batch held events only and is reported with its exact count |
| `SenderHealth.HaltsStay` | internal/authsender/sender.go:420-431 | halted, closed and finished are never undone |
| `SenderCoverage.BoundaryBounds` | internal/authsender/sender.go:653-669 | the recovery boundary is the latest one of this epoch and is attained |
| `SenderCoverage.ChainedKept` | internal/authsender/sender.go:633-651 | the coverage state always continues the chain from its last marker; a marker without predecessor belongs to another segment than the one before |
| `SenderCoverage.SegmentedKept` | internal/authsender/sender.go:633-651 | segments are named by fresh batches, so a segment that was left is never entered again |
| `SenderCoverage.DatedKept` | internal/authsender/sender.go:605-682 | nothing is dated after the clock and pending health is dated after every marker |
| `SenderClaims.CoveringKept` | internal/authsender/sender.go:433-493 | every committed marker stays complete |
| `SenderClaims.HealthIsCarried` | internal/authsender/sender.go:530-541 | with room for three health records a cut leaves none of the pending ones behind |
| `SenderClaims.SeparateKept` | internal/authsender/sender.go:459-651 | with room for three health records markers stay clear of reported loss |
| `SenderRuns.InitInv` | internal/authsender/sender.go:143-199 | a fresh sender, with or without a restart to report, satisfies the invariant |
| `SenderRuns.StepInv` | internal/authsender/sender.go:285-493 | every step keeps the whole invariant |
| `SenderRuns.NothingIsLost` | internal/authsender/sender.go:285-493 | over every run: events conserved in order, rejected batches reported with their count or the sender halted, drops accounted for |
| `SenderRuns.OneBodyPerNumber` | internal/authsender/sender.go:457-754 | over every run numbers go out as 1, 2, 3, ... with one body each, retries and shutdown included |
| `SenderRuns.CleanMeansAccountedFor` | internal/authsender/sender.go:388-409 | a clean checkpoint means every accepted event is acknowledged or covered by an acknowledged loss report, drops included |
| `SenderRuns.CoverageHolds` | internal/authsender/sender.go:605-651 | over every run markers form one chain of segments linked by digest, each opened once, and what was accepted before a marker's cut is accounted for by it |
| `SenderRuns.SegmentsTile` | internal/authsender/sender.go:605-651 | over every run: between two markers of one segment all are of that segment, each names its predecessor and starts where it ended |
| `SenderRuns.CoverageAvoidsLoss` | internal/authsender/sender.go:633-669 | with room for three health records no committed marker overlaps an acknowledged loss or outage of its epoch |
| `SenderBounds.CutBounded` | internal/authsender/sender.go:510-631 | no cut exceeds the batch size; a marker that continues another covers new time, and a heartbeat when it travels alone |
| `SenderBounds.ResourcesBounded` | internal/authsender/sender.go:605-631 | over every run the queue keeps to its capacity, no batch sent exceeds its size, and idle coverage is no denser than its heartbeat |
| `SenderProgress.LoadedKept` | internal/authsender/sender.go:433-493 | every unreported loss is followed by something that will be delivered, so its report is never stuck |
| `SenderProgress.Cuttable` | internal/authsender/sender.go:510-541 | while single records fit and the sequence lasts, an idle sender with something waiting can cut a batch |
| `SenderProgress.CleanShutdownReachable` | internal/authsender/sender.go:353-493 | from every reachable state that is neither halted, cancelled nor finished a run leads to a clean checkpoint |
| `SenderProgress.SilenceIsAttested` | internal/authsender/sender.go:605-651 | a healthy sender with nothing waiting commits a marker over all the time since coverage stood, at every instant a heartbeat later |
| `SenderOverlap.SmallBatchesOverlap` | internal/authsender/sender.go:459-541 | where one or two records fill a batch a run exists that does overlap |
| `SenderOverlap.NothingFits` | internal/authsender/sender.go:530-541 | where no record fits nothing is ever in flight and no marker is committed |
| `SenderOverlap.SeparationExactlyWhenRoomy` | internal/authsender/sender.go:459-669 | separation over all runs if and only if no record fits or three do |
| `AuthSender.FindRecoveryBoundary` | internal/authsender/sender.go:653-669 | the loop computes `RecoveryBoundary` |
| `AuthSender.AuthSender.constructor` | internal/authsender/sender.go:143-199 | starts in the initial state of the machine |
| `AuthSender.AuthSender.TryEnqueue` | internal/authsender/sender.go:290-304 | one enqueue step, and the answer tells accepted, degraded or dropped |
| `AuthSender.AuthSender.RecordFullQueue` | internal/authsender/sender.go:772-783 | counts the drop up to saturation and flags it |
| `AuthSender.AuthSender.NoteOutage` | internal/authsender/sender.go:785-793 | remembers the start of an outage |
| `AuthSender.AuthSender.HaltDelivery` | internal/authsender/sender.go:420-431 | degraded and halted, nothing in flight |
| `AuthSender.AuthSender.ReceiveOne` | internal/authsender/sender.go:381-385 | one receive step |
| `AuthSender.AuthSender.FitPlain` | internal/authsender/sender.go:530-541 | the loop stops at the first body that fits: the largest number of records whose body does; no result exactly when none that is tried fits |
| `AuthSender.AuthSender.AttachMarker` | internal/authsender/sender.go:517-525 | a marker over everything pending, or nothing |
| `AuthSender.AuthSender.BuildPlain` | internal/authsender/sender.go:529-541 | fails exactly when no batch that is tried fits, and otherwise takes the largest that does |
| `AuthSender.AuthSender.BuildUncovered` | internal/authsender/sender.go:514-541 | without a marker: nothing to send exactly when nothing is pending and no marker was wanted |
| `AuthSender.AuthSender.BuildBatch` | internal/authsender/sender.go:510-541 | fails exactly when the sequence is exhausted, a wanted marker gets no identifier or fits nowhere, or no batch tried fits; otherwise a batch whenever something is pending or a marker is wanted, with the marker exactly when it fits |
| `AuthSender.AuthSender.CutBatch` | internal/authsender/sender.go:433-456 | drain and build are one cut step, failing under exactly that condition |
| `AuthSender.AuthSender.KeepTrying` | internal/authsender/sender.go:684-754 | an attempt without verdict is one retry step: same batch, outage remembered |
| `AuthSender.AuthSender.MoveCoverage` | internal/authsender/sender.go:633-651 | a delivered marker moves the chain on, delivered health opens a new segment |
| `AuthSender.AuthSender.TakeHealthRecords` | internal/authsender/sender.go:795-843 | the accumulator becomes its reports, each with its own date, or is restored to what it was |
| `AuthSender.AuthSender.RestoreHealth` | internal/authsender/sender.go:845-852 | what was taken is merged with what came since: counts add up to saturation, the earlier starts stay; an empty accumulator gets it back unchanged |
| `AuthSender.AuthSender.CompleteAccepted` | internal/authsender/sender.go:458-474 | the accepted branch is one accept step |
| `AuthSender.AuthSender.CompleteRejected` | internal/authsender/sender.go:475-488 | the rejected branch is one reject step |
| `AuthSender.AuthSender.FailDelivery` | internal/authsender/sender.go:489-491 | the fatal branch halts |
| `AuthSender.AuthSender.CloseQueue` | internal/authsender/sender.go:309-320 | acceptance ends |
| `AuthSender.AuthSender.CancelDelivery` | internal/authsender/sender.go:331-351 | the shutdown deadline is one cancel step |
| `AuthSender.AuthSender.AbandonDelivery` | internal/authsender/sender.go:684-754 | a cancelled delivery returns with its records still pending |
| `AuthSender.AuthSender.FinishRun` | internal/authsender/sender.go:388-409 | the clean checkpoint is written if and only if it can be stored, nothing is pending and the sender is neither degraded, halted nor cancelled |
| `Limiter.LimitsHold` | internal/adminauth/limiter.go:67-100 | no 60-second window, wherever it ends, holds more than 5 admissions of a source or 20 in all |
| `Limiter.DecisionMeans` | internal/adminauth/limiter.go:67-100 | admitted if and only if fewer than 20 attempts, fewer than 5 of the source, and room for the source in the last minute; the scope of a refusal is the first that fails |
| `Limiter.WindowsAre` | internal/adminauth/limiter.go:77-82 | each queue is exactly the recent history of its source |
| `Limiter.QueuesAddUp` | internal/adminauth/limiter.go:76-99 | the queues by source hold as many attempts as the global queue |
| `Limiter.CapacityUnreachable` | internal/adminauth/limiter.go:86-90 | with room for 20 sources nobody is refused for capacity |
| `Limiter.SourceRetryExact` | internal/adminauth/limiter.go:34-43 | a source-limited caller is refused at every instant before RetryAfter and admitted at it |
| `Limiter.GlobalRetryExact` | internal/adminauth/limiter.go:34-43 | the global limit holds until RetryAfter and no longer |
| `Limiter.CapacityRetryExact` | internal/adminauth/limiter.go:102-117 | a caller refused for capacity stays refused until RetryAfter; at it there is room if and only if some source made all its recent attempts at the oldest instant |
| `Limiter.CapacityRetryTooEarly` | internal/adminauth/limiter.go:102-117 | an input that is refused again at the advertised instant |
| `Limiter.Prune` | internal/adminauth/limiter.go:22-32 | the loop drops the old prefix |
| `Limiter.DropIsRecent` | internal/adminauth/limiter.go:22-32 | on a history in order that is the recent history |
| `Limiter.PruneAll` | internal/adminauth/limiter.go:77-82 | every queue is pruned and the empty ones deleted |
| `Limiter.LoginLimiter.constructor` | internal/adminauth/limiter.go:62 | starts with no history |
| `Limiter.NewLoginLimiter` | internal/adminauth/limiter.go:55-63 | a limiter exactly for source bounds from 0 to 1,000,000, where 0 stands for 4096 |
| `Limiter.LoginLimiter.CapacityRetryAfter` | internal/adminauth/limiter.go:102-117 | the smallest queue head is the head of the global queue |
| `Limiter.LoginLimiter.Check` | internal/adminauth/limiter.go:83-96 | the refusals in their order are what the history demands |
| `Limiter.LoginLimiter.Allow` | internal/adminauth/limiter.go:67-100 | the answer is a function of the whole history of admissions, admits exactly below the limits of the last minute, and only an admission is recorded |
| `Sessions.StoreAgreesWithManager` | internal/adminauth/session.go:376-386 | on valid records the store's and the manager's notion of active agree |
| `Sessions.LoginAccepted` | internal/adminauth/session.go:153-160 | an issued login is one the store takes exactly until it would be idle for thirty minutes, and expires after eight hours |
| `Sessions.ReplacementsAccepted` | internal/adminauth/session.go:268-359 | issued replacements are ones the store takes; a privilege rotation keeps the authentication instant exactly, a step-up sets it to the creation |
| `Sessions.InvKept` | internal/adminstore/postgres.go:134-340 | every transaction, also one that submits a stored identifier again, keeps rows valid, tokens unique, parents present and revoked, one child each, and the authentication rule |
| `SessionTheorems.Reached` | internal/adminstore/postgres.go:134-340 | so does every run from the empty table |
| `SessionTheorems.LineageHasLogin` | internal/adminstore/record.go:53-74 | every session descends from a login |
| `SessionTheorems.OneLivePerLineage` | internal/adminstore/postgres.go:248-312 | a login lineage has at most one session that is not revoked |
| `SessionTheorems.AuthenticationFollowsLineage` | internal/adminstore/record.go:70-74 | the authentication instant is the creation of the latest login or step-up of the lineage |
| `SessionTheorems.StepUpNotPostponed` | internal/adminauth/session.go:258-309 | over every run in which neither a live session nor a descendant of it steps up, whatever others do, all its successors need a step-up exactly from fifteen minutes after its authentication |
| `SessionTheorems.TouchedUntil` | internal/adminauth/session.go:376-386 | a touched session is active exactly from then until it expires or idles for thirty minutes |
| `SessionTheorems.MutationsMean` | internal/adminstore/sql.go:60-97 | touch and revoke by the exact record change that one field of that one row, any other record changes nothing, and a revoked row is active at no instant |
| `SessionTheorems.RevokedForever` | internal/adminstore/postgres.go:134-340 | over every run a revoked session keeps its row while it is stored and is never active again |
| `SessionTheorems.ReplayNeverRegained` | internal/adminstore/postgres.go:78-129 | over every run, eligibility for replay once lost never returns, and it ends five minutes after revocation |
| `SessionTheorems.RotationOpensReplay` | internal/adminstore/postgres.go:113-129 | exactly when a rotation leaves the old session eligible |
| `SessionTheorems.SomeReplay` | internal/adminstore/postgres.go:78-312 | a concrete login and rotation leave a session eligible for replay |
| `SessionStore.Store.constructor` | internal/adminstore/postgres.go:30-35 | an empty table |
| `SessionStore.Store.InsertRow` | db/migrations/000002_core_schema.up.sql:764-780 | refused by the primary key, the unique token digest or the parent reference |
| `SessionStore.Store.LockExact` | internal/adminstore/postgres.go:189-216 | succeeds exactly on the exact, live, current record; unavailable exactly when the database clock is unusable |
| `SessionStore.Store.InsertLogin` | internal/adminstore/postgres.go:134-175 | the row is stored exactly when it is a valid login at both clock readings and nothing clashes; otherwise nothing changes |
| `SessionStore.Store.Touch` | internal/adminstore/postgres.go:179-246 | by the stored active record, and only by it, the row gets the new last-seen instant; nothing else changes |
| `SessionStore.Store.Revoke` | internal/adminstore/postgres.go:185-246 | by the stored active record, and only by it, the row is revoked at the clock; nothing else changes |
| `SessionStore.Store.Rotate` | internal/adminstore/postgres.go:248-312 | the old row is revoked and the new one stored exactly when both are acceptable and nothing clashes; otherwise neither changes |
| `SessionStore.Store.DeleteExpired` | internal/adminstore/postgres.go:316-340 | removes at most the limit, only free expired rows nothing refers to, and all of them when fewer than the limit; no other row |
| `Reconciler.ReasonMeans` | internal/authbinding/reconciler.go:297-327 | no reason exactly when all five dimensions agree; otherwise the first that differs |
| `Reconciler.ByTraceMeans` | internal/authbinding/sql.go:40-62 | the lookup by trace finds a row exactly when one trusted row alone carries it |
| `Reconciler.MisroutedMeans` | internal/authbinding/reconciler.go:248-264 | the second lookup contradicts the request exactly when that row agrees in all but the request |
| `Reconciler.ReconcileOne` | internal/authbinding/reconciler.go:217-264 | neither rejection error can happen; in every case what becomes of the row: verified, contradicted by the first difference, misrouted, expired, or still pending |
| `Reconciler.Database.Reconcile` | internal/authbinding/reconciler.go:80-143 | every locked row gets exactly that decision, the others stay, and the counters are exact |
| `Reconciler.DecidedStays` | internal/authbinding/sql.go:64-109 | over every run, new events arriving between transactions, a decided row never changes again |
| `Reconciler.DecisionsAreJustified` | internal/authbinding/sql.go:64-109 | over every run, new events arriving between transactions, a row decided on the way was decided once, as it was ingested, on Gateway rows that justify it, a verified one in time |
| `Reconciler.PendingDrains` | internal/authbinding/reconciler.go:80-143 | once all deadlines passed and nothing new arrives, k runs clear k times the limit |
| `Json.PrintSplit` | internal/demohistory/json.go:206-266 | printed trees split uniquely in front of any continuation |
| `Json.PrintInjective` | internal/demohistory/json.go:206-266 | the printer is injective on value trees |
| `Encoding.QuoteReadsBack` | internal/demohistory/json.go:206-266 | an independent reader of JSON strings reads a quoted string back and stops behind it |
| `JsonReader.PrintReadsBack` | internal/demohistory/json.go:206-266 | an independent reader of compact JSON reads every printed value back |
| `DemoHistory.ConsumeStrict` | internal/demohistory/json.go:31-97 | the recursive loops over the token stream compute `Consume` |
| `DemoHistory.ValidateStrict` | internal/demohistory/json.go:15-29 | accepts a stream if and only if it is the stream of a strict object |
| `DemoHistory.CheckIsStrict` | internal/demohistory/json.go:31-97 | on the stream of a document the check succeeds exactly when the tree is shallow, has canonical numbers and no repeated key |
| `DemoHistory.CanonicalNumberMeans` | internal/demohistory/json.go:31-97 | a number passes exactly when it is the plain decimal of an integer below 2^53 |
| `DemoHistory.AcceptedIsDocument` | internal/demohistory/json.go:31-97 | whatever the check consumes is the stream of a strict document, rebuilt from it |
| `DemoHistory.AcceptedHasCanon` | internal/demohistory/json.go:15-266 | every accepted document is canonicalised without error |
| `DemoHistory.NoMemberLost` | internal/demohistory/json.go:240-260 | one member per field with the field's value, in increasing key order |
| `DemoHistory.OrderFree` | internal/demohistory/json.go:240-260 | documents that differ in member order only have the same canonical form |
| `DemoHistory.CanonStaysStrict` | internal/demohistory/json.go:31-266 | the canonical form of a strict document passes the check again |
| `DemoHistory.TextInjective` | internal/demohistory/json.go:206-266 | a compact text is the text of one strict document at most |
| `DemoHistory.CanonIsFixed` | internal/demohistory/json.go:189-204 | a canonical value is its own canonical form, strict or not |
| `DemoHistory.CanonicalTwice` | internal/demohistory/json.go:189-204 | the canonical text of a strict document is again the text of a strict document, and every strict document with that text has the same canonical form |
| `DemoHistory.TextDecides` | internal/demohistory/json.go:189-266 | equal canonical text if and only if equal canonical value |
| `DemoHistory.AppendCanonical` | internal/demohistory/json.go:206-266 | the buffer receives exactly the printed value |
| `DemoHistory.AppendItems` | internal/demohistory/json.go:229-239 | the array loop appends the printed array |
| `DemoHistory.AppendMembers` | internal/demohistory/json.go:246-260 | the member loop appends the printed object |
| `Metrics.KeyInjective` | internal/controlmetrics/store.go:84-86 | NUL-joined keys of NUL-free fields determine the fields |
| `Metrics.ContractSampleCount` | internal/controlmetrics/store.go:185-199 | the loop counts the contract product |
| `Metrics.ProductIsAllowed` | internal/controlmetrics/store.go:201-225 | a sample's labels are valid exactly when they are in the product |
| `Metrics.CountingSuffices` | internal/controlmetrics/store.go:163-183 | distinct, valid and as many as the product if and only if complete |
| `Metrics.ValidateCompleteSamples` | internal/controlmetrics/store.go:163-183 | accepted exactly when complete and within the cap, then only reordered |
| `Metrics.FamiliesContiguous` | internal/controlmetrics/handler.go:64-69 | key order keeps the samples of a family together |
| `Metrics.OneHeader` | internal/controlmetrics/handler.go:82-86 | each family has its header exactly once |
| `Metrics.RowsAreSamples` | internal/controlmetrics/handler.go:73-99 | the rows between the headers are the samples, in order |
| `Metrics.ValidIsAdmissible` | internal/controlmetrics/store.go:201-225 | valid exactly when every value is finite and nonnegative and every label combination is in the contract |
| `Metrics.RenderOrdered` | internal/controlmetrics/handler.go:73-99 | the loop refuses exactly invalid or repeated samples and writes the lines |
| `Metrics.Render` | internal/controlmetrics/handler.go:64-101 | refused exactly when empty, too long, not admissible or repeated; otherwise the rows are the samples in key order, each under the one header of its family |
| `Budget.RoundedMicroUSDCost` | internal/ai/budget_postgres.go:172-190 | the loop computes the rounded cost, errors included |
| `Budget.CostMeans` | internal/ai/budget_postgres.go:172-190 | a cost exists exactly for nonnegative units at positive rates that come to something within 64 bits, and is the least whole number of millionths that covers them |
| `Budget.ChargeMeans` | internal/ai/budget_postgres.go:125-148 | trusted usage in bounds is charged at its own cost, anything else in full, which is an error unless asked for |
| `Budget.ChargeWithinReservation` | internal/ai/budget_postgres.go:125-148 | for all positive rates and usage in bounds the charge is positive and at most the reservation |
| `Budget.ReservationIsTight` | internal/ai/budget_postgres.go:83-89 | some usage in bounds costs the whole reservation |
| `Budget.GuardUnreachable` | internal/ai/budget_postgres.go:143-145 | the over-charge guard never fires |
| `Budget.Client.Reserve` | internal/ai/budget_postgres.go:77-117 | grants the worst case unless it exceeds the limit or the ledger refuses |
| `Budget.Client.Settle` | internal/ai/budget_postgres.go:125-153 | exactly one charge, in full when the usage cannot be trusted |
| `Budget.Client.Attempt` | internal/ai/client.go:154-242 | on each of the eight ways out after a grant the reservation is settled once and nothing else is; what a settled response answers; a failure is charged in full unless a parsed reply could not be settled |
| `Budget.Client.Analyze` | internal/ai/client.go:119-152 | at most the allowed attempts, all settled, charged at most attempts times the worst case; a retry exactly after a settled retryable status and an undisturbed wait |

## Left out

- HTTP handlers, routing, cookies, headers, the web frontend and configuration loading: plumbing with little state.
- HMAC, Argon2, Ed25519, base64 and random sources, and the text of errors beyond their code.
- JSON Schema matching, the stub analyzer and compact-input building: wide field checks with little depth.
- Field checks of auth events and health records before they reach the sender; a record here is always well formed.
- The sender's backoff times, request signing, acknowledgement decoding and checkpoint file: an attempt has an outcome, and a checkpoint write succeeds or fails.
- The sequence number and digest of the last acknowledgement kept in the checkpoint.
- The truncation of the incident identifier to sixteen bytes of a digest: the model keeps the whole preimage, so it does not speak of collisions.
- Overflow of the 64-bit version and revision counters of an incident.
- Byte order of UTF-8 strings: sorting compares code points, which gives the same order.
- The decision limiter: the login limiter without its global queue, so it would repeat the same lemmas.
- Pointers to limiter queues: a queue is a value in the map, so sharing between map entries is not expressed.
- Loading a single session, and token comparison in the session manager: a lookup and a check of one record.
- The order in which expired sessions are deleted, and the retention job and the privileged rotation function of later migrations, which change the same table under other rules.
- Rows locked by other transactions appear only as rows that are skipped.
- Concurrent growth of the session table inside one transaction other than through the unique constraints.
- Removal of auth events by the retention job: a row once ingested stays in the reconciler's table.
- The order of pending bindings by deadline: any batch of free rows is allowed, which includes the ordered one.
- PostgreSQL functions whose bodies the Go code does not show (budget ledger, metrics aggregate): only what the caller checks is used.
- The float conversions of rates and limits (`MicroUSDPerMillion`, `DailyLimitMicroUSD`) and the number format of rendered samples.
- Go's JSON tokenizer: a document is given by its token stream; invalid text never yields one. The readers of `Encoding` and `JsonReader` are references for the printer, not models of it: no white space, no surrogate pairs.
- The text of rendered metric lines: a line is a header, a sample or the end.
- RestoreHealth: only ever called on an empty accumulator here, because the block it belongs to is one step.
- SeparationExactlyWhenRoomy: exact where fitting depends on the number of records; for sizes that depend on the contents only the sufficient condition is proved (`CoverageAvoidsLoss`).
- AuthSender: event queue, pending list and flight are values of one object; the goroutine that runs the worker and its locks appear as the atomicity of steps.
