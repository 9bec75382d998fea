/** The promises of the incident aggregate: idempotent replay, unreachable guards, bounded analysis,
    and an incremental history that equals the batch correlation. */
module IncidentTheorems {
  import opened Prelude
  import opened Order
  import opened Encoding
  import opened Signals
  import opened Components
  import opened Relations
  import opened Snapshot
  import opened Correlate
  import opened Incident
  import opened IncidentRuns
  import Budget

  // ---- fingerprints identify commands ----

  /** For well-formed signals the payload determines signal ID and digest. */
  lemma PayloadInjective(s: Signal, t: Signal)
    requires |s.id| == |t.id| && RoutePayload(s) == RoutePayload(t)
    ensures s.id == t.id && s.digest == t.digest
  {
    var n := |s.id|;
    assert RoutePayload(s)[..n] == s.id && RoutePayload(t)[..n] == t.id;
    assert RoutePayload(s)[n + 1..] == s.digest && RoutePayload(t)[n + 1..] == t.digest;
  }

  lemma KindLengths(op: Op)
    ensures |Kind(op)| ==
      if op.Begin? then 14 else if op.Complete? then 17 else if op.Fail? then 13 else if op.Close? then 10 else 12
  {
  }

  /** Equal fingerprints: equal commands, except that two routed signals need only agree on ID and digest. */
  lemma FingerprintDecides(a: Op, b: Op)
    requires Fingerprint(a) == Fingerprint(b)
    ensures a.command == b.command && a.Route? == b.Route?
    ensures !a.Route? ==> a == b
    ensures a.Route? ==> RoutePayload(a.signal) == RoutePayload(b.signal)
  {
    FingerprintInjective(Kind(a), a.command, Payload(a), Kind(b), b.command, Payload(b));
    KindLengths(a);
    KindLengths(b);
  }

  // ---- guards that cannot fire ----

  /** A routed signal that is not yet held never meets its own command in the log: the replay guard
      after `prepareCommand` in `RouteSignal` is unreachable. */
  lemma ReplayGuardUnreachable(i: Incident, c: Command, s: Signal)
    requires Inv(i) && ValidSignal(s) && Lookup(i.signals, s.id).None?
    ensures var r := PrepareCommand(i, c, "route_signal", RoutePayload(s));
      r.Err? || r.value.Fresh?
  {
    hide Inv, ValidSignal, Lookup, DigestShaped, CommandFingerprint, FindRecord;
    var r := PrepareCommand(i, c, "route_signal", RoutePayload(s));
    if r.Ok? && r.value.Seen? {
      SeenSignalHeld(i, c, s, r.value.record);
    }
  }

  lemma SeenSignalHeld(i: Incident, c: Command, s: Signal, record: CommandRecord)
    requires Inv(i) && ValidSignal(s)
    requires record in i.commands && record.fingerprint == Fingerprint(Route(c, s))
    ensures exists t | t in i.signals :: t.id == s.id && t.digest == s.digest
    ensures Lookup(i.signals, s.id).Some?
  {
    hide BuildSnapshot, CommandFingerprint, DigestShaped, CanonicalIPv4, ValidEvidence;
    assert HasOrigin(record, i.signals);
    var op :| Explains(op, record, i.signals);
    FingerprintDecides(op, Route(c, s));
    assert op.signal in i.signals;
    assert ValidSignal(op.signal);
    PayloadInjective(op.signal, s);
  }

  /** A closed incident accepts no command from before its closing: the closed-time guard is unreachable. */
  lemma ClosedTimeGuardUnreachable(i: Incident, c: Command, kind: string, payload: string)
    requires Inv(i) && i.state == Closed
    requires PrepareCommand(i, c, kind, payload).Ok? && PrepareCommand(i, c, kind, payload).value.Fresh?
    ensures i.closedAt <= c.at
  {
    hide DigestShaped, CommandFingerprint, FindRecord, Counted, Budgeted, Evident, Explained;
  }

  // ---- when a command takes effect ----

  /** The condition of each transition on the incident and the time. */
  ghost predicate Allowed(i: Incident, op: Op) {
    match op
    case Begin(_) =>
      i.analysisAttempts < 2
      && (i.state == Open
          || (i.state == AnalysisFailed
              && i.failureReason in {"network_error", "http_408", "http_409", "rate_limited", "server_error"}))
    case Complete(_) => i.state == Analyzing
    case Fail(_, reason) =>
      i.state == Analyzing
      && reason in {"network_error", "http_408", "http_409", "rate_limited", "server_error", "budget_exhausted",
                    "input_too_large", "timeout", "refused", "incomplete", "schema_invalid", "evidence_invalid",
                    "unsupported_action", "cancelled", "configuration_error"}
    case Close(c) => i.state != Closed && i.state != Analyzing && i.lastSignalAt + 15 * MINUTE <= c.at
    case Route(_, _) => false
  }

  lemma RetryMeans(i: Incident)
    ensures CanRetryAnalysis(i) <==>
      i.state == AnalysisFailed && i.analysisAttempts < 2
      && i.failureReason in {"network_error", "http_408", "http_409", "rate_limited", "server_error"}
  {
  }

  lemma KnownReasons(reason: string)
    ensures ClassifyAnalysisFailure(reason).Ok? <==>
      reason in {"network_error", "http_408", "http_409", "rate_limited", "server_error", "budget_exhausted",
                 "input_too_large", "timeout", "refused", "incomplete", "schema_invalid", "evidence_invalid",
                 "unsupported_action", "cancelled", "configuration_error"}
  {
  }

  /** A command that is new, current and in time takes effect exactly when its condition holds, answering with the
      next revision; otherwise it is refused and nothing changes. */
  lemma TransitionAnswers(i: Incident, op: Op)
    requires Ready(i, op) && !op.Route?
    ensures Allowed(i, op) ==>
      Step(i, op) != i && Apply(i, op) == Ok((Step(i, op), Transitioned(Applied(i.revision + 1, i.revision + 1))))
    ensures !Allowed(i, op) ==> Apply(i, op).Err? && Step(i, op) == i
  {
    hide CommandFingerprint, DigestShaped, ClassifyAnalysisFailure, CanRetryAnalysis;
    RetryMeans(i);
    if op.Fail? { KnownReasons(op.reason); }
  }

  /** A new command is refused when it names another revision, and otherwise when it comes before the last update. */
  lemma NotReadyRefused(i: Incident, op: Op)
    requires !op.Route? && DigestShaped(op.command.id) && op.command.at != 0
    requires FindRecord(i.commands, op.command.id).None? && !Ready(i, op)
    requires op.Fail? ==> ClassifyAnalysisFailure(op.reason).Ok?
    ensures Apply(i, op) == Err(if op.command.expectedRevision != i.revision then StaleRevision else TimeRegression)
  {
    hide CommandFingerprint, DigestShaped, ClassifyAnalysisFailure, CanRetryAnalysis;
  }

  /** A failed call is retried within an analysis exactly when its reason lets the analysis be retried later. */
  lemma RetriesAgree(status: int)
    ensures ClassifyAnalysisFailure(Budget.StatusReason(status)) ==
      Ok(if Budget.Retryable(status) then RetryOnceWithBoundedJitter else RetryTerminal)
  {
  }

  /** An incident opened on one signal. */
  ghost predicate OpenedOn(created: Incident, s: Signal, at: int) {
    && Inv(created) && created.signals == [s] && created.relations == [] && created.commands == []
    && created.state == Open && created.revision == 1 && created.analysisAttempts == 0
    && created.createdAt == at && created.updatedAt == at && created.lastSignalAt == s.end
    && created.snapshot.source == s.source
  }

  lemma AwayOpens(i: Incident, c: Command, s: Signal)
    requires ValidSignal(s) && c.at != 0 && s.end <= c.at
    ensures var r := RouteToNewIncident(i, c, s);
      r.Ok? && r.value.NewIncidentRouted? && r.value.current == i && OpenedOn(r.value.created, s, c.at)
  {
    hide ValidRule, ValidEvidence, BuildSnapshot, BuildRelations, Inv, SignalLess;
    assert ValidWindow(s) && Segment([s]) && Acceptable([s]);
    SegmentGroup([s]);
    var g := BuildGroup([s]).value;
    assert g.end == s.end;
    NewIncidentInv(g, c.at);
    NoRelations(s);
    assert g.relations == BuildRelations([s]) && g.source == s.source by { GroupOfOne(s); }
  }

  lemma NoRelations(s: Signal)
    ensures BuildRelations([s]) == []
  {
    assert AllPairs([s]) == Row(s, []) + AllPairs([]) by { assert [s][1..] == []; }
  }

  lemma GroupOfOne(s: Signal)
    requires BuildGroup([s]).Ok? && ValidSignal(s)
    ensures BuildGroup([s]).value.relations == BuildRelations([s]) && BuildGroup([s]).value.source == s.source
    ensures BuildGroup([s]).value.snapshot.source == s.source
  {
    hide BuildRelations, ValidSignal, SignalLess, BuildSnapshot;
    assert Acceptable([s]) && OneSource([s]);
    SnapshotSucceeds([s]);
    SignalLessOrder();
    SortFixed(SignalLess, [s]);
  }

  lemma AppendSucceeds(i: Incident, c: Command, f: string, s: Signal, reopening: bool)
    requires Evident(i) && ValidSignal(s) && Lookup(i.signals, s.id).None? && s.source == i.snapshot.source
    ensures var r := AppendSignal(i, c, f, s, reopening);
      && r.Ok? && r.value.Reopened? == reopening && r.value.Appended? == !reopening
      && SameElements(r.value.current.signals, i.signals + [s]) && r.value.current.revision == i.revision + 1
      && r.value.current.state == Open
  {
    hide ValidSignal, BuildSnapshot, GrownRelations, Lookup, SignalLess, Sort;
    SortedGrowth(i.signals, s);
    SnapshotSource(Sort(SignalLess, i.signals + [s]));
  }

  /** What becomes of a valid signal that the incident does not hold: appended when it is of the same source and
      joined to a signal of an incident that is not closed, reopening within thirty minutes of the closing,
      and otherwise the start of an incident of its own. */
  lemma RouteAnswers(i: Incident, c: Command, s: Signal)
    requires Inv(i) && Ready(i, Route(c, s)) && ValidSignal(s) && Lookup(i.signals, s.id).None? && s.end <= c.at
    ensures Apply(i, Route(c, s)).Ok?
    ensures var next, reply, same := Apply(i, Route(c, s)).value.0, Apply(i, Route(c, s)).value.1,
        s.source == i.snapshot.source;
      && (reply == WasAppended <==> same && i.state != Closed && JoinedTo(i.signals, s))
      && (reply == WasReopened <==> same && i.state == Closed && c.at <= i.closedAt + 30 * MINUTE)
      && (reply == WasAppended || reply == WasReopened ==>
            next.state == Open && next.revision == i.revision + 1 && SameElements(next.signals, i.signals + [s]))
      && (reply != WasAppended && reply != WasReopened ==>
            next == i && reply.WasRoutedAway? && OpenedOn(reply.created, s, c.at))
  {
    hide ValidSignal, CommandFingerprint, DigestShaped, FindRecord, Lookup, AppendSignal, RouteToNewIncident,
      RelatedToAny, Evident, Counted, Budgeted, Explained, OpenedOn, Edge, Normalize;
    OneNormal(s);
    AwayOpens(i, c, s);
    if s.source == i.snapshot.source {
      RelatedIsJoined(i, s);
      AppendSucceeds(i, c, Fingerprint(Route(c, s)), s, i.state == Closed);
    }
  }

  lemma RelatedIsJoined(i: Incident, s: Signal)
    requires Evident(i) && ValidSignal(s) && s.source == i.snapshot.source
    ensures RelatedToAny(i.signals, s) <==> JoinedTo(i.signals, s)
  {
    hide Evident, RelatedToAny, Edge, ValidSignal;
    RelatedIsEdge(i, s);
  }

  // ---- idempotent replay ----

  lemma {:induction false} CommandsOnlyGrow(i: Incident, ops: seq<Op>)
    ensures i.commands <= Run(i, ops).commands
    decreases ops
  {
    hide Step, Changed, Ready, Fingerprint;
    if ops != [] {
      StepCases(i, ops[0]);
      CommandsOnlyGrow(Step(i, ops[0]), ops[1..]);
    }
  }

  lemma {:induction false} FindUnique(commands: seq<CommandRecord>, k: nat)
    requires UniqueCommands(commands) && k < |commands|
    ensures FindRecord(commands, commands[k].id) == Some(commands[k])
  {
    if k > 0 { FindUnique(commands[1..], k - 1); }
  }

  lemma {:induction false} LookupUnique(signals: seq<Signal>, s: Signal)
    requires UniqueIDs(signals) && s in signals
    ensures Lookup(signals, s.id) == Some(s)
  {
    if signals[0] != s {
      assert s in signals[1..];
      LookupUnique(signals[1..], s);
    }
  }

  /** What later states remember of a command that took effect. */
  ghost predicate Remembers(k: Incident, op: Op, revision: nat) {
    FindRecord(k.commands, op.command.id) == Some(CommandRecord(op.command.id, Fingerprint(op), revision))
    && DigestShaped(op.command.id) && op.command.at != 0
    && (op.Fail? ==> ClassifyAnalysisFailure(op.reason).Ok?)
    && (op.Route? ==> ValidSignal(op.signal) && op.signal.end <= op.command.at && op.signal in k.signals)
  }

  /** A command that took effect is remembered after any number of later steps. */
  lemma RunRemembers(i: Incident, op: Op, ops: seq<Op>)
    requires Inv(i) && Step(i, op) != i
    ensures Inv(Run(Step(i, op), ops))
    ensures Remembers(Run(Step(i, op), ops), op, Step(i, op).revision)
  {
    hide Step, Timed, Budgeted, Explained, BuildSnapshot, BuildRelations, RelatedToAny, ValidSignal, DigestShaped,
      ClassifyAnalysisFailure, CommandFingerprint, Sort;
    StepCases(i, op);
    StepKeepsInv(i, op);
    var j := Step(i, op);
    RunKeepsInv(j, ops);
    CommandsOnlyGrow(j, ops);
    var k := Run(j, ops);
    var n := |i.commands|;
    assert j.commands[n] == CommandRecord(op.command.id, Fingerprint(op), j.revision);
    assert k.commands[n] == j.commands[n];
    FindUnique(k.commands, n);
    if op.Route? {
      EvidentKept(i, op, j);
      assert op.signal in i.signals + [op.signal];
    }
  }

  /** Resubmitting a remembered command changes nothing and reports its original revision. */
  lemma RememberedReplays(k: Incident, op: Op, revision: nat)
    requires Inv(k) && Remembers(k, op, revision)
    ensures Apply(k, op) ==
      Ok((k, if op.Route? then WasDuplicate else Transitioned(IdempotentDuplicate(revision, k.revision))))
  {
    hide FindRecord, CommandFingerprint, BuildSnapshot, ValidSignal, DigestShaped, ClassifyAnalysisFailure, Lookup,
      AppendSignal, RouteToNewIncident, RelatedToAny, Counted, Timed, Budgeted, Explained;
    if op.Route? {
      LookupUnique(k.signals, op.signal);
      OneNormal(op.signal);
    }
  }

  /** Replay, over whole runs: after any later steps the same command is a no-op with its first answer. */
  lemma ReplayIsIdempotent(i: Incident, op: Op, ops: seq<Op>)
    requires Inv(i) && Step(i, op) != i
    ensures var k, revision := Run(Step(i, op), ops), Step(i, op).revision;
      Apply(k, op) ==
        Ok((k, if op.Route? then WasDuplicate else Transitioned(IdempotentDuplicate(revision, k.revision))))
  {
    hide Step, Inv, Remembers, Apply;
    RunRemembers(i, op, ops);
    RememberedReplays(Run(Step(i, op), ops), op, Step(i, op).revision);
  }

  /** A different transition under a remembered ID is refused. */
  lemma OtherTransitionRefused(k: Incident, op: Op, revision: nat, other: Op)
    requires Remembers(k, op, revision) && other.command.id == op.command.id && other != op && !other.Route?
    ensures Apply(k, other).Err?
  {
    hide FindRecord, CommandFingerprint, DigestShaped, ClassifyAnalysisFailure, ValidSignal;
    if Fingerprint(other) == Fingerprint(op) { FingerprintDecides(other, op); }
  }

  /** A different routed signal under a remembered ID is refused. */
  lemma OtherRouteRefused(k: Incident, op: Op, revision: nat, other: Op)
    requires Inv(k) && Remembers(k, op, revision) && other.command.id == op.command.id && other != op && other.Route?
    ensures Apply(k, other).Err?
  {
    hide FindRecord, CommandFingerprint, BuildSnapshot, DigestShaped, AppendSignal, RouteToNewIncident, RelatedToAny,
      Counted, Timed, Budgeted, Explained, ValidSignal, Lookup;
    var s := other.signal;
    if ValidSignal(s) {
      if Lookup(k.signals, s.id).None? { ReplayGuardUnreachable(k, other.command, s); }
      if Fingerprint(other) == Fingerprint(op) {
        FingerprintDecides(other, op);
        ValidIDLength(s);
        ValidIDLength(op.signal);
        PayloadInjective(s, op.signal);
        LookupUnique(k.signals, op.signal);
      }
    }
  }

  lemma ValidIDLength(s: Signal)
    requires ValidSignal(s)
    ensures |s.id| == 36
  {
  }

  /** Over whole runs: a different command under a used ID is always refused, so it never changes anything. */
  lemma UsedIDIsReserved(i: Incident, op: Op, ops: seq<Op>, other: Op)
    requires Inv(i) && Step(i, op) != i
    requires other.command.id == op.command.id && other != op
    ensures Apply(Run(Step(i, op), ops), other).Err?
  {
    hide Step, Inv, Remembers, Apply;
    RunRemembers(i, op, ops);
    var k := Run(Step(i, op), ops);
    if other.Route? {
      OtherRouteRefused(k, op, Step(i, op).revision, other);
    } else {
      OtherTransitionRefused(k, op, Step(i, op).revision, other);
    }
  }

  // ---- bounded analysis ----

  /** How many commands of a run start an analysis. */
  ghost function Begun(i: Incident, ops: seq<Op>): (n: nat)
    decreases ops
  {
    if ops == [] then 0
    else (if ops[0].Begin? && Step(i, ops[0]) != i then 1 else 0) + Begun(Step(i, ops[0]), ops[1..])
  }

  lemma AttemptsStep(i: Incident, op: Op)
    ensures Step(i, op).analysisAttempts == i.analysisAttempts + if op.Begin? && Step(i, op) != i then 1 else 0
  {
    hide Step, Recorded, BuildSnapshot, BuildRelations, ValidSignal, RelatedToAny, ClassifyAnalysisFailure;
    StepCases(i, op);
  }

  lemma {:induction false} AttemptsCount(i: Incident, ops: seq<Op>)
    ensures Run(i, ops).analysisAttempts == i.analysisAttempts + Begun(i, ops)
    decreases ops
  {
    hide Step;
    if ops != [] {
      AttemptsStep(i, ops[0]);
      AttemptsCount(Step(i, ops[0]), ops[1..]);
    }
  }

  /** Appending and reopening never refill the budget: an incident is analysed at most twice in its life. */
  lemma AnalysisBounded(i: Incident, ops: seq<Op>)
    requires Inv(i)
    ensures i.analysisAttempts + Begun(i, ops) <= MAXIMUM_ANALYSIS_ATTEMPTS
  {
    hide Step, Counted, Timed, Evident, Explained;
    AttemptsCount(i, ops);
    RunKeepsInv(i, ops);
  }

  // ---- incremental equals batch ----

  /** The signals form one component and the relations are exactly theirs. */
  ghost predicate Joined(i: Incident) {
    Connected(Elements(i.signals)) && i.relations == BuildRelations(i.signals)
  }

  ghost predicate Reopens(i: Incident, op: Op) { op.Route? && i.state == Closed && Step(i, op) != i }

  ghost predicate NeverReopened(i: Incident, ops: seq<Op>)
    decreases ops
  {
    ops == [] || (!Reopens(i, ops[0]) && NeverReopened(Step(i, ops[0]), ops[1..]))
  }

  lemma RelatedIsEdge(i: Incident, s: Signal)
    requires Evident(i) && ValidSignal(s) && s.source == i.snapshot.source
    ensures RelatedToAny(i.signals, s) <==> exists x :: x in i.signals && Edge(x, s)
  {
    hide BuildSnapshot, Edge, TemporalRelation;
    forall k | 0 <= k < |i.signals| ensures TemporalRelation(i.signals[k], s).Some? <==> Edge(i.signals[k], s) {
      TemporalRelationIsEdge(i.signals[k], s);
    }
    if RelatedToAny(i.signals, s) {
      var k :| 0 <= k < |i.signals| && TemporalRelation(i.signals[k], s).Some?;
      assert i.signals[k] in i.signals && Edge(i.signals[k], s);
    }
  }

  lemma JoinedKept(i: Incident, op: Op)
    requires Inv(i) && Joined(i) && !Reopens(i, op)
    ensures Joined(Step(i, op))
  {
    hide Step, BuildSnapshot, BuildRelations, Edge, ValidSignal, Recorded, RelatedToAny, ClassifyAnalysisFailure,
      Connected, Counted, Timed, Budgeted, Explained, Sort, Lookup, SignalLess, TemporalRelation;
    StepCases(i, op);
    var j := Step(i, op);
    if j != i && op.Route? {
      RelatedIsEdge(i, op.signal);
      var hub :| hub in i.signals && Edge(hub, op.signal);
      EvidentKept(i, op, j);
      assert Elements(j.signals) == Elements(i.signals) + {op.signal};
      ConnectedGrows(Elements(i.signals), hub, op.signal);
    }
  }

  lemma {:induction false} RunKeepsJoined(i: Incident, ops: seq<Op>)
    requires Inv(i) && Joined(i) && NeverReopened(i, ops)
    ensures Inv(Run(i, ops)) && Joined(Run(i, ops))
    decreases ops
  {
    hide Step, Inv, Joined, Reopens;
    if ops != [] {
      StepKeepsInv(i, ops[0]);
      JoinedKept(i, ops[0]);
      RunKeepsJoined(Step(i, ops[0]), ops[1..]);
    }
  }

  /** A correlation of one group holds the signals of the incident, its snapshot, and their relations. */
  lemma OneGroupIsIncident(i: Incident, groups: seq<Group>)
    requires Evident(i) && IsCorrelation(i.signals, groups) && |groups| == 1
    ensures groups[0].signals == i.signals && groups[0].snapshot == i.snapshot
    ensures groups[0].relations == BuildRelations(i.signals)
  {
    hide Connected, AreComponents, BuildSnapshot, BuildRelations, ValidSignal, SignalLess;
    ConnectedOneGroup(i.signals, groups);
    SignalLessOrder();
    IncreasingUnique(SignalLess, groups[0].signals, i.signals);
    SortFixed(SignalLess, i.signals);
  }

  /** One component in sweep order: its correlation is that one group, built from the same evidence. */
  lemma JoinedCorrelates(i: Incident, groups: seq<Group>)
    requires Evident(i) && Joined(i) && IsCorrelation(i.signals, groups)
    ensures |groups| == 1 && groups[0].signals == i.signals
    ensures groups[0].snapshot == i.snapshot && groups[0].relations == i.relations
  {
    hide Connected, IsCorrelation, BuildSnapshot, BuildRelations, ValidSignal, SignalLess;
    ConnectedOneGroup(i.signals, groups);
    OneGroupIsIncident(i, groups);
  }

  lemma GenuineJoined(signals: seq<Signal>, groups: seq<Group>, g: nat, at: int)
    requires IsCorrelation(signals, groups) && g < |groups| && NewIncident(groups[g], at).Ok?
    ensures Inv(NewIncident(groups[g], at).value) && Joined(NewIncident(groups[g], at).value)
  {
    hide NewIncident, BuildSnapshot, BuildRelations, ValidSignal, SignalLess, Connected, AreComponents, Inv;
    NewIncidentInv(groups[g], at);
    PartConnected(Elements(signals), Parts(groups), g);
    assert Parts(groups)[g] == groups[g].signals;
    SignalLessOrder();
    SortFixed(SignalLess, groups[g].signals);
  }

  /** An incident opened on a correlated group and grown by any accepted commands, never reopened, holds
      signals that correlate into exactly one group with the same signals, snapshot and relations. */
  lemma IncrementalEqualsBatch(signals: seq<Signal>, groups: seq<Group>, g: nat, at: int, ops: seq<Op>,
      batch: seq<Group>)
    requires IsCorrelation(signals, groups) && g < |groups| && NewIncident(groups[g], at).Ok?
    requires NeverReopened(NewIncident(groups[g], at).value, ops)
    requires IsCorrelation(Run(NewIncident(groups[g], at).value, ops).signals, batch)
    ensures var i := Run(NewIncident(groups[g], at).value, ops);
      |batch| == 1 && batch[0].signals == i.signals && batch[0].snapshot == i.snapshot
        && batch[0].relations == i.relations
  {
    hide NewIncident, Joined, IsCorrelation, Run, Counted, Timed, Budgeted, Explained, Evident;
    GenuineJoined(signals, groups, g, at);
    RunKeepsJoined(NewIncident(groups[g], at).value, ops);
    JoinedCorrelates(Run(NewIncident(groups[g], at).value, ops), batch);
  }

  // ---- reopenings ----

  /** An accepted signal, appended or reopening, leaves one group exactly when it is joined to a member of every
      group there was. A plain append is joined to one of them; a reopening may be joined to none. */
  lemma RouteJoins(i: Incident, op: Op, groups: seq<Group>, batch: seq<Group>)
    requires Inv(i) && op.Route? && Step(i, op) != i
    requires IsCorrelation(i.signals, groups) && IsCorrelation(Step(i, op).signals, batch)
    ensures |batch| == 1 <==> forall k | 0 <= k < |groups| :: JoinedTo(groups[k].signals, op.signal)
    ensures i.state != Closed ==> exists k :: 0 <= k < |groups| && JoinedTo(groups[k].signals, op.signal)
  {
    hide Step, Recorded, Changed, Counted, Timed, Budgeted, Explained, Evident, Connected, AreComponents, Edge,
      BuildGroup, SignalLess, GroupBefore;
    StepCases(i, op);
    var j, s := Step(i, op), op.signal;
    EvidentKept(i, op, j);
    NewSignal(i, op, j);
    var nodes, parts := Elements(i.signals), Parts(groups);
    assert Elements(j.signals) == nodes + {s};
    ConnectedOneGroup(j.signals, batch);
    JoinsAllParts(nodes, parts, s);
    assert forall k | 0 <= k < |groups| :: parts[k] == groups[k].signals;
    if i.state != Closed {
      var x :| x in i.signals && Edge(x, s);
      CorrelationPartitions(i.signals, groups, x);
    }
  }

  lemma NewSignal(i: Incident, op: Op, j: Incident)
    requires Evident(i) && op.Route? && Changed(i, op, j) && SameElements(j.signals, i.signals + [op.signal])
    ensures op.signal !in i.signals && j.signals != []
    ensures i.state != Closed ==> exists x :: x in i.signals && Edge(x, op.signal)
  {
    hide BuildSnapshot, GrownRelations, ValidSignal, Edge, RelatedToAny, Sort;
    assert op.signal in i.signals + [op.signal];
    RelatedIsEdge(i, op.signal);
  }

  /** A reopening ignores the five-minute rule. It keeps the signals one component exactly when the
      new signal is related to one of the old ones; otherwise their correlation splits. */
  lemma ReopenSplits(i: Incident, op: Op, groups: seq<Group>, batch: seq<Group>)
    requires Inv(i) && Reopens(i, op) && IsCorrelation(i.signals, groups) && |groups| == 1
    requires IsCorrelation(Step(i, op).signals, batch)
    ensures |batch| == 1 <==> RelatedToAny(i.signals, op.signal)
  {
    hide Step, Recorded, BuildSnapshot, BuildRelations, ValidSignal, RelatedToAny, Connected, IsCorrelation, Edge,
      Counted, Timed, Budgeted, Explained;
    RouteJoins(i, op, groups, batch);
    StepCases(i, op);
    RelatedIsEdge(i, op.signal);
    OneGroupIsIncident(i, groups);
  }

  // ---- relations over runs ----

  /** After a reopening the pair of the latest old signal and the new one carries the reopening reason alone;
      every other joined pair has its entry, in order, and there is no other entry. */
  lemma ReopenedRelations(i: Incident, op: Op)
    requires Inv(i) && Reopens(i, op)
    ensures var j := Step(i, op);
      var link := MakeRelation(LatestSignal(i.signals), op.signal, ReopenedWithinThirtyMinutes);
      && Increasing(RelationLess, j.relations)
      && forall r :: r in j.relations <==>
           r == link || (Wanted(r, j.signals) && (r.left, r.right) != (link.left, link.right))
  {
    hide Step, Recorded, BuildSnapshot, BuildRelations, ValidSignal, RelatedToAny, ReplacePairRelation, MakeRelation,
      Wanted, Counted, Timed, Budgeted, Explained, Sort, RelationLess, LatestSignal, Lookup;
    StepCases(i, op);
    var j := Step(i, op);
    EvidentKept(i, op, j);
    EvidentWindows(j);
    RelationsExact(j.signals);
    var link := MakeRelation(LatestSignal(i.signals), op.signal, ReopenedWithinThirtyMinutes);
    ReplacePairExact(BuildRelations(j.signals), link);
  }

  lemma EvidentWindows(i: Incident)
    requires Evident(i)
    ensures Windows(i.signals) && UniqueIDs(i.signals)
  {
    hide BuildSnapshot, ValidRule, ValidEvidence;
  }

  /** A reopening reason is never the reason of a rebuilt entry. */
  lemma NeverRebuilt(r: Relation, signals: seq<Signal>)
    requires r.temporal == ReopenedWithinThirtyMinutes
    ensures !Wanted(r, signals)
  {
  }

  /** The relations of a grown incident are those of its signals exactly when it was not reopened: the next plain
      append rebuilds them all. */
  lemma RelationsAfterRoute(i: Incident, op: Op)
    requires Inv(i) && op.Route? && Step(i, op) != i
    ensures Step(i, op).relations == BuildRelations(Step(i, op).signals) <==> i.state != Closed
  {
    hide Step, Recorded, BuildSnapshot, BuildRelations, ValidSignal, RelatedToAny, ReplacePairRelation, MakeRelation,
      Wanted, Counted, Timed, Budgeted, Explained, Sort, RelationLess, LatestSignal, Lookup;
    StepCases(i, op);
    if i.state == Closed {
      var j, link := Step(i, op), MakeRelation(LatestSignal(i.signals), op.signal, ReopenedWithinThirtyMinutes);
      ReopenedRelations(i, op);
      LinkIsReopening(LatestSignal(i.signals), op.signal);
      NeverRebuilt(link, j.signals);
      EvidentKept(i, op, j);
      EvidentWindows(j);
      RelationsExact(j.signals);
    }
  }

  lemma LinkIsReopening(a: Signal, b: Signal)
    ensures MakeRelation(a, b, ReopenedWithinThirtyMinutes).temporal == ReopenedWithinThirtyMinutes
  {
  }

  /** Whether the last signal a run accepted reopened the incident; `before` answers for an idle run. */
  ghost predicate ReopenedLast(i: Incident, ops: seq<Op>, before: bool)
    decreases ops
  {
    if ops == [] then before
    else
      var j := Step(i, ops[0]);
      ReopenedLast(j, ops[1..], if ops[0].Route? && j != i then i.state == Closed else before)
  }

  lemma {:induction false} RelationsOverRuns(i: Incident, ops: seq<Op>, before: bool)
    requires Inv(i) && (i.relations == BuildRelations(i.signals) <==> !before)
    ensures Run(i, ops).relations == BuildRelations(Run(i, ops).signals) <==> !ReopenedLast(i, ops, before)
    decreases ops
  {
    hide Step, Inv, BuildRelations;
    if ops != [] {
      var op := ops[0];
      var j := Step(i, op);
      StepKeepsInv(i, op);
      if op.Route? && j != i {
        RelationsAfterRoute(i, op);
        RelationsOverRuns(j, ops[1..], i.state == Closed);
      } else {
        EvidenceStays(i, op);
        RelationsOverRuns(j, ops[1..], before);
      }
    }
  }

  lemma EvidenceStays(i: Incident, op: Op)
    requires !op.Route? || Step(i, op) == i
    ensures Step(i, op).signals == i.signals && Step(i, op).relations == i.relations
  {
    hide Step, Recorded, Grew, CanRetryAnalysis, ClassifyAnalysisFailure;
    StepCases(i, op);
  }

  /** Every run from a correlated group, reopenings included: wherever the signals correlate into one group, it has
      the signals and the snapshot of the incident, and its relations exactly when no reopening came last. */
  lemma ReopenedEqualsBatch(signals: seq<Signal>, groups: seq<Group>, g: nat, at: int, ops: seq<Op>, batch: seq<Group>)
    requires IsCorrelation(signals, groups) && g < |groups| && NewIncident(groups[g], at).Ok?
    requires IsCorrelation(Run(NewIncident(groups[g], at).value, ops).signals, batch) && |batch| == 1
    ensures var i := Run(NewIncident(groups[g], at).value, ops);
      && batch[0].signals == i.signals && batch[0].snapshot == i.snapshot
      && (batch[0].relations == i.relations <==> !ReopenedLast(NewIncident(groups[g], at).value, ops, false))
  {
    hide NewIncident, IsCorrelation, Run, Counted, Timed, Budgeted, Explained, Evident, Connected, BuildRelations,
      ReopenedLast;
    GenuineJoined(signals, groups, g, at);
    var i := NewIncident(groups[g], at).value;
    RunKeepsInv(i, ops);
    RelationsOverRuns(i, ops, false);
    OneGroupIsIncident(Run(i, ops), batch);
  }
}
