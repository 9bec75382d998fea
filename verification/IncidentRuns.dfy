/** What holds of an incident over every run of commands. */
module IncidentRuns {
  import opened Prelude
  import opened Order
  import opened Encoding
  import opened Signals
  import opened Components
  import opened Relations
  import opened Snapshot
  import opened Correlate
  import opened Incident

  datatype Op =
    | Begin(command: Command)
    | Complete(command: Command)
    | Fail(command: Command, reason: string)
    | Close(command: Command)
    | Route(command: Command, signal: Signal)

  datatype Reply =
    | Transitioned(transition: TransitionResult)
    | WasAppended
    | WasReopened
    | WasRoutedAway(created: Incident)
    | WasDuplicate

  function Kind(op: Op): (r: string) {
    match op
    case Begin(_) => "begin_analysis"
    case Complete(_) => "complete_analysis"
    case Fail(_, _) => "fail_analysis"
    case Close(_) => "close_idle"
    case Route(_, _) => "route_signal"
  }

  function Payload(op: Op): (r: string) {
    match op
    case Fail(_, reason) => reason
    case Route(_, signal) => RoutePayload(signal)
    case _ => ""
  }

  function Fingerprint(op: Op): (r: string) { CommandFingerprint(Kind(op), op.command, Payload(op)) }

  function Routed(r: Result<RouteResult>): (s: Result<(Incident, Reply)>) {
    match r
    case Err(e) => Err(e)
    case Ok(Appended(current)) => Ok((current, WasAppended))
    case Ok(Reopened(current)) => Ok((current, WasReopened))
    case Ok(NewIncidentRouted(current, created)) => Ok((current, WasRoutedAway(created)))
    case Ok(DuplicateSignal(current)) => Ok((current, WasDuplicate))
  }

  function Moved(r: Result<(Incident, TransitionResult)>): (s: Result<(Incident, Reply)>) {
    match r
    case Err(e) => Err(e)
    case Ok((next, transition)) => Ok((next, Transitioned(transition)))
  }

  /** One command against one incident. */
  function Apply(i: Incident, op: Op): (r: Result<(Incident, Reply)>) {
    match op
    case Begin(c) => Moved(BeginAnalysis(i, c))
    case Complete(c) => Moved(CompleteAnalysis(i, c))
    case Fail(c, reason) => Moved(FailAnalysis(i, c, reason))
    case Close(c) => Moved(CloseIdle(i, c))
    case Route(c, s) => Routed(RouteSignal(i, c, s))
  }

  /** The aggregate after a command; a refused command leaves it alone. */
  function Step(i: Incident, op: Op): (r: Incident) {
    match Apply(i, op)
    case Err(_) => i
    case Ok((next, _)) => next
  }

  function Run(i: Incident, ops: seq<Op>): (r: Incident)
    decreases ops
  {
    if ops == [] then i else Run(Step(i, ops[0]), ops[1..])
  }

  // ---- the effect of a command, without its plumbing ----

  /** The command is new, well formed, at the current revision and not before the last update. */
  ghost predicate Ready(i: Incident, op: Op) {
    DigestShaped(op.command.id) && op.command.at != 0
    && FindRecord(i.commands, op.command.id).None?
    && op.command.expectedRevision == i.revision && i.updatedAt <= op.command.at
  }

  ghost predicate Recorded(i: Incident, op: Op, j: Incident) {
    Ready(i, op) && j.id == i.id && j.createdAt == i.createdAt
    && j.version == i.version + 1 && j.revision == i.revision + 1 && j.updatedAt == op.command.at
    && j.commands == i.commands + [CommandRecord(op.command.id, Fingerprint(op), i.revision + 1)]
  }

  ghost predicate SameEvidence(i: Incident, j: Incident) {
    j.signals == i.signals && j.snapshot == i.snapshot && j.relations == i.relations && j.lastSignalAt == i.lastSignalAt
  }

  /** A signal joined the incident. */
  ghost predicate Grew(i: Incident, c: Command, s: Signal, j: Incident) {
    ValidSignal(s) && Lookup(i.signals, s.id).None? && s.source == i.snapshot.source && s.end <= c.at
    && j.signals == Sort(SignalLess, i.signals + [s])
    && BuildSnapshot(j.signals) == Ok(j.snapshot) && j.lastSignalAt == j.snapshot.end
    && j.state == Open && j.failureReason == "" && j.closedAt == 0 && j.analysisAttempts == i.analysisAttempts
    && j.relations == GrownRelations(i.signals, j.signals, s, i.state == Closed)
    && (if i.state == Closed then i.closedAt <= c.at <= i.closedAt + INCIDENT_REOPEN_WINDOW
        else RelatedToAny(i.signals, s))
  }

  ghost predicate Changed(i: Incident, op: Op, j: Incident) {
    match op
    case Begin(_) =>
      SameEvidence(i, j) && (i.state == Open || CanRetryAnalysis(i)) && i.analysisAttempts < MAXIMUM_ANALYSIS_ATTEMPTS
      && j.state == Analyzing && j.failureReason == "" && j.closedAt == i.closedAt
      && j.analysisAttempts == i.analysisAttempts + 1
    case Complete(_) =>
      SameEvidence(i, j) && i.state == Analyzing && j.state == ReviewReady && j.failureReason == ""
      && j.closedAt == i.closedAt && j.analysisAttempts == i.analysisAttempts
    case Fail(_, reason) =>
      SameEvidence(i, j) && i.state == Analyzing && j.state == AnalysisFailed && j.failureReason == reason
      && ClassifyAnalysisFailure(reason).Ok? && j.closedAt == i.closedAt && j.analysisAttempts == i.analysisAttempts
    case Close(c) =>
      SameEvidence(i, j) && i.state !in {Closed, Analyzing} && j.state == Closed
      && j.closedAt == i.lastSignalAt + INCIDENT_IDLE_TIMEOUT <= c.at
      && j.failureReason == i.failureReason && j.analysisAttempts == i.analysisAttempts
    case Route(c, s) => Grew(i, c, s, j)
  }

  lemma BeginCases(i: Incident, c: Command, j: Incident)
    requires BeginAnalysis(i, c).Ok? && j == BeginAnalysis(i, c).value.0
    ensures j == i || (Recorded(i, Begin(c), j) && Changed(i, Begin(c), j))
  {
    hide CommandFingerprint, DigestShaped;
  }

  lemma CompleteCases(i: Incident, c: Command, j: Incident)
    requires CompleteAnalysis(i, c).Ok? && j == CompleteAnalysis(i, c).value.0
    ensures j == i || (Recorded(i, Complete(c), j) && Changed(i, Complete(c), j))
  {
    hide CommandFingerprint, DigestShaped;
  }

  lemma FailCases(i: Incident, c: Command, reason: string, j: Incident)
    requires FailAnalysis(i, c, reason).Ok? && j == FailAnalysis(i, c, reason).value.0
    ensures j == i || (Recorded(i, Fail(c, reason), j) && Changed(i, Fail(c, reason), j))
  {
    hide CommandFingerprint, DigestShaped;
  }

  lemma CloseCases(i: Incident, c: Command, j: Incident)
    requires CloseIdle(i, c).Ok? && j == CloseIdle(i, c).value.0
    ensures j == i || (Recorded(i, Close(c), j) && Changed(i, Close(c), j))
  {
    hide CommandFingerprint, DigestShaped;
  }

  lemma OneNormal(s: Signal)
    ensures Normalize([s]).Ok? <==> ValidSignal(s)
  {
    NormalizeSpec([s]);
    assert [s][0] == s;
  }

  lemma AwayCases(i: Incident, c: Command, s: Signal)
    ensures RouteToNewIncident(i, c, s).Ok? ==> RouteToNewIncident(i, c, s).value.current == i
  {
  }

  lemma AppendCases(i: Incident, c: Command, s: Signal, reopening: bool)
    requires Ready(i, Route(c, s)) && ValidSignal(s) && Lookup(i.signals, s.id).None?
    requires s.source == i.snapshot.source && s.end <= c.at
    requires if reopening then i.state == Closed && i.closedAt <= c.at <= i.closedAt + INCIDENT_REOPEN_WINDOW
             else i.state != Closed && RelatedToAny(i.signals, s)
    ensures var r := AppendSignal(i, c, Fingerprint(Route(c, s)), s, reopening);
      r.Ok? ==> (Recorded(i, Route(c, s), r.value.current) && Grew(i, c, s, r.value.current)
                 && r.value.Reopened? == reopening)
  {
    hide ValidSignal, BuildSnapshot, BuildRelations, RelatedToAny, CommandFingerprint, DigestShaped, FindRecord,
      Lookup, GrownRelations, Sort;
  }

  lemma RouteCases(i: Incident, c: Command, s: Signal, j: Incident)
    requires RouteSignal(i, c, s).Ok? && j == RouteSignal(i, c, s).value.current
    ensures j == i || (Recorded(i, Route(c, s), j) && Grew(i, c, s, j))
  {
    hide ValidSignal, BuildSnapshot, BuildRelations, RelatedToAny, CommandFingerprint, AppendSignal, RouteToNewIncident;
    OneNormal(s);
    AwayCases(i, c, s);
    if Lookup(i.signals, s.id).None? && Ready(i, Route(c, s)) && s.source == i.snapshot.source {
      if i.state == Closed {
        if i.closedAt <= c.at <= i.closedAt + INCIDENT_REOPEN_WINDOW { AppendCases(i, c, s, true); }
      } else if RelatedToAny(i.signals, s) {
        AppendCases(i, c, s, false);
      }
    }
  }

  /** Every command either leaves the aggregate untouched or is recorded with exactly its effect. */
  lemma StepCases(i: Incident, op: Op)
    ensures Step(i, op) == i || (Recorded(i, op, Step(i, op)) && Changed(i, op, Step(i, op)))
  {
    if Apply(i, op).Ok? {
      match op
      case Begin(c) => BeginCases(i, c, Step(i, op));
      case Complete(c) => CompleteCases(i, c, Step(i, op));
      case Fail(c, reason) => FailCases(i, c, reason, Step(i, op));
      case Close(c) => CloseCases(i, c, Step(i, op));
      case Route(c, s) => RouteCases(i, c, s, Step(i, op));
    }
  }

  // ---- invariants ----

  ghost predicate UniqueCommands(commands: seq<CommandRecord>) {
    forall i, j | 0 <= i < j < |commands| :: commands[i].id != commands[j].id
  }

  /** Version, revision and the idempotency log move together. */
  ghost predicate Counted(i: Incident) {
    i.version == i.revision == |i.commands| + 1 && UniqueCommands(i.commands)
    && forall k | 0 <= k < |i.commands| :: i.commands[k].appliedRevision == k + 2
  }

  /** Time only moves forward, and a closed incident closed fifteen minutes after its last signal. */
  ghost predicate Timed(i: Incident) {
    i.createdAt <= i.updatedAt && i.lastSignalAt == i.snapshot.end <= i.updatedAt
    && (i.state == Closed ==> i.closedAt == i.lastSignalAt + INCIDENT_IDLE_TIMEOUT <= i.updatedAt)
    && (i.state != Closed ==> i.closedAt == 0)
  }

  /** At most two analysis attempts, and a failed analysis carries a known reason. */
  ghost predicate Budgeted(i: Incident) {
    i.analysisAttempts <= MAXIMUM_ANALYSIS_ATTEMPTS
    && (i.state in {Analyzing, ReviewReady, AnalysisFailed} ==> i.analysisAttempts >= 1)
    && (i.state == AnalysisFailed ==> ClassifyAnalysisFailure(i.failureReason).Ok?)
  }

  /** The evidence is a valid list of signals of one source in sweep order, and the snapshot is theirs. */
  ghost predicate Evident(i: Incident) {
    i.signals != [] && Acceptable(i.signals) && UniqueIDs(i.signals) && Increasing(SignalLess, i.signals)
    && OneSource(i.signals) && i.signals[0].source == i.snapshot.source
    && BuildSnapshot(i.signals) == Ok(i.snapshot)
  }

  /** The record stems from this command, and the signal of a routing command was incorporated. */
  ghost predicate Explains(op: Op, record: CommandRecord, signals: seq<Signal>) {
    record.id == op.command.id && record.fingerprint == Fingerprint(op)
    && (op.Route? ==> op.signal in signals)
  }

  ghost predicate HasOrigin(record: CommandRecord, signals: seq<Signal>) {
    exists op :: Explains(op, record, signals)
  }

  ghost predicate Explained(i: Incident) {
    forall record | record in i.commands :: HasOrigin(record, i.signals)
  }

  ghost predicate Inv(i: Incident) {
    Counted(i) && Timed(i) && Budgeted(i) && Evident(i) && Explained(i)
  }

  lemma CountedKept(i: Incident, op: Op, j: Incident)
    requires Counted(i) && Recorded(i, op, j)
    ensures Counted(j)
  {
    hide DigestShaped, Fingerprint, FindRecord;
    assert forall k | 0 <= k < |i.commands| :: i.commands[k] in i.commands;
  }

  lemma SortedGrowth(signals: seq<Signal>, s: Signal)
    requires signals != [] && Acceptable(signals) && UniqueIDs(signals) && OneSource(signals)
    requires ValidSignal(s) && Lookup(signals, s.id).None? && s.source == signals[0].source
    ensures var grown := Sort(SignalLess, signals + [s]);
      && grown != [] && SameElements(grown, signals + [s])
      && Acceptable(grown) && UniqueIDs(grown) && Increasing(SignalLess, grown) && OneSource(grown)
      && grown[0].source == s.source
  {
    hide ValidSignal, Lookup, StrLess, SignalLess;
    var all := signals + [s];
    assert forall k | 0 <= k < |signals| :: signals[k] in signals;
    assert UniqueIDs(all) && AllValid(all) && OneSource(all);
    UniqueIDsSortable(all);
    SignalLessOrder();
    SortIncreasing(SignalLess, all);
    var grown := Sort(SignalLess, all);
    GatheredConsistent(all);
    AcceptableSameElements(all, grown);
    IncreasingDistinct(SignalLess, grown);
    assert forall k | 0 <= k < |grown| :: grown[k] in grown && grown[k] in all;
  }

  lemma EvidentKept(i: Incident, op: Op, j: Incident)
    requires Evident(i) && Changed(i, op, j)
    ensures Evident(j)
    ensures forall s | s in i.signals :: s in j.signals
    ensures op.Route? ==> SameElements(j.signals, i.signals + [op.signal])
  {
    hide BuildSnapshot, BuildRelations, RelatedToAny, CanRetryAnalysis, ClassifyAnalysisFailure, ValidSignal;
    if op.Route? {
      SortedGrowth(i.signals, op.signal);
      SnapshotSource(j.signals);
    }
  }

  lemma SnapshotSource(signals: seq<Signal>)
    requires signals != [] && Acceptable(signals) && OneSource(signals)
    ensures BuildSnapshot(signals).Ok? && BuildSnapshot(signals).value.source == signals[0].source
    ensures exists s | s in signals :: s.end == BuildSnapshot(signals).value.end
  {
    SnapshotSucceeds(signals);
  }

  lemma TimedKept(i: Incident, op: Op, j: Incident)
    requires Timed(i) && Evident(i) && Recorded(i, op, j) && Changed(i, op, j)
    ensures Timed(j)
  {
    hide ValidSignal, BuildSnapshot, BuildRelations, RelatedToAny, ClassifyAnalysisFailure, DigestShaped, Fingerprint,
      FindRecord, Sort;
    if op.Route? {
      EvidentKept(i, op, j);
      SnapshotSource(j.signals);
      var s :| s in j.signals && s.end == j.snapshot.end;
      assert s in i.signals + [op.signal];
      if s in i.signals { LastSignalLatest(i, s); }
    }
  }

  lemma LastSignalLatest(i: Incident, s: Signal)
    requires Evident(i) && s in i.signals
    ensures s.end <= i.snapshot.end
  {
    SnapshotSucceeds(i.signals);
  }

  lemma BudgetedKept(i: Incident, op: Op, j: Incident)
    requires Budgeted(i) && Changed(i, op, j)
    ensures Budgeted(j)
  {
    hide ValidSignal, BuildSnapshot, BuildRelations, RelatedToAny, ClassifyAnalysisFailure, Sort;
  }

  lemma ExplainedKept(i: Incident, op: Op, j: Incident)
    requires Explained(i) && Recorded(i, op, j)
    requires forall s | s in i.signals :: s in j.signals
    requires op.Route? ==> op.signal in j.signals
    ensures Explained(j)
  {
    hide DigestShaped, Fingerprint, FindRecord;
    forall record | record in j.commands ensures HasOrigin(record, j.signals) {
      if record in i.commands {
        assert HasOrigin(record, i.signals);
        var o :| Explains(o, record, i.signals);
        assert Explains(o, record, j.signals);
      } else {
        assert Explains(op, record, j.signals);
      }
    }
  }

  /** Every command keeps the invariant, and no command ever removes a signal. */
  lemma StepKeepsInv(i: Incident, op: Op)
    requires Inv(i)
    ensures Inv(Step(i, op))
    ensures forall s | s in i.signals :: s in Step(i, op).signals
  {
    hide Step, Recorded, Changed, Counted, Timed, Budgeted, Evident, Explained;
    StepCases(i, op);
    var j := Step(i, op);
    if j != i {
      CountedKept(i, op, j);
      EvidentKept(i, op, j);
      TimedKept(i, op, j);
      BudgetedKept(i, op, j);
      assert op.Route? ==> op.signal in i.signals + [op.signal];
      ExplainedKept(i, op, j);
    }
  }

  /** Hence the invariant holds after every run. */
  lemma {:induction false} RunKeepsInv(i: Incident, ops: seq<Op>)
    requires Inv(i)
    ensures Inv(Run(i, ops))
    ensures forall s | s in i.signals :: s in Run(i, ops).signals
    decreases ops
  {
    hide Step, Inv;
    if ops != [] {
      StepKeepsInv(i, ops[0]);
      RunKeepsInv(Step(i, ops[0]), ops[1..]);
    }
  }

  /** A group as `Correlate` builds it. */
  ghost predicate Genuine(g: Group) {
    Increasing(SignalLess, g.signals) && BuildGroup(g.signals) == Ok(g)
  }

  /** A new incident starts with the evidence of its group and satisfies the invariant. */
  lemma NewIncidentInv(g: Group, at: int)
    requires Genuine(g) && NewIncident(g, at).Ok?
    ensures Inv(NewIncident(g, at).value)
    ensures NewIncident(g, at).value.signals == g.signals && NewIncident(g, at).value.relations == g.relations
    ensures NewIncident(g, at).value.snapshot == g.snapshot
    ensures var i := NewIncident(g, at).value;
      && i.createdAt == at && i.updatedAt == at && i.lastSignalAt == g.end && i.closedAt == 0
      && i.state == Open && i.revision == 1 && i.analysisAttempts == 0 && i.failureReason == "" && i.commands == []
  {
    hide ValidSignal, SignalLess, BuildRelations, BuildSnapshot, Acceptable, UniqueIDs, OneSource, Canonical,
      IncidentID, Increasing;
    GroupEvidence(g.signals);
  }

  /** An incident is created exactly at a known instant not before the last signal of its group. */
  lemma NewIncidentSucceeds(g: Group, at: int)
    requires Genuine(g)
    ensures NewIncident(g, at).Ok? <==> at != 0 && g.end <= at
    ensures NewIncident(g, at).Err? ==> NewIncident(g, at).error == if at == 0 then InvalidInput else TimeRegression
  {
    hide BuildGroup, Increasing, Canonical, IncidentID;
  }

  /** Incidents of one identifier were opened on the same evidence. */
  lemma IdentifierMeansEvidence(g: Group, h: Group, at: int, later: int)
    requires Genuine(g) && Genuine(h) && NewIncident(g, at).Ok? && NewIncident(h, later).Ok?
    requires NewIncident(g, at).value.id == NewIncident(h, later).value.id
    ensures g.snapshot == h.snapshot
  {
    hide BuildGroup, Increasing, Canonical;
    var n := |IncidentID("")|;
    assert IncidentID(Canonical(g.snapshot))[n..] == Canonical(g.snapshot);
    assert IncidentID(Canonical(h.snapshot))[n..] == Canonical(h.snapshot);
    CanonicalInjective(g.snapshot, h.snapshot);
  }

  /** A group is built only from valid, consistent signals of one source. */
  lemma GroupEvidence(signals: seq<Signal>)
    requires Increasing(SignalLess, signals) && BuildGroup(signals).Ok?
    ensures signals != [] && Acceptable(signals) && UniqueIDs(signals) && OneSource(signals)
    ensures signals[0].source == BuildGroup(signals).value.source
  {
    hide ValidSignal, SignalLess, BuildRelations;
    NormalizeSpec(signals);
    NormalizeFixed(signals);
    SignalLessOrder();
    forall i, j | 0 <= i < j < |signals| ensures signals[i].id != signals[j].id {
      assert SignalLess(signals[i], signals[j]);
    }
  }
}
