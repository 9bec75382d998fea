/** The incident aggregate (`internal/correlation/lifecycle.go`, `lifecycle_types.go`).
    Every operation takes an incident value and returns a new one. */
module Incident {
  import opened Prelude
  import opened Order
  import opened Encoding
  import opened Signals
  import opened Components
  import opened Relations
  import opened Snapshot
  import opened Correlate

  const INCIDENT_IDLE_TIMEOUT := 15 * MINUTE
  const INCIDENT_REOPEN_WINDOW := 30 * MINUTE
  const MAXIMUM_ANALYSIS_ATTEMPTS := 2

  datatype State = Open | Analyzing | ReviewReady | AnalysisFailed | Closed

  datatype RetryClassification = RetryOnceWithBoundedJitter | RetryTerminal

  datatype Command = Command(id: string, expectedRevision: nat, at: int)

  /** The fingerprint is kept as the text it is the SHA-256 digest of; the digest is taken as one-to-one. */
  datatype CommandRecord = CommandRecord(id: string, fingerprint: string, appliedRevision: nat)

  datatype Incident = Incident(
    id: string, version: nat, revision: nat, state: State,
    createdAt: int, updatedAt: int, lastSignalAt: int, closedAt: int,
    failureReason: string, analysisAttempts: nat,
    snapshot: Snapshot, signals: seq<Signal>, relations: seq<Relation>, commands: seq<CommandRecord>)

  datatype TransitionResult =
    | Applied(appliedRevision: nat, currentRevision: nat)
    | IdempotentDuplicate(appliedRevision: nat, currentRevision: nat)

  datatype RouteResult =
    | Appended(current: Incident)
    | Reopened(current: Incident)
    | NewIncidentRouted(current: Incident, created: Incident)
    | DuplicateSignal(current: Incident)

  function ClassifyAnalysisFailure(reason: string): (r: Result<RetryClassification>) {
    if reason in {"network_error", "http_408", "http_409", "rate_limited", "server_error"} then
      Ok(RetryOnceWithBoundedJitter)
    else if reason in {"budget_exhausted", "input_too_large", "timeout", "refused", "incomplete",
                       "schema_invalid", "evidence_invalid", "unsupported_action", "cancelled",
                       "configuration_error"} then
      Ok(RetryTerminal)
    else Err(InvalidInput)
  }

  predicate CanRetryAnalysis(i: Incident) {
    i.state == AnalysisFailed && i.analysisAttempts < MAXIMUM_ANALYSIS_ATTEMPTS
    && ClassifyAnalysisFailure(i.failureReason) == Ok(RetryOnceWithBoundedJitter)
  }

  // ---- commands ----

  /** `commandFingerprint`: six length-prefixed lines. */
  function CommandFingerprint(kind: string, command: Command, payload: string): (r: string) {
    Lines(["incident-command-v1", kind, command.id, Itoa(command.expectedRevision), FormatTime(command.at), payload])
  }

  /** Equal fingerprints come from equal commands, whatever bytes their fields hold. */
  lemma FingerprintInjective(k1: string, c1: Command, p1: string, k2: string, c2: Command, p2: string)
    requires CommandFingerprint(k1, c1, p1) == CommandFingerprint(k2, c2, p2)
    ensures k1 == k2 && c1 == c2 && p1 == p2
  {
    var xs := ["incident-command-v1", k1, c1.id, Itoa(c1.expectedRevision), FormatTime(c1.at), p1];
    var ys := ["incident-command-v1", k2, c2.id, Itoa(c2.expectedRevision), FormatTime(c2.at), p2];
    LinesInjective(xs, ys);
    assert xs[1] == ys[1] && xs[2] == ys[2] && xs[3] == ys[3] && xs[4] == ys[4] && xs[5] == ys[5];
    ItoaInjective(c1.expectedRevision, c2.expectedRevision);
    FormatTimeInjective(c1.at, c2.at);
  }

  function FindRecord(commands: seq<CommandRecord>, id: string): (r: Option<CommandRecord>)
    ensures r.Some? ==> r.value in commands && r.value.id == id
    ensures r.None? ==> forall c | c in commands :: c.id != id
  {
    if commands == [] then None
    else if commands[0].id == id then Some(commands[0])
    else FindRecord(commands[1..], id)
  }

  /** The scan of `prepareCommand` and `validateDuplicateSignalCommand`. */
  method ScanCommands(commands: seq<CommandRecord>, id: string) returns (r: Option<CommandRecord>)
    ensures r == FindRecord(commands, id)
  {
    assert commands[0..] == commands;
    for k := 0 to |commands|
      invariant FindRecord(commands[k..], id) == FindRecord(commands, id)
    {
      if commands[k].id == id {
        return Some(commands[k]);
      }
      assert commands[k..][1..] == commands[k + 1..];
    }
    return None;
  }

  datatype Prepared = Fresh(fingerprint: string) | Seen(record: CommandRecord)

  function PrepareCommand(i: Incident, command: Command, kind: string, payload: string): (r: Result<Prepared>) {
    if !DigestShaped(command.id) || command.at == 0 then Err(InvalidInput)
    else
      var fingerprint := CommandFingerprint(kind, command, payload);
      match FindRecord(i.commands, command.id)
      case Some(record) => if record.fingerprint != fingerprint then Err(IdempotencyConflict) else Ok(Seen(record))
      case None =>
        if command.expectedRevision != i.revision then Err(StaleRevision)
        else if command.at < i.updatedAt then Err(TimeRegression)
        else Ok(Fresh(fingerprint))
  }

  function Commit(i: Incident, command: Command, fingerprint: string): (r: Incident) {
    i.(version := i.version + 1, revision := i.revision + 1, updatedAt := command.at,
       commands := i.commands + [CommandRecord(command.id, fingerprint, i.revision + 1)])
  }

  function AppliedOn(i: Incident): (r: TransitionResult) { Applied(i.revision + 1, i.revision + 1) }

  function DuplicateOf(i: Incident, record: CommandRecord): (r: TransitionResult) {
    IdempotentDuplicate(record.appliedRevision, i.revision)
  }

  // ---- creation ----

  function IncidentID(canonical: string): (r: string) { "sentinelflow-incident-id-v1\n" + canonical }

  function NewIncident(group: Group, at: int): (r: Result<Incident>) {
    if at == 0 then Err(InvalidInput)
    else match BuildGroup(group.signals)
      case Err(e) => Err(e)
      case Ok(rebuilt) =>
        if at < rebuilt.end then Err(TimeRegression)
        else Ok(Incident(IncidentID(Canonical(rebuilt.snapshot)), 1, 1, Open, at, at, rebuilt.end, 0, "", 0,
                         rebuilt.snapshot, rebuilt.signals, rebuilt.relations, []))
  }

  // ---- transitions ----

  function BeginAnalysis(i: Incident, command: Command): (r: Result<(Incident, TransitionResult)>) {
    match PrepareCommand(i, command, "begin_analysis", "")
    case Err(e) => Err(e)
    case Ok(Seen(record)) => Ok((i, DuplicateOf(i, record)))
    case Ok(Fresh(fingerprint)) =>
      if i.state != Open && i.state != AnalysisFailed then Err(InvalidTransition)
      else if i.state == AnalysisFailed && !CanRetryAnalysis(i) then Err(RetryNotAllowed)
      else if i.analysisAttempts >= MAXIMUM_ANALYSIS_ATTEMPTS then Err(RetryNotAllowed)
      else
        Ok((Commit(i.(state := Analyzing, failureReason := "", analysisAttempts := i.analysisAttempts + 1),
                   command, fingerprint), AppliedOn(i)))
  }

  function CompleteAnalysis(i: Incident, command: Command): (r: Result<(Incident, TransitionResult)>) {
    match PrepareCommand(i, command, "complete_analysis", "")
    case Err(e) => Err(e)
    case Ok(Seen(record)) => Ok((i, DuplicateOf(i, record)))
    case Ok(Fresh(fingerprint)) =>
      if i.state != Analyzing then Err(InvalidTransition)
      else Ok((Commit(i.(state := ReviewReady, failureReason := ""), command, fingerprint), AppliedOn(i)))
  }

  function FailAnalysis(i: Incident, command: Command, reason: string): (r: Result<(Incident, TransitionResult)>) {
    if ClassifyAnalysisFailure(reason).Err? then Err(ClassifyAnalysisFailure(reason).error)
    else match PrepareCommand(i, command, "fail_analysis", reason)
      case Err(e) => Err(e)
      case Ok(Seen(record)) => Ok((i, DuplicateOf(i, record)))
      case Ok(Fresh(fingerprint)) =>
        if i.state != Analyzing then Err(InvalidTransition)
        else Ok((Commit(i.(state := AnalysisFailed, failureReason := reason), command, fingerprint), AppliedOn(i)))
  }

  function CloseIdle(i: Incident, command: Command): (r: Result<(Incident, TransitionResult)>) {
    match PrepareCommand(i, command, "close_idle", "")
    case Err(e) => Err(e)
    case Ok(Seen(record)) => Ok((i, DuplicateOf(i, record)))
    case Ok(Fresh(fingerprint)) =>
      if i.state == Closed || i.state == Analyzing then Err(InvalidTransition)
      else if command.at < i.lastSignalAt + INCIDENT_IDLE_TIMEOUT then Err(IdleDeadlineNotReached)
      else
        Ok((Commit(i.(state := Closed, closedAt := i.lastSignalAt + INCIDENT_IDLE_TIMEOUT), command, fingerprint),
            AppliedOn(i)))
  }

  // ---- routing ----

  function RoutePayload(s: Signal): (r: string) { s.id + "\n" + s.digest }

  /** `latestSignal`: the last window end, ties by the greater ID. */
  function LatestSignal(signals: seq<Signal>): (r: Signal)
    requires signals != []
    ensures r in signals
  {
    if |signals| == 1 then signals[0]
    else
      Later(LatestSignal(signals[..|signals| - 1]), signals[|signals| - 1])
  }

  /** The later of the two windows; on equal ends, the greater ID. */
  function Later(latest: Signal, s: Signal): (r: Signal)
    ensures r == latest || r == s
    ensures latest.end <= r.end && s.end <= r.end
  {
    if s.end > latest.end || (s.end == latest.end && StrLess(latest.id, s.id)) then s else latest
  }

  lemma LatestSnoc(signals: seq<Signal>, s: Signal)
    requires signals != []
    ensures LatestSignal(signals + [s]) == Later(LatestSignal(signals), s)
  {
    hide StrLess;
    var all := signals + [s];
    assert all[..|signals|] == signals && all[|signals|] == s;
  }

  /** No window ends after the window of the latest signal, and of those that end with it none has a greater ID. */
  lemma {:induction false} LatestEndsLast(signals: seq<Signal>, s: Signal)
    requires s in signals
    ensures var latest := LatestSignal(signals);
      s.end < latest.end || (s.end == latest.end && !StrLess(latest.id, s.id))
  {
    hide StrLess;
    StrLessOrder();
    if |signals| > 1 {
      var init := signals[..|signals| - 1];
      assert signals == init + [signals[|signals| - 1]];
      if s in init { LatestEndsLast(init, s); }
    }
  }

  /** The loop of the source that finds the latest signal. */
  method FindLatest(signals: seq<Signal>) returns (latest: Signal)
    requires signals != []
    ensures latest == LatestSignal(signals)
  {
    hide StrLess;
    latest := signals[0];
    assert signals[..1] == [signals[0]];
    for k := 1 to |signals|
      invariant latest == LatestSignal(signals[..k])
    {
      hide *;
      LatestSnoc(signals[..k], signals[k]);
      assert signals[..k + 1] == signals[..k] + [signals[k]];
      latest := Later(latest, signals[k]);
    }
    assert signals[..|signals|] == signals;
  }

  function DropPair(relations: seq<Relation>, left: string, right: string): (r: seq<Relation>) {
    if relations == [] then []
    else
      (if relations[0].left == left && relations[0].right == right then [] else [relations[0]])
      + DropPair(relations[1..], left, right)
  }

  /** The filtering loop of `replacePairRelation`. */
  method FilterPair(relations: seq<Relation>, left: string, right: string) returns (result: seq<Relation>)
    ensures result == DropPair(relations, left, right)
  {
    result := [];
    assert relations[0..] == relations;
    for k := 0 to |relations|
      invariant result + DropPair(relations[k..], left, right) == DropPair(relations, left, right)
    {
      assert relations[k..][1..] == relations[k + 1..];
      if !(relations[k].left == left && relations[k].right == right) {
        result := result + [relations[k]];
      }
    }
  }

  /** What the filter leaves: every other entry as often as before, and none for the pair. */
  lemma {:induction false} DropPairKeeps(relations: seq<Relation>, left: string, right: string, r: Relation)
    ensures var kept := DropPair(relations, left, right);
      && (multiset(kept)[r] == if r.left == left && r.right == right then 0 else multiset(relations)[r])
      && (r in kept <==> r in relations && !(r.left == left && r.right == right))
  {
    if relations != [] {
      DropPairKeeps(relations[1..], left, right, r);
      assert relations == [relations[0]] + relations[1..];
    }
  }

  /** And they stay in order, whatever the order was. */
  lemma {:induction false} DropPairOrdered(less: (Relation, Relation) -> bool, relations: seq<Relation>, left: string,
                                           right: string)
    requires Increasing(less, relations)
    ensures Increasing(less, DropPair(relations, left, right))
  {
    if relations != [] {
      var rest := DropPair(relations[1..], left, right);
      DropPairOrdered(less, relations[1..], left, right);
      forall k | 0 <= k < |rest| ensures less(relations[0], rest[k]) {
        DropPairKeeps(relations[1..], left, right, rest[k]);
        assert rest[k] in rest;
      }
    }
  }

  function ReplacePairRelation(relations: seq<Relation>, replacement: Relation): (r: seq<Relation>) {
    Sort(RelationLess, DropPair(relations, replacement.left, replacement.right) + [replacement])
  }

  /** What one reopening changes: the pair of the latest old signal and the new one carries the reopening reason
      and nothing else, and every other pair is as in the rebuilt list. */
  lemma ReplacePairExact(relations: seq<Relation>, replacement: Relation)
    requires Increasing(RelationLess, relations)
    ensures Increasing(RelationLess, ReplacePairRelation(relations, replacement))
    ensures forall r :: r in ReplacePairRelation(relations, replacement) <==>
      r == replacement || (r in relations && (r.left, r.right) != (replacement.left, replacement.right))
  {
    hide RelationLess, DropPair;
    RelationLessOrder();
    var kept := DropPair(relations, replacement.left, replacement.right);
    DropPairOrdered(RelationLess, relations, replacement.left, replacement.right);
    forall r ensures r in kept <==> r in relations && (r.left, r.right) != (replacement.left, replacement.right) {
      DropPairKeeps(relations, replacement.left, replacement.right, r);
    }
    IncreasingDistinct(RelationLess, kept);
    var all := kept + [replacement];
    forall i, j | 0 <= i < |all| && 0 <= j < |all| && all[i] != all[j]
      ensures RelationLess(all[i], all[j]) || RelationLess(all[j], all[i])
    {
      assert i < |kept| ==> kept[i] in kept;
      assert j < |kept| ==> kept[j] in kept;
    }
    assert replacement !in kept;
    SortIncreasing(RelationLess, all);
  }

  /** The relations of the grown incident. It always held a signal; without one the source would fail at the
      anchor, here there is none. */
  function GrownRelations(before: seq<Signal>, signals: seq<Signal>, signal: Signal, reopening: bool)
      : (r: seq<Relation>) {
    if reopening && before != [] then
      ReplacePairRelation(BuildRelations(signals),
                          MakeRelation(LatestSignal(before), signal, ReopenedWithinThirtyMinutes))
    else BuildRelations(signals)
  }

  function AppendSignal(i: Incident, command: Command, fingerprint: string, signal: Signal,
      reopening: bool): (r: Result<RouteResult>) {
    var signals := Sort(SignalLess, i.signals + [signal]);
    match BuildSnapshot(signals)
    case Err(e) => Err(e)
    case Ok(snapshot) =>
      var next := Commit(i.(signals := signals, snapshot := snapshot, lastSignalAt := snapshot.end,
                            state := Open, failureReason := "", closedAt := 0,
                            relations := GrownRelations(i.signals, signals, signal, reopening)),
                         command, fingerprint);
      Ok(if reopening then Reopened(next) else Appended(next))
  }

  function RouteToNewIncident(i: Incident, command: Command, signal: Signal): (r: Result<RouteResult>) {
    match BuildGroup([signal])
    case Err(e) => Err(e)
    case Ok(group) =>
      match NewIncident(group, command.at)
      case Err(e) => Err(e)
      case Ok(created) => Ok(NewIncidentRouted(i, created))
  }

  function CheckDuplicateSignalCommand(i: Incident, command: Command, signal: Signal): (r: Option<ErrorCode>) {
    if !DigestShaped(command.id) || command.at == 0 then Some(InvalidInput)
    else match FindRecord(i.commands, command.id)
      case None => None
      case Some(record) =>
        if record.fingerprint != CommandFingerprint("route_signal", command, RoutePayload(signal))
        then Some(IdempotencyConflict) else None
  }

  predicate RelatedToAny(signals: seq<Signal>, s: Signal) {
    exists k | 0 <= k < |signals| :: TemporalRelation(signals[k], s).Some?
  }

  function RouteSignal(i: Incident, command: Command, signal: Signal): (r: Result<RouteResult>) {
    if Normalize([signal]).Err? then Err(Normalize([signal]).error)
    else if command.at == 0 || command.at < signal.end then Err(TimeRegression)
    else match Lookup(i.signals, signal.id)
      case Some(existing) =>
        if existing != signal then Err(ConflictingSignal)
        else
          var problem := CheckDuplicateSignalCommand(i, command, signal);
          if problem.Some? then Err(problem.value) else Ok(DuplicateSignal(i))
      case None =>
        match PrepareCommand(i, command, "route_signal", RoutePayload(signal))
        case Err(e) => Err(e)
        case Ok(Seen(_)) => Ok(DuplicateSignal(i))
        case Ok(Fresh(fingerprint)) =>
          if signal.source != i.snapshot.source then RouteToNewIncident(i, command, signal)
          else if i.state == Closed then
            if command.at < i.closedAt then Err(TimeRegression)
            else if command.at <= i.closedAt + INCIDENT_REOPEN_WINDOW then
              AppendSignal(i, command, fingerprint, signal, true)
            else RouteToNewIncident(i, command, signal)
          else if RelatedToAny(i.signals, signal) then AppendSignal(i, command, fingerprint, signal, false)
          else RouteToNewIncident(i, command, signal)
  }
}
