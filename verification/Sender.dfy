/** The auth-event sender (`internal/authsender/sender.go`) as a state machine over values.
    Every step is one indivisible piece of the source's work; the network, the clock and the
    identifier source choose its arguments freely. The clock never runs backwards, and the block that
    follows an acknowledgement (lines 459-474) is one step: no lock of the source enforces that. */
module Sender {
  import opened Prelude

  const COVERAGE_HEARTBEAT := 1000 * MILLISECOND
  const EPOCH_START := "epoch-start"

  /** The payload of an accepted auth event; nothing here looks inside it. */
  type Event = string

  datatype Cause = QueueOverflow | DeliveryOutage | Recovered | RejectedBatch | UncleanRestart

  datatype Interval = Interval(start: int, end: int)

  /** A source-health record. `sequence` stands for equal first and last sequence numbers. */
  datatype Health = Health(
    cause: Cause, epoch: string, occurredAt: int,
    sequence: Option<nat>, interval: Option<Interval>, dropped: nat)

  /** A coverage marker. SHA-256 is taken as one-to-one, so a marker stands for its own digest. */
  datatype Marker = Marker(
    segment: string, previous: Option<Marker>, start: int, end: int, batchID: string, sequence: nat)

  datatype Record = EventRecord(event: Event) | HealthRecord(health: Health) | CoverageRecord(marker: Marker)

  /** A built batch; the JSON body is one-to-one in these fields. */
  datatype Batch = Batch(id: string, sequence: nat, sentAt: int, records: seq<Record>)

  /** A batch being delivered: how many pending records it carries, its marker, and how many events
      had been accepted at its cut. */
  datatype Flight = Flight(batch: Batch, count: nat, marker: Option<Marker>, cut: nat)

  datatype Disposal = Disposal(batch: Batch, count: nat, acknowledged: bool)

  /** A committed marker, the position of its batch, and how many events had been accepted at its cut. */
  datatype Commit = Commit(marker: Marker, index: nat, cut: nat)

  datatype Accepted = Accepted(event: Event, at: int)

  /** `size` is the length of the marshalled body of a batch. */
  datatype Config = Config(epoch: string, capacity: nat, batchSize: nat, maxBytes: nat, size: Batch -> nat)

  predicate Fits(c: Config, b: Batch) { c.size(b) <= c.maxBytes }

  /** One identifier drawn and one clock reading, both taken for one attempt to build a batch. */
  datatype Draw = Draw(id: string, at: int)

  /** How a batch without a marker came about: when it was decided, the marker that did not fit if one was
      wanted, and the larger batches that did not fit, largest first. */
  datatype Plan = Plan(decided: int, cover: Option<Draw>, misses: seq<Draw>)

  datatype State = State(
    queue: seq<Record>, closed: bool,
    pending: seq<Record>, sequence: nat, flight: Option<Flight>,
    degraded: bool, halted: bool, cancelled: bool, finished: bool, clean: bool,
    overflowCount: nat, overflowStart: int, outageStart: int,
    segment: string, coverageStart: int, previous: Option<Marker>,
    // history: what an observer of the whole run has seen
    clock: int, accepted: seq<Accepted>, drops: nat,
    sent: seq<Batch>, disposed: seq<Disposal>, markers: seq<Commit>, ids: set<string>)

  predicate ValidConfig(c: Config) { 1 <= c.batchSize <= 100 && c.batchSize <= c.capacity <= 1_000_000 }

  // ---- helpers of the source ----

  function CutTime(t: int): (r: int) { t - t % MILLISECOND }

  function StartTime(t: int): (r: int) { if t % MILLISECOND == 0 then t else t - t % MILLISECOND + MILLISECOND }

  predicate ContainsHealth(records: seq<Record>) { exists k | 0 <= k < |records| :: records[k].HealthRecord? }

  function Min(a: nat, b: nat): (r: nat) { if a < b then a else b }

  /** When a health record lets coverage resume: the end of its interval, or the instant it was made. */
  function Boundary(h: Health): (r: int) { if h.interval.Some? then h.interval.value.end else h.occurredAt }

  /** `healthRecoveryBoundary`: the latest boundary among the records about this epoch. */
  function RecoveryBoundary(records: seq<Record>, epoch: string): (r: Option<int>) {
    if records == [] then None
    else
      var rest := RecoveryBoundary(records[..|records| - 1], epoch);
      var last := records[|records| - 1];
      if !last.HealthRecord? || last.health.epoch != epoch then rest
      else if rest.None? || Boundary(last.health) > rest.value then Some(Boundary(last.health))
      else rest
  }

  /** `canAttachCoverage` on the fields it reads. */
  predicate MayAttach(c: Config, degraded: bool, start: int, previous: Option<Marker>, pending: seq<Record>, now: int) {
    var cut := CutTime(now);
    !degraded && !ContainsHealth(pending) && |pending| <= c.batchSize - 1 && start <= cut
    && (previous.Some? ==> start < cut && (pending != [] || start + COVERAGE_HEARTBEAT <= cut))
  }

  predicate CanAttachCoverage(c: Config, s: State, pending: seq<Record>, now: int) {
    MayAttach(c, s.degraded, s.coverageStart, s.previous, pending, now)
  }

  function RecordOverflow(s: State, now: int): (r: State) {
    s.(overflowCount := if s.overflowCount < MAX_SAFE_INTEGER then s.overflowCount + 1 else s.overflowCount,
       overflowStart := if s.overflowStart == 0 then now else s.overflowStart,
       degraded := true, drops := s.drops + 1, clock := now)
  }

  function MarkOutage(s: State, now: int): (r: State) {
    s.(outageStart := if s.outageStart == 0 then now else s.outageStart, degraded := true, clock := now)
  }

  function Halt(s: State): (r: State) { s.(degraded := true, halted := true, flight := None) }

  /** When each report is dated: every one takes its own clock reading. */
  datatype Dates = Dates(overflow: int, outage: int, recovered: int)

  /** `takeHealthRecords`: what the accumulator turns into at instant `ended`. */
  function HealthRecords(c: Config, s: State, ended: int, dates: Dates): (r: seq<Record>) {
    var overflow := if s.overflowCount > 0
      then [HealthRecord(Health(QueueOverflow, c.epoch, dates.overflow, None,
                                Some(Interval(if s.overflowStart == 0 then ended else s.overflowStart, ended)),
                                s.overflowCount))]
      else [];
    var outage := if s.outageStart != 0
      then [HealthRecord(Health(DeliveryOutage, c.epoch, dates.outage, None, Some(Interval(s.outageStart, ended)), 0))]
      else [];
    if s.overflowCount == 0 && s.outageStart == 0 then []
    else
      overflow + outage
      + [HealthRecord(Health(Recovered, c.epoch, dates.recovered, None, Some(Interval(Earliest(s, ended), ended)), 0))]
  }

  function Earliest(s: State, ended: int): (r: int) {
    var a := if s.overflowCount > 0 && s.overflowStart != 0 && s.overflowStart < ended then s.overflowStart else ended;
    if s.outageStart != 0 && s.outageStart < a then s.outageStart else a
  }

  function RejectedReport(c: Config, sequence: nat, count: nat, occurred: int): (r: Record) {
    HealthRecord(Health(RejectedBatch, c.epoch, occurred, Some(sequence), None, count))
  }

  // ---- steps ----

  datatype Action =
    | Enqueue(event: Event, now: int)
    | Receive
    | CutIdle(now: int)
    | CutFail(now: int, cover: Option<Draw>, supply: seq<Option<Draw>>)
    | CutPlain(now: int, id: string, count: nat, plan: Plan)
    | CutCoverage(decided: int, now: int, id: string)
    | Retry(now: int, transmitted: bool)
    | Accept(now: int, dates: Dates)
    | AcceptUnreported(now: int)
    | Reject(now: int, occurred: int)
    | RejectUnreported(now: int)
    | Fatal
    | GiveUp
    | Close
    | Cancel
    | Finish(stored: bool)

  function Init(c: Config, now: int, restartOf: Option<string>): (s: State) {
    var restart := if restartOf.Some?
      then [HealthRecord(Health(UncleanRestart, restartOf.value, now, None, None, 0))] else [];
    State(restart, false, [], 1, None, restartOf.Some?, false, false, false, false, 0, 0, 0,
          EPOCH_START, StartTime(now), None, now, [], 0, [], [], [], {})
  }

  /** The worker may start something new: it is neither delivering, halted nor finished. */
  predicate Idle(s: State) { s.flight.None? && !s.halted && !s.finished }

  /** An attempt may reach the network. */
  predicate Delivering(s: State) { s.flight.Some? && !s.halted && !s.finished && !s.cancelled }

  function Drained(s: State): (r: seq<Record>) { s.pending + s.queue }

  function CoverageMarker(s: State, now: int, id: string): (r: Marker) {
    Marker(s.segment, s.previous, s.coverageStart, CutTime(now), id, s.sequence)
  }

  function PlainBatch(s: State, d: Draw, count: nat): (r: Batch)
    requires count <= |Drained(s)|
  {
    Batch(d.id, s.sequence, CutTime(d.at), Drained(s)[..count])
  }

  function CoverageBatch(s: State, d: Draw): (r: Batch) {
    Batch(d.id, s.sequence, CutTime(d.at), Drained(s) + [CoverageRecord(CoverageMarker(s, d.at, d.id))])
  }

  /** Everything drawn for a batch without a marker, in order. */
  function Draws(plan: Plan, now: int, id: string): (r: seq<Draw>) {
    (if plan.cover.Some? then [plan.cover.value] else []) + plan.misses + [Draw(id, now)]
  }

  function DrawnIDs(draws: seq<Draw>): (r: set<string>) { set k | 0 <= k < |draws| :: draws[k].id }

  /** The clock advances from draw to draw, and identifiers are new: none is drawn twice, and none is the
      name of the first segment. */
  predicate FreshDraws(s: State, decided: int, draws: seq<Draw>) {
    && s.clock <= decided && (forall k | 0 <= k < |draws| :: decided <= draws[k].at)
    && (forall i, j | 0 <= i < j < |draws| :: draws[i].at <= draws[j].at && draws[i].id != draws[j].id)
    && (forall k | 0 <= k < |draws| :: draws[k].id !in s.ids && draws[k].id != EPOCH_START)
  }

  /** The batch is the one the source builds: a marker was not wanted or did not fit, and every larger batch
      was tried first and did not fit. */
  predicate Chosen(c: Config, s: State, now: int, id: string, count: nat, plan: Plan)
    requires 1 <= count <= Min(|Drained(s)|, c.batchSize)
  {
    var first := Min(|Drained(s)|, c.batchSize);
    && FreshDraws(s, plan.decided, Draws(plan, now, id))
    && (plan.cover.Some? <==> CanAttachCoverage(c, s, Drained(s), plan.decided))
    && (plan.cover.Some? ==> !Fits(c, CoverageBatch(s, plan.cover.value)))
    && |plan.misses| == first - count
    && (forall k | 0 <= k < |plan.misses| :: !Fits(c, PlainBatch(s, plan.misses[k], first - k)))
    && Fits(c, PlainBatch(s, Draw(id, now), count))
  }

  predicate Usable(s: State, decided: int, d: Draw) { decided <= d.at && d.id !in s.ids && d.id != EPOCH_START }

  predicate Precedes(x: Draw, y: Draw) { x.at <= y.at && x.id != y.id }

  /** What the clock and the identifier source give for the attempts of one cut: for the marker, then for each
      smaller and smaller batch; none where no identifier could be drawn. */
  predicate Supplied(s: State, decided: int, cover: Option<Draw>, supply: seq<Option<Draw>>) {
    && s.clock <= decided && (cover.Some? ==> Usable(s, decided, cover.value))
    && (forall k | 0 <= k < |supply| && supply[k].Some? :: Usable(s, decided, supply[k].value))
    && (forall k | 0 <= k < |supply| && supply[k].Some? && cover.Some? :: Precedes(cover.value, supply[k].value))
    && (forall i, j | 0 <= i < j < |supply| && supply[i].Some? && supply[j].Some? ::
          Precedes(supply[i].value, supply[j].value))
  }

  /** Attempt `k` takes place: an identifier was drawn for it and for all before it. */
  predicate Drawn(supply: seq<Option<Draw>>, k: nat) {
    k < |supply| && forall j | 0 <= j <= k :: supply[j].Some?
  }

  /** No batch that is tried fits. */
  predicate NoneFits(c: Config, s: State, supply: seq<Option<Draw>>) {
    var first := Min(|Drained(s)|, c.batchSize);
    forall k | 0 <= k < first && Drawn(supply, k) :: !Fits(c, PlainBatch(s, supply[k].value, first - k))
  }

  /** Why a cut may fail: the sequence is exhausted, a wanted marker gets no identifier or does not fit where
      nothing else is waiting, or records are waiting and neither a wanted marker nor any batch tried fits. */
  predicate Unbuildable(c: Config, s: State, decided: int, cover: Option<Draw>, supply: seq<Option<Draw>>) {
    var want := CanAttachCoverage(c, s, Drained(s), decided);
    || s.sequence > MAX_SAFE_INTEGER
    || (want && cover.None?)
    || (want && !Fits(c, CoverageBatch(s, cover.value)) && Drained(s) == [])
    || (!(want && Fits(c, CoverageBatch(s, cover.value))) && Drained(s) != [] && NoneFits(c, s, supply))
  }

  predicate Enabled(c: Config, s: State, a: Action) {
    match a
    case Enqueue(_, now) => s.clock <= now
    case Receive => Idle(s) && s.queue != []
    case CutIdle(now) => Idle(s) && s.clock <= now && Drained(s) == [] && !CanAttachCoverage(c, s, [], now)
    case CutFail(now, cover, supply) =>
      Idle(s) && c.batchSize <= |supply| && Supplied(s, now, cover, supply) && Unbuildable(c, s, now, cover, supply)
    case CutPlain(now, id, count, plan) =>
      Idle(s) && s.clock <= now && s.sequence <= MAX_SAFE_INTEGER
      && 1 <= count <= Min(|Drained(s)|, c.batchSize) && Chosen(c, s, now, id, count, plan)
    case CutCoverage(decided, now, id) =>
      Idle(s) && s.clock <= decided <= now && s.sequence <= MAX_SAFE_INTEGER
      && CanAttachCoverage(c, s, Drained(s), decided)
      && id !in s.ids && id != EPOCH_START && Fits(c, CoverageBatch(s, Draw(id, now)))
    case Retry(now, _) => Delivering(s) && s.clock <= now
    case Accept(now, dates) => Delivering(s) && s.clock <= now <= dates.overflow <= dates.outage <= dates.recovered
    case AcceptUnreported(now) => Delivering(s) && s.clock <= now && (s.overflowCount > 0 || s.outageStart != 0)
    case Reject(now, occurred) => Delivering(s) && s.clock <= now <= occurred
      && !ContainsHealth(s.flight.value.batch.records)
    case RejectUnreported(now) => Delivering(s) && s.clock <= now
    case Fatal => s.flight.Some? && !s.halted && !s.finished
    case GiveUp => s.flight.Some? && !s.halted && !s.finished && s.cancelled
    case Close => true
    case Cancel => s.closed
    case Finish(_) => s.closed && s.flight.None? && !s.finished && (s.halted || s.queue == [])
  }

  /** The acknowledged batch leaves the pending list; a marker moves the coverage chain on
      (`commitCoverage`), and reported health opens a new segment (`resetCoverageAfterHealth`). */
  function Acknowledge(c: Config, s: State): (r: State)
    requires s.flight.Some?
  {
    var f := s.flight.value;
    var boundary := RecoveryBoundary(f.batch.records, c.epoch);
    s.(sequence := s.sequence + 1,
       pending := if f.count <= |s.pending| then s.pending[f.count..] else [],
       flight := None,
       sent := s.sent + [f.batch],
       disposed := s.disposed + [Disposal(f.batch, f.count, true)],
       markers := if f.marker.Some? then s.markers + [Commit(f.marker.value, |s.disposed|, f.cut)] else s.markers,
       segment := if boundary.Some? then f.batch.id else s.segment,
       coverageStart := if boundary.Some? then StartTime(boundary.value)
                        else if f.marker.Some? then f.marker.value.end else s.coverageStart,
       previous := if boundary.Some? then None else if f.marker.Some? then f.marker else s.previous)
  }

  /** After an acknowledgement the accumulated health is turned into records; without any, a delivered
      health batch that leaves none behind ends the degraded state. */
  function AcceptStep(c: Config, s: State, now: int, dates: Dates): (r: State)
    requires s.flight.Some?
  {
    var acked := Acknowledge(c, s);
    var reports := HealthRecords(c, s, now, dates);
    var recovered := reports == [] && ContainsHealth(s.flight.value.batch.records) && !ContainsHealth(acked.pending);
    acked.(pending := reports + acked.pending, degraded := s.degraded && !recovered,
           overflowCount := 0, overflowStart := 0, outageStart := 0, clock := dates.recovered)
  }

  function RejectStep(s: State, now: int): (r: State)
    requires s.flight.Some?
  {
    var f := s.flight.value;
    MarkOutage(s, now).(
      sequence := s.sequence + 1,
      pending := if f.count <= |s.pending| then s.pending[f.count..] else [],
      flight := None,
      sent := s.sent + [f.batch],
      disposed := s.disposed + [Disposal(f.batch, f.count, false)])
  }

  function EnqueueStep(c: Config, s: State, e: Event, now: int): (r: State) {
    if s.closed || s.halted then s.(clock := now)
    else if |s.queue| < c.capacity then
      s.(queue := s.queue + [EventRecord(e)], accepted := s.accepted + [Accepted(e, now)], clock := now)
    else RecordOverflow(s, now)
  }

  function PlainCut(s: State, now: int, id: string, count: nat, drawn: set<string>): (r: State)
    requires count <= |Drained(s)|
  {
    s.(pending := Drained(s), queue := [], clock := now, ids := s.ids + drawn,
       flight := Some(Flight(PlainBatch(s, Draw(id, now), count), count, None, |s.accepted|)))
  }

  function CoverageCutStep(s: State, now: int, id: string): (r: State) {
    s.(pending := Drained(s), queue := [], clock := now, ids := s.ids + {id},
       flight := Some(Flight(CoverageBatch(s, Draw(id, now)), |Drained(s)|, Some(CoverageMarker(s, now, id)),
                             |s.accepted|)))
  }

  function RetryStep(s: State, now: int, transmitted: bool): (r: State)
    requires s.flight.Some?
  {
    MarkOutage(s, now).(sent := if transmitted then s.sent + [s.flight.value.batch] else s.sent)
  }

  function RejectReportedStep(c: Config, s: State, now: int, occurred: int): (r: State)
    requires s.flight.Some?
  {
    var rejected := RejectStep(s, now);
    rejected.(pending := [RejectedReport(c, s.sequence, s.flight.value.count, occurred)] + rejected.pending,
              clock := occurred)
  }

  function FinishStep(s: State, stored: bool): (r: State) {
    s.(finished := true, clean := stored && s.pending == [] && !s.degraded && !s.halted && !s.cancelled)
  }

  function Next(c: Config, s: State, a: Action): (r: State)
    requires Enabled(c, s, a)
  {
    match a
    case Enqueue(e, now) => EnqueueStep(c, s, e, now)
    case Receive => s.(pending := s.pending + [s.queue[0]], queue := s.queue[1..])
    case CutIdle(now) => s.(pending := Drained(s), queue := [], clock := now)
    case CutFail(now, _, _) => Halt(s.(pending := Drained(s), queue := [], clock := now))
    case CutPlain(now, id, count, plan) => PlainCut(s, now, id, count, DrawnIDs(Draws(plan, now, id)))
    case CutCoverage(_, now, id) => CoverageCutStep(s, now, id)
    case Retry(now, transmitted) => RetryStep(s, now, transmitted)
    case Accept(now, dates) => AcceptStep(c, s, now, dates)
    case AcceptUnreported(now) => Halt(Acknowledge(c, s).(clock := now))
    case Reject(now, occurred) => RejectReportedStep(c, s, now, occurred)
    case RejectUnreported(now) => Halt(RejectStep(s, now))
    case Fatal => Halt(s)
    case GiveUp => s.(flight := None)
    case Close => s.(closed := true)
    case Cancel => s.(cancelled := true)
    case Finish(stored) => FinishStep(s, stored)
  }
}
