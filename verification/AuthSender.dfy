/** The sender as the source runs it: one object whose methods update its fields step by step.
    Every method is proved to be exactly one step of the state machine, so all results about runs apply. */
module AuthSender {
  import opened Prelude
  import opened Sender
  import opened SenderInvariants
  import opened SenderHealth
  import opened SenderCoverage
  import opened SenderClaims
  import opened SenderRuns

  datatype HealthAccumulator = HealthAccumulator(overflowCount: nat, overflowStart: int, outageStart: int)

  const NO_HEALTH := HealthAccumulator(0, 0, 0)

  function SaturatingAdd(left: nat, right: nat): (n: nat)
    ensures n == Min(left + right, MAX_SAFE_INTEGER)
  {
    if left >= MAX_SAFE_INTEGER || right >= MAX_SAFE_INTEGER - left then MAX_SAFE_INTEGER else left + right
  }

  /** The earlier of two instants, where zero stands for none. */
  function EarliestTime(left: int, right: int): (t: int)
    ensures t == left || t == right
    ensures (left != 0 ==> 0 != t <= left) && (right != 0 ==> 0 != t <= right)
  {
    if left == 0 || (right != 0 && right < left) then right else left
  }

  datatype History = History(
    drops: nat, sent: seq<Batch>, disposed: seq<Disposal>, markers: seq<Commit>, ids: set<string>)

  datatype EnqueueResult = EnqueueAccepted | EnqueueDegraded | EnqueueDropped

  /** The loop of `healthRecoveryBoundary`. */
  method FindRecoveryBoundary(records: seq<Record>, epoch: string) returns (boundary: Option<int>)
    ensures boundary == RecoveryBoundary(records, epoch)
  {
    boundary := None;
    assert records[..0] == [];
    for k := 0 to |records|
      invariant boundary == RecoveryBoundary(records[..k], epoch)
    {
      assert records[..k + 1][..k] == records[..k] && records[..k + 1][k] == records[k];
      if records[k].HealthRecord? && records[k].health.epoch == epoch {
        var candidate := Boundary(records[k].health);
        if boundary.None? || candidate > boundary.value {
          boundary := Some(candidate);
        }
      }
    }
    assert records[..|records|] == records;
  }

  lemma EnqueueEffect(c: Config, s: State, e: Event, now: int)
    requires Enabled(c, s, Enqueue(e, now))
    ensures Next(c, s, Enqueue(e, now)) == EnqueueStep(c, s, e, now)
  {
  }

  lemma AttemptEffect(c: Config, s: State, a: Action)
    requires Enabled(c, s, a)
    ensures a.Retry? ==> Next(c, s, a) == RetryStep(s, a.now, a.transmitted)
    ensures a.Accept? ==> Next(c, s, a) == AcceptStep(c, s, a.now, a.dates)
    ensures a.AcceptUnreported? ==> Next(c, s, a) == Halt(Acknowledge(c, s).(clock := a.now))
    ensures a.Reject? ==> Next(c, s, a) == RejectReportedStep(c, s, a.now, a.occurred)
    ensures a.RejectUnreported? ==> Next(c, s, a) == Halt(RejectStep(s, a.now))
    ensures a.Fatal? ==> Next(c, s, a) == Halt(s)
  {
  }

  /** The last part of an accepted step, on a state whose batch has already left. */
  ghost function AfterReport(c: Config, s: State, hasHealth: bool, now: int, dates: Dates): (r: State) {
    var reports := HealthRecords(c, s, now, dates);
    s.(pending := reports + s.pending,
       degraded := s.degraded && !(reports == [] && hasHealth && !ContainsHealth(s.pending)),
       overflowCount := 0, overflowStart := 0, outageStart := 0, clock := dates.recovered)
  }

  lemma AcceptReported(c: Config, s: State, now: int, dates: Dates)
    requires s.flight.Some?
    ensures AcceptStep(c, s, now, dates)
         == AfterReport(c, Acknowledge(c, s), ContainsHealth(s.flight.value.batch.records), now, dates)
  {
    hide RecoveryBoundary, StartTime, ContainsHealth;
  }

  lemma CountBounded(c: Config, s: State)
    requires Inv(c, s)
    ensures s.overflowCount <= MAX_SAFE_INTEGER
  {
    hide Conserved, Carried, Numbered, Accounted, Answered, Chained, Segmented, Dated, Covering, Clean;
  }

  lemma NothingLeft(c: Config, s: State)
    requires Inv(c, s)
    ensures !s.degraded ==> s.overflowCount == 0 && s.outageStart == 0 && !s.halted
  {
    hide Conserved, Carried, Numbered, Accounted, Answered, Chained, Dated, Covering, Clean, ContainsHealth;
    assert Flagged(s);
  }

  /** Reports that were not needed count as dated at once. */
  function DatesAt(now: int, dates: Option<Dates>): (r: Dates) {
    if dates.Some? then dates.value else Dates(now, now, now)
  }

  /** What a cut came to. */
  datatype Built =
    | Nothing
    | Failed
    | Plain(now: int, id: string, count: nat, plan: Plan)
    | Covered(now: int, id: string)

  ghost function ActionOf(decided: int, cover: Option<Draw>, supply: seq<Option<Draw>>, b: Built): (a: Action) {
    match b
    case Nothing => CutIdle(decided)
    case Failed => CutFail(decided, cover, supply)
    case Plain(now, id, count, plan) => CutPlain(now, id, count, plan)
    case Covered(now, id) => CutCoverage(decided, now, id)
  }

  /** The effect of a cut on a state whose queue is already drained. */
  ghost predicate Explains(c: Config, d: State, decided: int, cover: Option<Draw>, supply: seq<Option<Draw>>, b: Built,
                           t: State) {
    match b
    case Nothing => t == d.(clock := decided) && d.pending == [] && !CanAttachCoverage(c, d, [], decided)
    case Failed => t == Halt(d.(clock := decided)) && Unbuildable(c, d, decided, cover, supply)
    case Plain(now, id, count, plan) =>
      decided <= now && d.sequence <= MAX_SAFE_INTEGER && 1 <= count <= Min(|Drained(d)|, c.batchSize)
      && Chosen(c, d, now, id, count, plan) && t == PlainCut(d, now, id, count, DrawnIDs(Draws(plan, now, id)))
    case Covered(now, id) =>
      decided <= now && d.sequence <= MAX_SAFE_INTEGER && CanAttachCoverage(c, d, Drained(d), decided)
      && id !in d.ids && id != EPOCH_START && Fits(c, CoverageBatch(d, Draw(id, now)))
      && t == CoverageCutStep(d, now, id)
  }

  /** What a cut reads does not depend on where the records wait. */
  lemma SameCut(c: Config, s: State, d: State)
    requires d == s.(pending := Drained(s), queue := [])
    ensures Drained(d) == Drained(s)
    ensures forall x: Draw :: CoverageBatch(d, x) == CoverageBatch(s, x)
    ensures forall x: Draw, n: nat | n <= |Drained(s)| :: PlainBatch(d, x, n) == PlainBatch(s, x, n)
    ensures forall records, now :: CanAttachCoverage(c, d, records, now) == CanAttachCoverage(c, s, records, now)
    ensures forall decided, draws :: FreshDraws(d, decided, draws) == FreshDraws(s, decided, draws)
  {
    hide CutTime, ContainsHealth;
    assert d.pending + [] == d.pending;
  }

  lemma SameChoice(c: Config, s: State, d: State, now: int, id: string, count: nat, plan: Plan)
    requires d == s.(pending := Drained(s), queue := []) && 1 <= count <= Min(|Drained(d)|, c.batchSize)
    requires Chosen(c, d, now, id, count, plan)
    ensures count <= Min(|Drained(s)|, c.batchSize) && Chosen(c, s, now, id, count, plan)
  {
    hide CoverageBatch, PlainBatch, CanAttachCoverage, FreshDraws, Draws, Fits;
    SameCut(c, s, d);
  }

  lemma SameFailure(c: Config, s: State, d: State, decided: int, cover: Option<Draw>, supply: seq<Option<Draw>>)
    requires d == s.(pending := Drained(s), queue := [])
    ensures Unbuildable(c, d, decided, cover, supply) == Unbuildable(c, s, decided, cover, supply)
  {
    hide CoverageBatch, PlainBatch, CanAttachCoverage, FreshDraws, Fits;
    SameCut(c, s, d);
    var first := Min(|Drained(s)|, c.batchSize);
    forall k | 0 <= k < first && Drawn(supply, k)
      ensures PlainBatch(d, supply[k].value, first - k) == PlainBatch(s, supply[k].value, first - k)
    {
      assert supply[k].Some?;
    }
    assert NoneFits(c, d, supply) == NoneFits(c, s, supply);
  }

  /** Seen from before the drain, the cut is one step of the machine. */
  lemma BuiltIsAction(c: Config, before: State, decided: int, cover: Option<Draw>, supply: seq<Option<Draw>>, b: Built,
                      t: State)
    requires Idle(before) && c.batchSize <= |supply| && Supplied(before, decided, cover, supply)
    requires Explains(c, before.(pending := Drained(before), queue := []), decided, cover, supply, b, t)
    ensures Enabled(c, before, ActionOf(decided, cover, supply, b))
    ensures t == Next(c, before, ActionOf(decided, cover, supply, b))
  {
    hide CoverageBatch, PlainBatch, CanAttachCoverage, Fits, Chosen, DrawnIDs, CoverageMarker, Unbuildable, Supplied;
    if b.Plain? || b.Covered? {
      LaunchIsAction(c, before, decided, cover, supply, b, t);
    } else {
      var d := before.(pending := Drained(before), queue := []);
      SameCut(c, before, d);
      SuppliedLater(before, decided, cover, supply);
      SameFailure(c, before, d, decided, cover, supply);
    }
  }

  lemma LaunchIsAction(c: Config, before: State, decided: int, cover: Option<Draw>, supply: seq<Option<Draw>>, b: Built,
                       t: State)
    requires Idle(before) && Supplied(before, decided, cover, supply) && (b.Plain? || b.Covered?)
    requires Explains(c, before.(pending := Drained(before), queue := []), decided, cover, supply, b, t)
    ensures Enabled(c, before, ActionOf(decided, cover, supply, b))
    ensures t == Next(c, before, ActionOf(decided, cover, supply, b))
  {
    hide CoverageBatch, PlainBatch, CanAttachCoverage, FreshDraws, Draws, Fits, Chosen, DrawnIDs, CoverageMarker,
      Unbuildable, Supplied;
    var d := before.(pending := Drained(before), queue := []);
    SameCut(c, before, d);
    SuppliedLater(before, decided, cover, supply);
    if b.Plain? {
      SameChoice(c, before, d, b.now, b.id, b.count, b.plan);
    } else {
      SameMarker(before, d, b.now, b.id);
    }
  }

  lemma SameSupply(s: State, d: State, decided: int, cover: Option<Draw>, supply: seq<Option<Draw>>)
    requires d == s.(pending := Drained(s), queue := [])
    ensures Supplied(d, decided, cover, supply) == Supplied(s, decided, cover, supply)
  {
    assert forall x: Draw :: Usable(d, decided, x) == Usable(s, decided, x);
  }

  /** A plain batch or one with a marker goes into flight. */
  lemma CutsLaunch(c: Config, d: State, decided: int, cover: Option<Draw>, supply: seq<Option<Draw>>, b: Built,
                   t: State)
    requires b.Plain? || b.Covered? ==> Explains(c, d, decided, cover, supply, b, t)
    ensures b.Plain? || b.Covered? ==> t.flight.Some?
  {
    hide Chosen, CoverageBatch, PlainBatch, Fits, CanAttachCoverage, Unbuildable;
  }

  lemma CoverUsable(s: State, decided: int, cover: Option<Draw>, supply: seq<Option<Draw>>)
    requires Supplied(s, decided, cover, supply)
    ensures cover.Some? ==> Usable(s, decided, cover.value)
  {
  }

  lemma SupplyWithoutCover(s: State, decided: int, cover: Option<Draw>, supply: seq<Option<Draw>>)
    requires Supplied(s, decided, cover, supply)
    ensures Supplied(s, decided, None, supply)
  {
    hide Usable, Precedes;
  }

  /** Where the sequence lasts and no marker was attached, failing depends on what is pending. */
  lemma UncoveredFailure(c: Config, d: State, decided: int, want: bool, cover: Option<Draw>, supply: seq<Option<Draw>>)
    requires d.queue == [] && d.sequence <= MAX_SAFE_INTEGER && want == CanAttachCoverage(c, d, d.pending, decided)
    requires want ==> cover.Some? && !Fits(c, CoverageBatch(d, cover.value))
    ensures Unbuildable(c, d, decided, cover, supply) <==> if d.pending == [] then want else NoneFits(c, d, supply)
  {
    hide CanAttachCoverage, CoverageBatch, Fits, NoneFits;
    assert Drained(d) == d.pending;
  }

  /** Decided before any batch is tried: nothing can be built, or the marker fits. */
  lemma EarlyVerdict(c: Config, d: State, decided: int, cover: Option<Draw>, supply: seq<Option<Draw>>)
    requires d.queue == []
    ensures var want := CanAttachCoverage(c, d, d.pending, decided);
      && (d.sequence > MAX_SAFE_INTEGER || (want && cover.None?) ==> Unbuildable(c, d, decided, cover, supply))
      && (d.sequence <= MAX_SAFE_INTEGER && want && cover.Some? && Fits(c, CoverageBatch(d, cover.value))
          ==> !Unbuildable(c, d, decided, cover, supply))
  {
    hide CanAttachCoverage, CoverageBatch, Fits, NoneFits;
    assert Drained(d) == d.pending;
  }

  lemma SuppliedLater(s: State, decided: int, cover: Option<Draw>, supply: seq<Option<Draw>>)
    requires Supplied(s, decided, cover, supply)
    ensures s.clock <= decided
  {
  }

  lemma SameMarker(s: State, d: State, now: int, id: string)
    requires d == s.(pending := Drained(s), queue := [])
    ensures CoverageMarker(d, now, id) == CoverageMarker(s, now, id)
  {
  }

  class AuthSender {
    const config: Config

    var queue: seq<Record>
    var closed: bool
    var pending: seq<Record>
    var sequence: nat
    var current: Option<Flight>
    var degraded: bool
    var halted: bool
    var cancelled: bool
    var finished: bool
    var cleanCheckpoint: bool
    var health: HealthAccumulator
    var segment: string
    var coverageStart: int
    var previous: Option<Marker>
    var clock: int

    // what an observer of the run has seen
    var accepted: seq<Accepted>
    ghost var history: History

    ghost function View(): (s: State)
      reads this
    {
      State(queue, closed, pending, sequence, current, degraded, halted, cancelled, finished, cleanCheckpoint,
            health.overflowCount, health.overflowStart, health.outageStart, segment, coverageStart, previous,
            clock, accepted, history.drops, history.sent, history.disposed, history.markers, history.ids)
    }

    ghost predicate Valid()
      reads this
    {
      Inv(config, View())
    }

    /** `New`: the first segment starts at the next full millisecond; an unclean predecessor is reported first. */
    constructor (config: Config, now: int, restartOf: Option<string>)
      requires now > 0
      ensures Valid() && View() == Init(config, now, restartOf) && this.config == config
    {
      this.config := config;
      closed, halted, cancelled, finished, cleanCheckpoint := false, false, false, false, false;
      pending, sequence, current := [], 1, None;
      health := NO_HEALTH;
      segment, coverageStart, previous := EPOCH_START, StartTime(now), None;
      clock, accepted, history := now, [], History(0, [], [], [], {});
      if restartOf.Some? {
        degraded := true;
        queue := [HealthRecord(Health(UncleanRestart, restartOf.value, now, None, None, 0))];
      } else {
        degraded := false;
        queue := [];
      }
      new;
      InitInv(config, now, restartOf);
    }

    // ---- small updates ----

    method RecordFullQueue(now: int)
      modifies this`clock, this`health, this`history, this`degraded
      ensures View() == RecordOverflow(old(View()), now)
    {
      clock := now;
      health := health.(
        overflowCount :=
          if health.overflowCount < MAX_SAFE_INTEGER then health.overflowCount + 1 else health.overflowCount,
        overflowStart := if health.overflowStart == 0 then now else health.overflowStart);
      history := history.(drops := history.drops + 1);
      degraded := true;
    }

    method NoteOutage(now: int)
      modifies this`clock, this`health, this`degraded
      ensures View() == MarkOutage(old(View()), now)
    {
      clock := now;
      health := health.(outageStart := if health.outageStart == 0 then now else health.outageStart);
      degraded := true;
    }

    method HaltDelivery()
      modifies this`degraded, this`halted, this`current
      ensures View() == Halt(old(View()))
    {
      degraded := true;
      halted := true;
      current := None;
    }

    // ---- the producer side ----

    method TryEnqueue(event: Event, now: int) returns (r: EnqueueResult)
      requires Valid() && clock <= now
      modifies this
      ensures View() == Next(config, old(View()), Enqueue(event, now)) && Valid()
      ensures r == (if old(closed) || old(halted) || |old(queue)| >= config.capacity then EnqueueDropped
                    else if old(degraded) then EnqueueDegraded else EnqueueAccepted)
    {
      hide Inv, Next, RecordOverflow;
      StepInv(config, View(), Enqueue(event, now));
      EnqueueEffect(config, View(), event, now);
      if closed || halted {
        clock := now;
        return EnqueueDropped;
      }
      if |queue| < config.capacity {
        clock := now;
        queue := queue + [EventRecord(event)];
        accepted := accepted + [Accepted(event, now)];
        return if degraded then EnqueueDegraded else EnqueueAccepted;
      }
      RecordFullQueue(now);
      return EnqueueDropped;
    }

    method CloseQueue()
      requires Valid()
      modifies this
      ensures View() == Next(config, old(View()), Close) && Valid()
    {
      hide Inv;
      StepInv(config, View(), Close);
      closed := true;
    }

    // ---- the worker ----

    /** The worker takes one record from the queue. */
    method ReceiveOne()
      requires Valid() && Idle(View()) && queue != []
      modifies this
      ensures View() == Next(config, old(View()), Receive) && Valid()
    {
      hide Inv;
      StepInv(config, View(), Receive);
      pending := pending + [queue[0]];
      queue := queue[1..];
    }

    /** The loop of `buildBatchWithCoverage`: fewer and fewer records until the body fits. No result means
        that no identifier could be drawn or that not even one record fits. */
    method FitPlain(supply: seq<Option<Draw>>) returns (f: Option<Draw>, misses: seq<Draw>)
      requires queue == [] && pending != [] && 1 <= config.batchSize <= |supply|
      ensures |misses| <= Min(|pending|, config.batchSize) && (f.None? <==> NoneFits(config, View(), supply))
      ensures forall k | 0 <= k < |misses| ::
        supply[k] == Some(misses[k])
          && !Fits(config, PlainBatch(View(), misses[k], Min(|pending|, config.batchSize) - k))
      ensures f.Some? ==>
        && |misses| < Min(|pending|, config.batchSize) && supply[|misses|] == f
        && Fits(config, PlainBatch(View(), f.value, Min(|pending|, config.batchSize) - |misses|))
    {
      hide CutTime, Fits;
      assert Drained(View()) == pending;
      var first := if |pending| < config.batchSize then |pending| else config.batchSize;
      misses := [];
      while |misses| < first
        invariant |misses| <= first
        invariant forall k | 0 <= k < |misses| ::
          supply[k] == Some(misses[k]) && !Fits(config, PlainBatch(View(), misses[k], first - k))
      {
        var d, count := supply[|misses|], first - |misses|;
        if d.None? {
          return None, misses;
        }
        if Fits(config, Batch(d.value.id, sequence, CutTime(d.value.at), pending[..count])) {
          assert Drawn(supply, |misses|);
          return d, misses;
        }
        misses := misses + [d.value];
      }
      return None, misses;
    }

    /** A batch of everything pending with its marker, if the body fits. */
    method AttachMarker(d: Draw) returns (built: bool)
      requires queue == []
      modifies this`current, this`clock, this`history
      ensures built == Fits(config, CoverageBatch(old(View()), d))
      ensures View() == if built then CoverageCutStep(old(View()), d.at, d.id) else old(View())
    {
      hide CutTime, Fits;
      var marker := Marker(segment, previous, coverageStart, CutTime(d.at), d.id, sequence);
      var batch := Batch(d.id, sequence, CutTime(d.at), pending + [CoverageRecord(marker)]);
      assert Drained(View()) == pending;
      built := Fits(config, batch);
      if built {
        current := Some(Flight(batch, |pending|, Some(marker), |accepted|));
        clock := d.at;
        history := history.(ids := history.ids + {d.id});
      }
    }

    /** A failed build halts delivery. */
    method FailBuild(decided: int) returns (b: Built)
      modifies this`current, this`clock, this`degraded, this`halted
      ensures b == Failed && View() == Halt(old(View()).(clock := decided))
    {
      clock := decided;
      HaltDelivery();
      return Failed;
    }

    /** The chosen records go into flight. */
    method LaunchPlain(d: Draw, count: nat, plan: Plan)
      requires queue == [] && count <= |pending|
      modifies this`current, this`clock, this`history
      ensures count <= |Drained(old(View()))|
      ensures View() == PlainCut(old(View()), d.at, d.id, count, DrawnIDs(Draws(plan, d.at, d.id)))
    {
      hide CutTime, DrawnIDs, Draws;
      assert Drained(View()) == pending;
      current := Some(Flight(Batch(d.id, sequence, CutTime(d.at), pending[..count]), count, None, |accepted|));
      clock := d.at;
      history := history.(ids := history.ids + DrawnIDs(Draws(plan, d.at, d.id)));
    }

    /** A batch without a marker; `cover` is the marker that was wanted and did not fit. */
    method BuildPlain(decided: int, cover: Option<Draw>, supply: seq<Option<Draw>>) returns (b: Built)
      requires queue == [] && pending != [] && sequence <= MAX_SAFE_INTEGER
      requires 1 <= config.batchSize <= |supply| && Supplied(View(), decided, cover, supply)
      requires cover.Some? <==> CanAttachCoverage(config, View(), Drained(View()), decided)
      requires cover.Some? ==> !Fits(config, CoverageBatch(View(), cover.value))
      modifies this`current, this`clock, this`degraded, this`halted, this`history
      ensures b.Failed? || b.Plain?
      ensures b.Failed? <==> NoneFits(config, old(View()), supply)
      ensures b.Failed? ==> View() == Halt(old(View()).(clock := decided))
      ensures b.Plain? ==> Explains(config, old(View()), decided, cover, supply, b, View())
    {
      hide CutTime, CanAttachCoverage, CoverageBatch, PlainBatch, Fits, FreshDraws, PlainCut, DrawnIDs, NoneFits;
      assert Drained(View()) == pending;
      var f, misses := FitPlain(supply);
      if f.None? {
        b := FailBuild(decided);
      } else {
        var first := if |pending| < config.batchSize then |pending| else config.batchSize;
        var count, plan := first - |misses|, Plan(decided, cover, misses);
        DrawsAreFresh(decided, cover, supply, misses, f.value);
        assert Chosen(config, View(), f.value.at, f.value.id, count, plan);
        hide Chosen;
        LaunchPlain(f.value, count, plan);
        b := Plain(f.value.at, f.value.id, count, plan);
      }
    }

    /** What was drawn for the attempts up to the one that fits is fresh. */
    lemma DrawsAreFresh(decided: int, cover: Option<Draw>, supply: seq<Option<Draw>>, misses: seq<Draw>, last: Draw)
      requires Supplied(View(), decided, cover, supply) && |misses| < |supply|
      requires (forall k | 0 <= k < |misses| :: supply[k] == Some(misses[k])) && supply[|misses|] == Some(last)
      ensures FreshDraws(View(), decided, Draws(Plan(decided, cover, misses), last.at, last.id))
    {
      var plain := misses + [last];
      assert forall k | 0 <= k < |plain| :: supply[k] == Some(plain[k]);
      var draws := Draws(Plan(decided, cover, misses), last.at, last.id);
      assert draws == (if cover.Some? then [cover.value] else []) + plain;
    }

    /** The rest of `buildBatchWithCoverage` when no marker was attached: `want` tells whether one did not fit. */
    method BuildUncovered(decided: int, want: bool, cover: Option<Draw>, supply: seq<Option<Draw>>) returns (b: Built)
      requires queue == [] && sequence <= MAX_SAFE_INTEGER
      requires 1 <= config.batchSize <= |supply| && Supplied(View(), decided, cover, supply)
      requires want == CanAttachCoverage(config, View(), pending, decided)
      requires want ==> cover.Some? && !Fits(config, CoverageBatch(View(), cover.value))
      modifies this`current, this`clock, this`degraded, this`halted, this`history
      ensures Explains(config, old(View()), decided, cover, supply, b, View()) && !b.Covered?
      ensures b.Nothing? <==> old(pending) == [] && !want
      ensures b.Failed? <==> Unbuildable(config, old(View()), decided, cover, supply)
    {
      hide CutTime, MayAttach, CoverageBatch, Fits, Chosen, PlainCut, FreshDraws, DrawnIDs, Draws, NoneFits,
        Unbuildable, Supplied;
      assert Drained(View()) == pending;
      UncoveredFailure(config, View(), decided, want, cover, supply);
      SupplyWithoutCover(View(), decided, cover, supply);
      if pending != [] {
        b := BuildPlain(decided, if want then cover else None, supply);
      } else if want {
        b := FailBuild(decided);
      } else {
        clock := decided;
        b := Nothing;
      }
    }

    /** `buildBatchWithCoverage` on the drained list. It fails exactly when nothing can be built; otherwise there is
        a batch whenever something is pending or a marker is wanted, and with the marker if that fits. */
    method BuildBatch(decided: int, cover: Option<Draw>, supply: seq<Option<Draw>>) returns (b: Built)
      requires queue == [] && 1 <= config.batchSize <= |supply| && Supplied(View(), decided, cover, supply)
      modifies this`current, this`clock, this`degraded, this`halted, this`history
      ensures Explains(config, old(View()), decided, cover, supply, b, View())
      ensures b.Failed? <==> Unbuildable(config, old(View()), decided, cover, supply)
      ensures b.Nothing? || b.Failed? || current.Some?
      ensures !b.Failed? ==>
        && (b.Nothing? <==> old(pending) == [] && !CanAttachCoverage(config, old(View()), old(pending), decided))
        && (b.Covered? <==>
              CanAttachCoverage(config, old(View()), old(pending), decided) && cover.Some?
              && Fits(config, CoverageBatch(old(View()), cover.value)))
    {
      hide CutTime, MayAttach, CoverageCutStep, CoverageBatch, Fits, Chosen, PlainCut, FreshDraws, DrawnIDs, Draws,
        NoneFits, Supplied, Precedes, Unbuildable;
      assert Drained(View()) == pending;
      EarlyVerdict(config, View(), decided, cover, supply);
      CoverUsable(View(), decided, cover, supply);
      var want := MayAttach(config, degraded, coverageStart, previous, pending, decided);
      if sequence > MAX_SAFE_INTEGER || (want && cover.None?) {
        b := FailBuild(decided);
        return;
      }
      if want {
        var fits := AttachMarker(cover.value);
        if fits {
          b := Covered(cover.value.at, cover.value.id);
          CutsLaunch(config, old(View()), decided, cover, supply, b, View());
          return;
        }
      }
      b := BuildUncovered(decided, want, cover, supply);
      CutsLaunch(config, old(View()), decided, cover, supply, b, View());
    }

    /** The producer cut of `flush`: under the lock, drain the queue and build the batch. */
    method CutBatch(decided: int, cover: Option<Draw>, supply: seq<Option<Draw>>) returns (ghost a: Action)
      requires Valid() && Idle(View()) && 1 <= config.batchSize <= |supply| && Supplied(View(), decided, cover, supply)
      modifies this
      ensures a.CutIdle? || a.CutFail? || a.CutPlain? || a.CutCoverage?
      ensures Enabled(config, old(View()), a) && View() == Next(config, old(View()), a) && Valid()
      ensures a.CutFail? <==> Unbuildable(config, old(View()), decided, cover, supply)
      ensures !a.CutFail? && (old(pending + queue) != [] || CanAttachCoverage(config, old(View()), [], decided))
        ==> current.Some?
    {
      hide Inv, Next, Explains, Enabled, Unbuildable, Supplied, CanAttachCoverage;
      ghost var before := View();
      pending := pending + queue;
      queue := [];
      ghost var drained := View();
      SameCut(config, before, drained);
      SameFailure(config, before, drained, decided, cover, supply);
      SameSupply(before, drained, decided, cover, supply);
      var b := BuildBatch(decided, cover, supply);
      a := ActionOf(decided, cover, supply, b);
      BuiltIsAction(config, before, decided, cover, supply, b, View());
      StepInv(config, before, a);
    }

    // ---- one delivery attempt ----

    /** No verdict: the outage is remembered and the same batch stays in flight. */
    method KeepTrying(now: int, transmitted: bool)
      requires Valid() && Delivering(View()) && clock <= now
      modifies this
      ensures View() == Next(config, old(View()), Retry(now, transmitted)) && Valid()
    {
      hide Inv, Next;
      StepInv(config, View(), Retry(now, transmitted));
      AttemptEffect(config, View(), Retry(now, transmitted));
      if transmitted {
        history := history.(sent := history.sent + [current.value.batch]);
      }
      NoteOutage(now);
    }

    /** The verdict is in: the batch leaves the pending list and its number is used up. */
    method Settle(acknowledged: bool)
      requires current.Some?
      modifies this`sequence, this`pending, this`current, this`history
      ensures sequence == old(sequence) + 1 && current == None
      ensures var f := old(current).value;
        && pending == (if f.count <= |old(pending)| then old(pending)[f.count..] else [])
        && history == old(history).(sent := old(history.sent) + [f.batch],
                                    disposed := old(history.disposed) + [Disposal(f.batch, f.count, acknowledged)])
    {
      var f := current.value;
      sequence := sequence + 1;
      pending := if f.count <= |pending| then pending[f.count..] else [];
      current := None;
      history := history.(sent := history.sent + [f.batch],
                          disposed := history.disposed + [Disposal(f.batch, f.count, acknowledged)]);
    }

    /** `commitCoverage`, then `resetCoverageAfterHealth`: a delivered marker moves the chain on, and
        delivered health about this epoch opens a new segment. */
    method MoveCoverage(f: Flight, ghost index: nat)
      modifies this`segment, this`coverageStart, this`previous, this`history
      ensures var boundary := RecoveryBoundary(f.batch.records, config.epoch);
        && segment == (if boundary.Some? then f.batch.id else old(segment))
        && coverageStart == (if boundary.Some? then StartTime(boundary.value)
                             else if f.marker.Some? then f.marker.value.end else old(coverageStart))
        && previous == (if boundary.Some? then None else if f.marker.Some? then f.marker else old(previous))
      ensures history == old(history).(
        markers := if f.marker.Some? then old(history.markers) + [Commit(f.marker.value, index, f.cut)]
          else old(history.markers))
    {
      hide RecoveryBoundary, StartTime;
      if f.marker.Some? {
        previous := f.marker;
        coverageStart := f.marker.value.end;
        history := history.(markers := history.markers + [Commit(f.marker.value, index, f.cut)]);
      }
      var boundary := FindRecoveryBoundary(f.batch.records, config.epoch);
      if boundary.Some? {
        segment := f.batch.id;
        coverageStart := StartTime(boundary.value);
        previous := None;
      }
    }

    method AcknowledgeCurrent()
      requires current.Some?
      modifies this`sequence, this`pending, this`current, this`history, this`segment, this`coverageStart, this`previous
      ensures View() == Acknowledge(config, old(View()))
    {
      hide RecoveryBoundary, StartTime;
      var f := current.value;
      ghost var index := |history.disposed|;
      Settle(true);
      MoveCoverage(f, index);
    }

    /** `restoreHealth`: what was taken is merged with what has been recorded since. */
    method RestoreHealth(snapshot: HealthAccumulator)
      modifies this`health, this`degraded
      ensures degraded && health.overflowCount == SaturatingAdd(old(health.overflowCount), snapshot.overflowCount)
      ensures health.overflowStart == EarliestTime(old(health.overflowStart), snapshot.overflowStart)
      ensures health.outageStart == EarliestTime(old(health.outageStart), snapshot.outageStart)
      ensures old(health) == NO_HEALTH && snapshot.overflowCount <= MAX_SAFE_INTEGER ==> health == snapshot
    {
      health := HealthAccumulator(SaturatingAdd(health.overflowCount, snapshot.overflowCount),
                                  EarliestTime(health.overflowStart, snapshot.overflowStart),
                                  EarliestTime(health.outageStart, snapshot.outageStart));
      degraded := true;
    }

    /** `takeHealthRecords`: empty the accumulator into reports. No `dates` means that a report could not be
        made; the accumulator is then restored, and as nothing can be recorded in between it is as it was. */
    method TakeHealthRecords(ended: int, dates: Option<Dates>) returns (r: Option<seq<Record>>)
      requires health.overflowCount <= MAX_SAFE_INTEGER
      modifies this`health, this`degraded
      ensures r.Some? == (dates.Some? || (old(health.overflowCount) == 0 && old(health.outageStart) == 0))
      ensures r.None? ==> health == old(health) && degraded
      ensures r.Some? ==> health == NO_HEALTH && degraded == old(degraded)
      ensures r.Some? ==> r.value == HealthRecords(config, old(View()), ended, DatesAt(ended, dates))
    {
      var snapshot := health;
      health := NO_HEALTH;
      if snapshot.overflowCount == 0 && snapshot.outageStart == 0 {
        return Some([]);
      }
      if dates.None? {
        RestoreHealth(snapshot);
        return None;
      }
      var records, earliest := [], ended;
      if snapshot.overflowCount > 0 {
        var started := if snapshot.overflowStart == 0 then ended else snapshot.overflowStart;
        if started < earliest {
          earliest := started;
        }
        records := records + [HealthRecord(Health(QueueOverflow, config.epoch, dates.value.overflow, None,
                                                  Some(Interval(started, ended)), snapshot.overflowCount))];
      }
      if snapshot.outageStart != 0 {
        if snapshot.outageStart < earliest {
          earliest := snapshot.outageStart;
        }
        records := records + [HealthRecord(Health(DeliveryOutage, config.epoch, dates.value.outage, None,
                                                  Some(Interval(snapshot.outageStart, ended)), 0))];
      }
      records := records + [HealthRecord(Health(Recovered, config.epoch, dates.value.recovered, None,
                                                Some(Interval(earliest, ended)), 0))];
      return Some(records);
    }

    /** New reports go to the front; without any, delivered health that leaves none behind ends the degraded state. */
    method Resume(reports: seq<Record>, hasHealth: bool, at: int)
      modifies this`pending, this`degraded, this`clock
      ensures clock == at && pending == reports + old(pending)
      ensures degraded == (old(degraded) && !(reports == [] && hasHealth && !ContainsHealth(old(pending))))
    {
      if reports != [] {
        pending := reports + pending;
      } else if hasHealth && !ContainsHealth(pending) {
        degraded := false;
      }
      clock := at;
    }

    /** Everything after the acknowledged batch is gone from the list. */
    method ReportHealth(hasHealth: bool, now: int, dates: Option<Dates>) returns (reported: bool)
      requires health.overflowCount <= MAX_SAFE_INTEGER
      modifies this`health, this`pending, this`degraded, this`halted, this`current, this`clock
      ensures reported == (dates.Some? || (old(health.overflowCount) == 0 && old(health.outageStart) == 0))
      ensures !reported ==> View() == Halt(old(View()).(clock := now))
      ensures reported ==> View() == AfterReport(config, old(View()), hasHealth, now, DatesAt(now, dates))
    {
      hide HealthRecords, ContainsHealth, DatesAt;
      var reports := TakeHealthRecords(now, dates);
      reported := reports.Some?;
      if reported {
        Resume(reports.value, hasHealth, DatesAt(now, dates).recovered);
      } else {
        clock := now;
        HaltDelivery();
      }
    }

    method FinishAccepted(now: int, dates: Option<Dates>)
      requires current.Some? && health.overflowCount <= MAX_SAFE_INTEGER
      modifies this
      ensures dates.None? && (old(health.overflowCount) > 0 || old(health.outageStart) != 0)
        ==> View() == Halt(Acknowledge(config, old(View())).(clock := now))
      ensures dates.Some? || (old(health.overflowCount) == 0 && old(health.outageStart) == 0)
        ==> View() == AcceptStep(config, old(View()), now, DatesAt(now, dates))
    {
      hide Acknowledge, AcceptStep, AfterReport, Halt, ContainsHealth, DatesAt;
      ghost var before := View();
      var hasHealth := ContainsHealth(current.value.batch.records);
      AcknowledgeCurrent();
      var _ := ReportHealth(hasHealth, now, dates);
      AcceptReported(config, before, now, DatesAt(now, dates));
    }

    /** The accepted branch of `flush`. */
    method CompleteAccepted(now: int, dates: Option<Dates>) returns (ghost a: Action)
      requires Valid() && Delivering(View()) && clock <= now
      requires dates.Some? ==> now <= dates.value.overflow <= dates.value.outage <= dates.value.recovered
      modifies this
      ensures a == (if dates.Some? || (old(health.overflowCount) == 0 && old(health.outageStart) == 0)
                    then Accept(now, DatesAt(now, dates)) else AcceptUnreported(now))
      ensures Enabled(config, old(View()), a) && View() == Next(config, old(View()), a) && Valid()
    {
      hide Inv, Next, Acknowledge, AcceptStep, Halt;
      ghost var before := View();
      a := if dates.Some? || (health.overflowCount == 0 && health.outageStart == 0)
           then Accept(now, DatesAt(now, dates)) else AcceptUnreported(now);
      StepInv(config, before, a);
      AttemptEffect(config, before, a);
      CountBounded(config, before);
      FinishAccepted(now, dates);
    }

    method RejectCurrent(now: int)
      requires current.Some?
      modifies this
      ensures View() == RejectStep(old(View()), now)
    {
      NoteOutage(now);
      Settle(false);
    }

    method FinishRejected(now: int, occurred: Option<int>)
      requires current.Some?
      modifies this
      ensures View() == if occurred.None? then Halt(RejectStep(old(View()), now))
                        else RejectReportedStep(config, old(View()), now, occurred.value)
    {
      hide RejectStep;
      var f, number := current.value, sequence;
      RejectCurrent(now);
      if occurred.None? {
        HaltDelivery();
      } else {
        pending := [RejectedReport(config, number, f.count, occurred.value)] + pending;
        clock := occurred.value;
      }
    }

    /** The rejected branch of `flush`; `occurred` is the reading the report needs, and a batch that itself
        carries health is never reported again. */
    method CompleteRejected(now: int, occurred: Option<int>) returns (ghost a: Action)
      requires Valid() && Delivering(View()) && clock <= now && (occurred.Some? ==> now <= occurred.value)
      modifies this
      ensures a == (if occurred.None? || ContainsHealth(old(current).value.batch.records) then RejectUnreported(now)
                    else Reject(now, occurred.value))
      ensures Enabled(config, old(View()), a) && View() == Next(config, old(View()), a) && Valid()
    {
      hide Inv, Next, ContainsHealth, RejectStep, RejectReportedStep, Halt;
      ghost var before := View();
      var unreported := occurred.None? || ContainsHealth(current.value.batch.records);
      a := if unreported then RejectUnreported(now) else Reject(now, occurred.value);
      StepInv(config, before, a);
      AttemptEffect(config, before, a);
      FinishRejected(now, if unreported then None else occurred);
    }

    /** The fatal branch of `flush`: delivery halts. */
    method FailDelivery()
      requires Valid() && current.Some? && !halted && !finished
      modifies this
      ensures View() == Next(config, old(View()), Fatal) && Valid()
    {
      hide Inv, Next;
      StepInv(config, View(), Fatal);
      AttemptEffect(config, View(), Fatal);
      HaltDelivery();
    }

    // ---- shutdown ----

    /** The deadline of a shutdown passes. */
    method CancelDelivery()
      requires Valid() && closed
      modifies this
      ensures View() == Next(config, old(View()), Cancel) && Valid()
    {
      hide Inv;
      StepInv(config, View(), Cancel);
      cancelled := true;
    }

    /** A cancelled delivery returns and leaves its records pending. */
    method AbandonDelivery()
      requires Valid() && current.Some? && !halted && !finished && cancelled
      modifies this
      ensures View() == Next(config, old(View()), GiveUp) && Valid()
    {
      hide Inv;
      StepInv(config, View(), GiveUp);
      current := None;
    }

    /** The end of `run`: the clean checkpoint is written only when nothing is left to tell. */
    method FinishRun(stored: bool) returns (clean: bool)
      requires Valid() && closed && current.None? && !finished && (halted || queue == [])
      modifies this
      ensures View() == Next(config, old(View()), Finish(stored)) && Valid()
      ensures clean == cleanCheckpoint
      ensures clean <==> stored && old(pending) == [] && !old(degraded) && !old(halted) && !old(cancelled)
      ensures clean ==>
        old(queue) == [] && old(pending) == [] && old(health.overflowCount) == 0 && old(health.outageStart) == 0
    {
      hide Inv;
      NothingLeft(config, View());
      StepInv(config, View(), Finish(stored));
      clean := pending == [] && !degraded && !halted && !cancelled && stored;
      finished := true;
      cleanCheckpoint := clean;
    }
  }
}
