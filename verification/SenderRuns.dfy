/** The sender over whole runs. */
module SenderRuns {
  import opened Prelude
  import opened Sender
  import opened SenderInvariants
  import opened SenderHealth
  import opened SenderCoverage
  import opened SenderClaims

  /** A clean shutdown leaves nothing behind. */
  ghost predicate Clean(s: State) {
    s.clean ==>
      s.finished && s.closed && s.pending == [] && s.queue == [] && !s.degraded && !s.halted && s.flight.None?
  }

  lemma CleanKept(c: Config, s: State, a: Action)
    requires Enabled(c, s, a) && Clean(s)
    ensures Clean(Next(c, s, a))
  {
    hide HealthRecords, RecoveryBoundary, StartTime, ContainsHealth, CanAttachCoverage, CutTime;
  }

  ghost predicate Inv(c: Config, s: State) {
    Conserved(s) && Carried(s) && Numbered(s) && Flagged(s) && Accounted(s) && Answered(s)
    && Chained(s) && Segmented(s) && Dated(c, s) && Covering(s) && Clean(s)
  }

  lemma InitLedger(c: Config, now: int, restartOf: Option<string>)
    requires now > 0
    ensures var s := Init(c, now, restartOf);
      Conserved(s) && Carried(s) && Numbered(s) && Accounted(s) && Answered(s) && Clean(s)
  {
    hide StartTime, EventsOf, OverflowSum, RecordsOf, EventsOfAll, Conserved, Accounted;
    InitConserved(c, now, restartOf);
    InitAccounted(c, now, restartOf);
  }

  lemma InitConserved(c: Config, now: int, restartOf: Option<string>)
    requires now > 0
    ensures Conserved(Init(c, now, restartOf))
  {
    hide StartTime, EventsOf, OverflowSum, RecordsOf, EventsOfAll;
    var s := Init(c, now, restartOf);
    NoEvents(s.queue);
    NoEvents([]);
    InitNothing(s.queue);
    assert EventsOf(RecordsOf(s.disposed)) == [] && EventsOf(s.pending) == [] && EventsOf(s.queue) == [];
  }

  lemma InitAccounted(c: Config, now: int, restartOf: Option<string>)
    requires now > 0
    ensures Accounted(Init(c, now, restartOf))
  {
    hide StartTime, OverflowSum, RecordsOf;
    InitNothing(Init(c, now, restartOf).queue);
  }

  lemma InitNothing(queue: seq<Record>)
    ensures RecordsOf([]) == [] && EventsOfAll([]) == [] && OverflowSum([]) == 0
    ensures |queue| <= 1 && (queue != [] ==> queue[0].HealthRecord? && queue[0].health.dropped == 0) ==>
      OverflowSum(queue) == 0
  {
    if |queue| == 1 { assert queue[1..] == []; }
  }

  lemma InitFlags(c: Config, now: int, restartOf: Option<string>)
    requires now > 0
    ensures Flagged(Init(c, now, restartOf)) && Placed(Init(c, now, restartOf))
  {
    hide StartTime;
    assert restartOf.Some? ==> Init(c, now, restartOf).queue[0].HealthRecord?;
  }

  lemma InitCoverage(c: Config, now: int, restartOf: Option<string>)
    requires now > 0
    ensures var s := Init(c, now, restartOf); Chained(s) && Segmented(s) && Dated(c, s) && Covering(s) && Separate(c, s)
  {
    hide StartTime;
    StartTimeMonotone(now, now);
    var s := Init(c, now, restartOf);
    assert forall h | Present(s, h) :: Boundary(h) == now && h.interval.None?;
  }

  /** A fresh sender, with or without an unclean restart to report. */
  lemma InitInv(c: Config, now: int, restartOf: Option<string>)
    requires now > 0
    ensures Inv(c, Init(c, now, restartOf)) && Placed(Init(c, now, restartOf)) && Separate(c, Init(c, now, restartOf))
  {
    hide Init, Conserved, Carried, Numbered, Flagged, Accounted, Answered, Chained, Segmented, Dated, Covering, Clean,
      Placed, Separate;
    InitLedger(c, now, restartOf);
    InitFlags(c, now, restartOf);
    InitCoverage(c, now, restartOf);
  }

  lemma SequenceStep(c: Config, s: State, a: Action)
    requires Enabled(c, s, a) && Carried(s)
    ensures Next(c, s, a).sequence == s.sequence + (if Finished(s, Next(c, s, a)) then 1 else 0)
  {
    hide HealthRecords, RecoveryBoundary, StartTime, ContainsHealth, CanAttachCoverage, CutTime, Enabled, Next, Carried;
    SentCases(c, s, a);
    if a.Accept? || a.AcceptUnreported? { AcceptShape(c, s, a); }
    if a.Reject? || a.RejectUnreported? { RejectShape(c, s, a); }
  }

  /** Every step keeps the invariant. */
  lemma StepInv(c: Config, s: State, a: Action)
    requires Enabled(c, s, a) && Inv(c, s)
    ensures Inv(c, Next(c, s, a))
  {
    hide Enabled, Next, Conserved, Carried, Numbered, Flagged, Accounted, Answered, Chained, Segmented, Dated,
      Covering, Clean, Shaped, Silent, Attempted, Decided, Finished;
    var s' := Next(c, s, a);
    StepShape(c, s, a);
    SequenceStep(c, s, a);
    ConservedKept(s, s');
    CarriedKept(s, s');
    SentCases(c, s, a);
    NumberedKept(s, s');
    FlaggedKept(c, s, a);
    AccountedKept(c, s, a);
    AnsweredKept(c, s, a);
    ChainedKept(c, s, a);
    SegmentedKept(c, s, a);
    DatedKept(c, s, a);
    CoveringKept(c, s, a);
    CleanKept(c, s, a);
  }

  /** `actions` is a run of the sender from `s` to `t`. */
  ghost predicate Runs(c: Config, s: State, actions: seq<Action>, t: State)
    decreases actions
  {
    if actions == [] then s == t
    else Enabled(c, s, actions[0]) && Runs(c, Next(c, s, actions[0]), actions[1..], t)
  }

  lemma {:induction false} RunInv(c: Config, s: State, actions: seq<Action>, t: State)
    requires Inv(c, s) && Runs(c, s, actions, t)
    ensures Inv(c, t)
    decreases actions
  {
    hide Enabled, Next, Inv;
    if actions != [] {
      StepInv(c, s, actions[0]);
      RunInv(c, Next(c, s, actions[0]), actions[1..], t);
    }
  }

  lemma {:induction false} RunSeparate(c: Config, s: State, actions: seq<Action>, t: State)
    requires Roomy(c) && Inv(c, s) && Placed(s) && Separate(c, s) && Runs(c, s, actions, t)
    ensures Separate(c, t)
    decreases actions
  {
    hide Enabled, Next, Conserved, Carried, Numbered, Flagged, Accounted, Answered, Chained, Segmented, Dated,
      Covering, Clean, Placed, Separate;
    if actions != [] {
      var a := actions[0];
      StepInv(c, s, a);
      PlacedKept(c, s, a);
      SeparateKept(c, s, a);
      RunSeparate(c, Next(c, s, a), actions[1..], t);
    }
  }

  /** `t` is reached by a run of a freshly started sender. */
  ghost predicate Reached(c: Config, now: int, restartOf: Option<string>, actions: seq<Action>, t: State) {
    now > 0 && Runs(c, Init(c, now, restartOf), actions, t)
  }

  lemma ReachedInv(c: Config, now: int, restartOf: Option<string>, actions: seq<Action>, t: State)
    requires Reached(c, now, restartOf, actions, t)
    ensures Inv(c, t)
  {
    hide Init, Inv, Placed, Separate;
    InitInv(c, now, restartOf);
    RunInv(c, Init(c, now, restartOf), actions, t);
  }

  // ---- the promises ----

  /** Conservation: every accepted event is in exactly one place and in order; a rejected batch is reported
      with its exact count unless the sender halted; drops are the reported overflow plus the accumulator. */
  lemma NothingIsLost(c: Config, now: int, restartOf: Option<string>, actions: seq<Action>, t: State)
    requires Reached(c, now, restartOf, actions, t)
    ensures EventsOf(RecordsOf(t.disposed)) + EventsOf(t.pending) + EventsOf(t.queue) == EventsOfAll(t.accepted)
    ensures forall d | d in t.disposed && !d.acknowledged && !t.halted ::
      |EventsOf(d.batch.records)| == d.count && LossKnown(t, d)
    ensures t.drops <= MAX_SAFE_INTEGER ==> Reported(t) + t.overflowCount == t.drops
  {
    hide Reached, Numbered, Flagged, Carried, Chained, Segmented, Dated, Covering, Clean, EventsOf, RecordsOf,
      EventsOfAll, LossKnown;
    ReachedInv(c, now, restartOf, actions, t);
  }

  /** Sequence numbers go on the wire as 1, 2, 3, ..., each with one body, through retries and shutdown. */
  lemma OneBodyPerNumber(c: Config, now: int, restartOf: Option<string>, actions: seq<Action>, t: State)
    requires Reached(c, now, restartOf, actions, t)
    ensures Consecutive(t.sent) && OneBody(t.sent)
    ensures forall k | 0 <= k < |t.disposed| :: t.disposed[k].batch.sequence == k + 1 && t.disposed[k].batch in t.sent
  {
    hide Reached, Conserved, Flagged, Carried, Accounted, Answered, Chained, Segmented, Dated, Covering, Clean,
      Consecutive, OneBody;
    ReachedInv(c, now, restartOf, actions, t);
  }

  ghost function Acknowledged(disposed: seq<Disposal>): (r: seq<Disposal>) {
    if disposed == [] then []
    else Acknowledged(disposed[..|disposed| - 1])
         + (if disposed[|disposed| - 1].acknowledged then [disposed[|disposed| - 1]] else [])
  }

  lemma {:induction false} NoHealthNoSum(records: seq<Record>)
    requires !ContainsHealth(records)
    ensures OverflowSum(records) == 0
  {
    if records != [] {
      assert !records[0].HealthRecord?;
      assert forall k | 0 <= k < |records| - 1 :: records[1..][k] == records[k + 1];
      NoHealthNoSum(records[1..]);
    }
  }

  lemma {:induction false} AcknowledgedSum(disposed: seq<Disposal>)
    requires forall d | d in disposed && !d.acknowledged :: !ContainsHealth(d.batch.records)
    ensures OverflowSum(RecordsOf(Acknowledged(disposed))) == OverflowSum(RecordsOf(disposed))
  {
    hide ContainsHealth, OverflowSum;
    if disposed != [] {
      var init, last := disposed[..|disposed| - 1], disposed[|disposed| - 1];
      AcknowledgedSum(init);
      OverflowConcat(RecordsOf(init), last.batch.records);
      if last.acknowledged {
        RecordsSnoc(Acknowledged(init), last);
        OverflowConcat(RecordsOf(Acknowledged(init)), last.batch.records);
      } else {
        assert Acknowledged(disposed) == Acknowledged(init);
        NoHealthNoSum(last.batch.records);
      }
    }
  }

  /** A clean checkpoint means: every accepted event is acknowledged or in a rejected batch whose loss report
      was acknowledged, and every dropped event is counted in acknowledged overflow reports. */
  lemma CleanMeansAccountedFor(c: Config, now: int, restartOf: Option<string>, actions: seq<Action>, t: State)
    requires Reached(c, now, restartOf, actions, t) && t.clean
    ensures EventsOf(RecordsOf(t.disposed)) == EventsOfAll(t.accepted)
    ensures forall d | d in t.disposed && !d.acknowledged :: LossDelivered(t.disposed, d)
    ensures t.drops <= MAX_SAFE_INTEGER ==> OverflowSum(RecordsOf(Acknowledged(t.disposed))) == t.drops
  {
    hide Reached, Numbered, Carried, Chained, Segmented, Dated, Covering, RecordsOf, EventsOfAll, LossKnown,
      LossDelivered;
    ReachedInv(c, now, restartOf, actions, t);
    NoEvents([]);
    assert EventsOf(RecordsOf(t.disposed)) + EventsOf([]) + EventsOf([]) == EventsOf(RecordsOf(t.disposed));
    forall d | d in t.disposed && !d.acknowledged ensures LossDelivered(t.disposed, d) {
      LossKnownDelivered(t, d);
    }
    AcknowledgedSum(t.disposed);
  }

  /** Committed markers tile time segment by segment, linked by digest, and each is complete. */
  lemma CoverageHolds(c: Config, now: int, restartOf: Option<string>, actions: seq<Action>, t: State)
    requires Reached(c, now, restartOf, actions, t)
    ensures Chain(t.markers) && Opens(t.markers)
    ensures forall m | m in t.markers :: Complete(t, m)
  {
    hide Reached, Numbered, Conserved, Carried, Flagged, Accounted, Answered, Dated, Clean, Chain, Complete, Opens;
    ReachedInv(c, now, restartOf, actions, t);
  }

  /** Of any two markers of one segment: all between them are of that segment, each names its predecessor, and
      together they cover the time from the first to the last without gap or overlap. */
  lemma SegmentsTile(c: Config, now: int, restartOf: Option<string>, actions: seq<Action>, t: State, i: nat, j: nat)
    requires Reached(c, now, restartOf, actions, t) && i < j < |t.markers|
    requires t.markers[i].marker.segment == t.markers[j].marker.segment
    ensures forall k | i < k <= j ::
      && t.markers[k].marker.segment == t.markers[i].marker.segment
      && t.markers[k].marker.previous == Some(t.markers[k - 1].marker)
      && t.markers[k].marker.start == t.markers[k - 1].marker.end < t.markers[k].marker.end
  {
    hide Reached, Chain, Opens, Complete;
    CoverageHolds(c, now, restartOf, actions, t);
    SegmentTiles(t.markers, i, j);
  }

  /** Where three health records always fit into one batch, no committed marker overlaps an acknowledged loss or outage
      interval of its epoch, whichever came first. */
  lemma CoverageAvoidsLoss(c: Config, now: int, restartOf: Option<string>, actions: seq<Action>, t: State, m: Commit,
      h: Health)
    requires Roomy(c) && Reached(c, now, restartOf, actions, t)
    requires m in t.markers && Loss(c, h) && InAcknowledged(t.disposed, HealthRecord(h))
    ensures Clear(m.marker, h.interval.value)
  {
    hide Init, Inv, Placed, EndsBy, Runs, InAcknowledged, StartTime, Boundary, Clear;
    InitInv(c, now, restartOf);
    RunSeparate(c, Init(c, now, restartOf), actions, t);
    assert Resumed(t, h.interval.value);
  }
}
