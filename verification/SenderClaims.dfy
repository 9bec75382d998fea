/** What a committed marker claims: everything accepted before its cut is accounted for, and no
    reported loss or outage lies inside it. */
module SenderClaims {
  import opened Prelude
  import opened Sender
  import opened SenderInvariants
  import opened SenderHealth
  import opened SenderCoverage

  // ---- completeness ----

  /** Events accepted before the cut of a committed marker are in batches finished up to its own, and
      the loss of each rejected one of those was reported and acknowledged by then. */
  ghost predicate Complete(s: State, m: Commit) {
    m.index < |s.disposed| && m.cut <= |s.accepted|
    && s.disposed[m.index].acknowledged && CoverageRecord(m.marker) in s.disposed[m.index].batch.records
    && EventsOf(RecordsOf(s.disposed[..m.index + 1])) == EventsOfAll(s.accepted[..m.cut])
    && (forall i | m.cut <= i < |s.accepted| :: m.marker.end <= s.accepted[i].at)
    && (forall d | d in s.disposed[..m.index + 1] && !d.acknowledged :: LossDelivered(s.disposed[..m.index + 1], d))
  }

  /** A marker in flight will be complete once it is acknowledged. */
  ghost predicate Completing(s: State) {
    s.flight.Some? && s.flight.value.marker.Some? ==>
      && (forall i | s.flight.value.cut <= i < |s.accepted| :: s.flight.value.marker.value.end <= s.accepted[i].at)
      && (forall d | d in s.disposed && !d.acknowledged :: LossDelivered(s.disposed, d))
  }

  ghost predicate Covering(s: State) { Completing(s) && forall m | m in s.markers :: Complete(s, m) }

  /** Finished batches and accepted events only ever grow, by entries no older than the clock. */
  ghost predicate Grows(s: State, s': State) {
    s.disposed <= s'.disposed && s.accepted <= s'.accepted
    && forall i | |s.accepted| <= i < |s'.accepted| :: s.clock <= s'.accepted[i].at
  }

  lemma GrowsStep(c: Config, s: State, a: Action)
    requires Enabled(c, s, a)
    ensures Grows(s, Next(c, s, a))
  {
    hide HealthRecords, RecoveryBoundary, StartTime, ContainsHealth, CanAttachCoverage, CutTime;
  }

  lemma CompleteStays(s: State, s': State, m: Commit)
    requires Complete(s, m) && Grows(s, s') && m.marker.end <= s.clock
    ensures Complete(s', m)
  {
    hide EventsOf, RecordsOf, EventsOfAll, LossDelivered;
    assert s'.disposed[..m.index + 1] == s.disposed[..m.index + 1];
    assert s'.accepted[..m.cut] == s.accepted[..m.cut];
  }

  lemma LossKnownDelivered(s: State, d: Disposal)
    requires LossKnown(s, d) && !ContainsHealth(s.pending)
    ensures LossDelivered(s.disposed, d)
  {
    var h :| LossReport(h, d) && (HealthRecord(h) in s.pending || InAcknowledged(s.disposed, HealthRecord(h)));
    assert HealthRecord(h) in s.pending ==> ContainsHealth(s.pending);
  }

  lemma CompletingCut(s: State, s': State)
    requires Answered(s) && Flagged(s) && CoverageCut(s, s') && s'.disposed == s.disposed && s'.accepted == s.accepted
    ensures Completing(s')
  {
    hide LossKnown, LossDelivered, EventsOf;
    forall d | d in s.disposed && !d.acknowledged ensures LossDelivered(s.disposed, d) { LossKnownDelivered(s, d); }
  }

  lemma CompletingKept(c: Config, s: State, a: Action)
    requires Enabled(c, s, a) && Completing(s) && Answered(s) && Flagged(s) && Dated(c, s)
    ensures Completing(Next(c, s, a))
  {
    hide Enabled, Answered, LossDelivered, ContainsHealth, RecoveryBoundary, StartTime, HealthRecords, Present,
      Boundary, AccumulatorDated, CanAttachCoverage, CutTime;
    var s' := Next(c, s, a);
    CoverageCases(c, s, a);
    GrowsStep(c, s, a);
    if a.CutCoverage? {
      CutShape(c, s, a);
      CompletingCut(s, s');
    } else if s'.flight.Some? && s'.flight.value.marker.Some? {
      assert s'.flight == s.flight;
      FlightKeepsDisposed(c, s, a);
    }
  }

  lemma FlightKeepsDisposed(c: Config, s: State, a: Action)
    requires Enabled(c, s, a) && s.flight.Some? && Next(c, s, a).flight == s.flight
    ensures Next(c, s, a).disposed == s.disposed
  {
    hide HealthRecords, RecoveryBoundary, StartTime, ContainsHealth, CanAttachCoverage, CutTime, Enabled;
    CoverageCases(c, s, a);
    SentCases(c, s, a);
  }

  /** Acknowledging a batch with a marker makes the marker complete. */
  lemma CompleteAtAck(c: Config, s: State, s': State)
    requires Carried(s) && Completing(s) && CoverageAck(c, s, s') && s.flight.value.marker.Some?
    ensures Complete(s', Commit(s.flight.value.marker.value, |s.disposed|, s.flight.value.cut))
  {
    hide LossDelivered, RecoveryBoundary, StartTime, ContainsHealth, EventsOf, RecordsOf, EventsOfAll;
    var f := s.flight.value;
    var d := Disposal(f.batch, f.count, true);
    assert s'.disposed[..|s.disposed| + 1] == s.disposed + [d];
    BatchEvents(s);
    RecordsSnoc(s.disposed, d);
    EventsConcat(RecordsOf(s.disposed), f.batch.records);
    assert s.pending[f.count..] == [];
    NoEvents([]);
    assert EventsOf(f.batch.records) + EventsOf([]) == EventsOf(f.batch.records) by { assert EventsOf([]) == []; }
    assert CoverageRecord(f.marker.value) in f.batch.records;
    forall x | x in s.disposed + [d] && !x.acknowledged ensures LossDelivered(s.disposed + [d], x) {
      assert x in s.disposed;
      DeliveredStays(s.disposed, s.disposed + [d], x);
    }
  }

  lemma DeliveredStays(xs: seq<Disposal>, ys: seq<Disposal>, d: Disposal)
    requires LossDelivered(xs, d) && forall x | x in xs :: x in ys
    ensures LossDelivered(ys, d)
  {
    var h :| LossReport(h, d) && InAcknowledged(xs, HealthRecord(h));
    var x :| x in xs && x.acknowledged && HealthRecord(h) in x.batch.records;
    assert x in ys;
    assert InAcknowledged(ys, HealthRecord(h));
  }

  lemma CoveringKept(c: Config, s: State, a: Action)
    requires Enabled(c, s, a) && Covering(s) && Answered(s) && Flagged(s) && Dated(c, s) && Carried(s)
    ensures Covering(Next(c, s, a))
  {
    hide Enabled, Next, Answered, Flagged, Carried, Complete, Completing, ContainsHealth, RecoveryBoundary, StartTime,
      Present, Boundary, AccumulatorDated;
    var s' := Next(c, s, a);
    CompletingKept(c, s, a);
    CoverageCases(c, s, a);
    GrowsStep(c, s, a);
    forall m | m in s.markers ensures Complete(s', m) { CompleteStays(s, s', m); }
    if (a.Accept? || a.AcceptUnreported?) && s.flight.Some? && s.flight.value.marker.Some? { CompleteAtAck(c, s, s'); }
  }

  // ---- separation from reported loss ----

  /** Batches may hold three records, and a body of up to three health records always fits. */
  ghost predicate Roomy(c: Config) {
    c.batchSize >= 3 && forall b: Batch | b.records != [] && AllHealth(b.records) :: Fits(c, b)
  }

  /** Health comes first, and there are at most three such records. */
  ghost predicate HealthFirst(records: seq<Record>) {
    forall k | 0 <= k < |records| && records[k].HealthRecord? ::
      k < 3 && forall j | 0 <= j <= k :: records[j].HealthRecord?
  }

  /** Health sits at the front, and a batch in flight carries all of it. */
  ghost predicate Placed(s: State) {
    HealthFirst(s.pending)
    && (forall k | 1 <= k < |s.queue| :: !s.queue[k].HealthRecord?)
    && (s.queue != [] && s.queue[0].HealthRecord? ==> s.pending == [])
    && (s.flight.Some? ==> forall k | s.flight.value.count <= k < |s.pending| :: !s.pending[k].HealthRecord?)
  }

  lemma DrainedPlaced(s: State)
    requires Placed(s)
    ensures HealthFirst(Drained(s))
  {
    var all := Drained(s);
    forall k | 0 <= k < |all| && all[k].HealthRecord? ensures k < 3 && forall j | 0 <= j <= k :: all[j].HealthRecord? {
      if k < |s.pending| {
        assert all[k] == s.pending[k];
        assert forall j | 0 <= j <= k :: all[j] == s.pending[j];
      } else {
        assert all[k] == s.queue[k - |s.pending|];
      }
    }
  }

  /** A larger batch was tried and did not fit, so it did not consist of a little health alone. */
  lemma LargerHoldsMore(c: Config, s: State, a: Action, n: nat)
    requires Enabled(c, s, a) && a.CutPlain? && Roomy(c) && a.count < n <= Min(|Drained(s)|, c.batchSize)
    ensures !AllHealth(Drained(s)[..n])
  {
    hide CanAttachCoverage, FreshDraws, CutTime, AllHealth, Fits;
    var m := Min(|Drained(s)|, c.batchSize) - n;
    var b := PlainBatch(s, a.plan.misses[m], n);
    assert b.records == Drained(s)[..n];
    assert AllHealth(b.records) ==> Fits(c, b);
  }

  /** Trying smaller and smaller batches never stops short of the health in front: that much fits. */
  lemma HealthIsCarried(c: Config, s: State, a: Action, k: nat)
    requires Enabled(c, s, a) && a.CutPlain? && Roomy(c) && HealthFirst(Drained(s))
    requires k < |Drained(s)| && Drained(s)[k].HealthRecord?
    ensures k < a.count
  {
    hide Enabled;
    assert AllHealth(Drained(s)[..k + 1]);
    if k >= a.count {
      LargerHoldsMore(c, s, a, k + 1);
    }
  }

  lemma PlacedCut(c: Config, s: State, a: Action)
    requires Enabled(c, s, a) && Roomy(c) && Placed(s)
    requires a.Receive? || a.CutIdle? || a.CutFail? || a.CutPlain? || a.CutCoverage?
    ensures Placed(Next(c, s, a))
  {
    hide CanAttachCoverage, CutTime, Chosen, Fits, CoverageBatch, PlainBatch;
    DrainedPlaced(s);
    if a.CutPlain? {
      forall k | a.count <= k < |Drained(s)| ensures !Drained(s)[k].HealthRecord? {
        if Drained(s)[k].HealthRecord? { HealthIsCarried(c, s, a, k); }
      }
    } else if a.Receive? {
      ReceivePlaced(s);
    }
  }

  lemma ReceivePlaced(s: State)
    requires Placed(s) && s.queue != []
    ensures HealthFirst(s.pending + [s.queue[0]])
  {
    var all := s.pending + [s.queue[0]];
    forall k | 0 <= k < |all| && all[k].HealthRecord? ensures k < 3 && forall j | 0 <= j <= k :: all[j].HealthRecord? {
      if k < |s.pending| {
        assert all[k] == s.pending[k];
        assert forall j | 0 <= j <= k :: all[j] == s.pending[j];
      }
    }
  }

  lemma ReportsFirst(reports: seq<Record>, rest: seq<Record>)
    requires AllHealth(reports) && forall k | 0 <= k < |rest| :: !rest[k].HealthRecord?
    ensures HealthFirst(reports + rest)
  {
  }

  lemma PlacedFinish(c: Config, s: State, a: Action)
    requires Enabled(c, s, a) && Placed(s) && Carried(s) && Flagged(s)
    requires a.Accept? || a.AcceptUnreported? || a.Reject? || a.RejectUnreported?
    ensures Placed(Next(c, s, a))
  {
    hide HealthRecords, RecoveryBoundary, StartTime, EventsOf, EventsOfAll, RecordsOf, HealthFirst;
    var rest := s.pending[s.flight.value.count..];
    assert forall k | 0 <= k < |rest| :: !rest[k].HealthRecord?;
    assert forall k | 0 <= k < |s.queue| :: !s.queue[k].HealthRecord?;
    if a.Accept? {
      HealthRecordsAreHealth(c, s, a.now, a.dates);
      ReportsFirst(HealthRecords(c, s, a.now, a.dates), rest);
    } else if a.Reject? {
      ReportsFirst([RejectedReport(c, s.sequence, s.flight.value.count, a.occurred)], rest);
    } else {
      ReportsFirst([], rest);
      assert [] + rest == rest;
    }
  }

  lemma PlacedOther(c: Config, s: State, a: Action)
    requires Enabled(c, s, a) && Placed(s)
    requires a.Enqueue? || a.Retry? || a.Fatal? || a.GiveUp? || a.Close? || a.Cancel? || a.Finish?
    ensures Placed(Next(c, s, a))
  {
    hide Enabled, Next, Placed, Quiet, Queued;
    OtherShape(c, s, a);
    OtherPlaced(s, Next(c, s, a));
  }

  lemma OtherPlaced(s: State, s': State)
    requires Placed(s) && (Quiet(s, s') || Queued(s, s'))
    ensures Placed(s')
  {
    hide HealthFirst;
  }

  lemma PlacedKept(c: Config, s: State, a: Action)
    requires Enabled(c, s, a) && Roomy(c) && Placed(s) && Carried(s) && Flagged(s)
    ensures Placed(Next(c, s, a))
  {
    hide Enabled, Next, Placed, Carried, Flagged;
    if a.Receive? || a.CutIdle? || a.CutFail? || a.CutPlain? || a.CutCoverage? {
      PlacedCut(c, s, a);
    } else if a.Accept? || a.AcceptUnreported? || a.Reject? || a.RejectUnreported? {
      PlacedFinish(c, s, a);
    } else {
      PlacedOther(c, s, a);
    }
  }

  /** The marker does not reach into the interval from either side. */
  ghost predicate Clear(m: Marker, i: Interval) { m.end <= i.start || i.end <= m.start }

  ghost predicate Loss(c: Config, h: Health) { h.interval.Some? && h.epoch == c.epoch }

  /** Markers end before any loss that is not yet acknowledged; coverage resumes after any that is. */
  ghost predicate Separate(c: Config, s: State) {
    (s.overflowStart != 0 ==> EndsBy(s, s.overflowStart)) && (s.outageStart != 0 ==> EndsBy(s, s.outageStart))
    && (forall h | Present(s, h) && Loss(c, h) :: EndsBy(s, h.interval.value.start))
    && (forall h | Present(s, h) && h.epoch == c.epoch :: s.coverageStart <= StartTime(Boundary(h)))
    && (forall h | InAcknowledged(s.disposed, HealthRecord(h)) && Loss(c, h) :: Resumed(s, h.interval.value))
  }

  ghost predicate Resumed(s: State, i: Interval) {
    i.end <= s.coverageStart && forall m | m in s.markers :: Clear(m.marker, i)
  }

  lemma SeparateCut(c: Config, s: State, a: Action)
    requires Enabled(c, s, a) && a.CutCoverage? && Separate(c, s) && Flagged(s)
    ensures Separate(c, Next(c, s, a))
  {
    hide CutTime, StartTime, Boundary;
    var s' := Next(c, s, a);
    assert forall h | Present(s', h) :: ContainsHealth(Drained(s));
    assert forall h | InAcknowledged(s'.disposed, HealthRecord(h)) && Loss(c, h) :: Resumed(s, h.interval.value);
  }

  lemma SeparateIdle(c: Config, s: State, a: Action)
    requires Enabled(c, s, a) && Separate(c, s) && Carried(s) && Dated(c, s)
    requires !(a.CutCoverage? || a.Accept? || a.AcceptUnreported?)
    ensures Separate(c, Next(c, s, a))
  {
    hide Next, Enabled, Carried, RecoveryBoundary, StartTime, Boundary, ContainsHealth, InAcknowledged,
      AccumulatorDated;
    var s' := Next(c, s, a);
    CoverageCases(c, s, a);
    AccumulatorOpens(c, s, a);
    AckedOnlyByAccept(c, s, a);
    forall t | EndsBy(s, t) ensures EndsBy(s', t) { EndsByStep(c, s, s', t); }
    forall h | Present(s', h) ensures Present(s, h) || MadeNow(c, s, s', h) { PresentStep(c, s, a, h); }
    forall h | Present(s', h) && h.epoch == c.epoch ensures s'.coverageStart <= StartTime(Boundary(h)) {
      if !Present(s, h) { StartTimeMonotone(s.clock, Boundary(h)); }
    }
  }

  /** An accumulator opens no earlier than the clock, and only the network or a full queue opens it. */
  lemma AccumulatorOpens(c: Config, s: State, a: Action)
    requires Enabled(c, s, a)
    ensures var s' := Next(c, s, a);
      && (s'.overflowStart == s.overflowStart || s'.overflowStart == 0 || s.clock <= s'.overflowStart)
      && (s'.outageStart == s.outageStart || s'.outageStart == 0 || s.clock <= s'.outageStart)
  {
    hide HealthRecords, RecoveryBoundary, StartTime, ContainsHealth, CanAttachCoverage, CutTime;
    if a.Accept? || a.AcceptUnreported? {
    } else if a.Reject? || a.RejectUnreported? || a.Retry? {
    } else if a.Enqueue? {
    }
  }

  lemma AckedOnlyByAccept(c: Config, s: State, a: Action)
    requires Enabled(c, s, a) && !(a.Accept? || a.AcceptUnreported?)
    ensures forall r | InAcknowledged(Next(c, s, a).disposed, r) :: InAcknowledged(s.disposed, r)
  {
    hide HealthRecords, RecoveryBoundary, StartTime, ContainsHealth, CanAttachCoverage, CutTime;
  }

  /** Health carried by an acknowledged batch lets coverage resume after it. */
  lemma ResumedByAck(c: Config, s: State, s': State, h: Health)
    requires Carried(s) && Separate(c, s) && CoverageAck(c, s, s')
    requires HealthRecord(h) in s.flight.value.batch.records && Loss(c, h)
    ensures Resumed(s', h.interval.value)
  {
    hide EventsOf, EventsOfAll, RecordsOf, RecoveryBoundary, StartTime, InAcknowledged;
    var f := s.flight.value;
    BatchHealth(s);
    assert ContainsHealth(f.batch.records);
    assert HealthRecord(h) in s.pending && Present(s, h);
    BoundaryBounds(f.batch.records, c.epoch);
    var boundary := RecoveryBoundary(f.batch.records, c.epoch).value;
    StartTimeMonotone(boundary, boundary);
  }

  /** Coverage never moves back, so what was clear stays clear. */
  lemma ResumedStays(c: Config, s: State, s': State, i: Interval)
    requires Carried(s) && Separate(c, s) && Chained(s) && CoverageAck(c, s, s') && Resumed(s, i)
    ensures Resumed(s', i)
  {
    hide EventsOf, EventsOfAll, RecordsOf, RecoveryBoundary, StartTime, ContainsHealth, InAcknowledged, Boundary, Chain;
    CoverageAdvances(c, s, s');
    var f := s.flight.value;
    if f.marker.Some? { NoMarkerWithHealth(s, c.epoch); }
  }

  lemma CoverageAdvances(c: Config, s: State, s': State)
    requires Carried(s) && Separate(c, s) && Chained(s) && CoverageAck(c, s, s')
    ensures s.coverageStart <= s'.coverageStart
  {
    hide EventsOf, EventsOfAll, RecordsOf, RecoveryBoundary, StartTime, ContainsHealth, InAcknowledged, Boundary, Chain;
    if RecoveryBoundary(s.flight.value.batch.records, c.epoch).Some? {
      var h := BoundaryInPending(s, c.epoch);
      assert Present(s, h);
    }
  }

  lemma AckedHealth(s: State, s': State, r: Record)
    requires s.flight.Some? && s'.disposed == s.disposed + [Disposal(s.flight.value.batch, s.flight.value.count, true)]
    requires InAcknowledged(s'.disposed, r)
    ensures InAcknowledged(s.disposed, r) || r in s.flight.value.batch.records
  {
  }

  lemma SeparateAck(c: Config, s: State, a: Action)
    requires Enabled(c, s, a) && (a.Accept? || a.AcceptUnreported?)
    requires Separate(c, s) && Carried(s) && Dated(c, s) && Chained(s) && Flagged(s) && Placed(s)
    ensures Separate(c, Next(c, s, a))
  {
    hide Next, Enabled, RecoveryBoundary, StartTime, Boundary, ContainsHealth, InAcknowledged, AccumulatorDated,
      Chain, EventsOf, EventsOfAll, RecordsOf, Resumed;
    var s' := Next(c, s, a);
    CoverageCases(c, s, a);
    AccumulatorOpens(c, s, a);
    CoverageStartDated(c, s, s');
    forall t | EndsBy(s, t) ensures EndsBy(s', t) { EndsByStep(c, s, s', t); }
    forall h | Present(s', h) ensures MadeNow(c, s, s', h) { OnlyNewHealth(c, s, a, h); }
    forall h | Present(s', h) && h.epoch == c.epoch ensures s'.coverageStart <= StartTime(Boundary(h)) {
      StartTimeMonotone(s.clock, Boundary(h));
    }
    forall h | InAcknowledged(s'.disposed, HealthRecord(h)) && Loss(c, h) ensures Resumed(s', h.interval.value) {
      AckedHealth(s, s', HealthRecord(h));
      if HealthRecord(h) in s.flight.value.batch.records {
        ResumedByAck(c, s, s', h);
      } else {
        ResumedStays(c, s, s', h.interval.value);
      }
    }
  }

  /** A roomy batch carried all pending health, so what remains was made in this step. */
  lemma OnlyNewHealth(c: Config, s: State, a: Action, h: Health)
    requires Enabled(c, s, a) && (a.Accept? || a.AcceptUnreported?) && Carried(s) && Dated(c, s) && Flagged(s)
      && Placed(s)
    requires Present(Next(c, s, a), h)
    ensures MadeNow(c, s, Next(c, s, a), h)
  {
    hide Next, RecoveryBoundary, StartTime, Boundary, EventsOf, EventsOfAll, RecordsOf;
    PresentAfterBatch(c, s, a, h);
    var rest := s.pending[s.flight.value.count..];
    assert forall k | 0 <= k < |rest| :: !rest[k].HealthRecord?;
    assert forall k | 0 <= k < |s.queue| :: !s.queue[k].HealthRecord?;
  }

  lemma SeparateKept(c: Config, s: State, a: Action)
    requires Enabled(c, s, a) && Separate(c, s) && Carried(s) && Dated(c, s) && Chained(s) && Flagged(s) && Placed(s)
    ensures Separate(c, Next(c, s, a))
  {
    hide Enabled, Next, Separate, Carried, Dated, Chained, Flagged, Placed;
    if a.CutCoverage? {
      SeparateCut(c, s, a);
    } else if a.Accept? || a.AcceptUnreported? {
      SeparateAck(c, s, a);
    } else {
      SeparateIdle(c, s, a);
    }
  }
}
