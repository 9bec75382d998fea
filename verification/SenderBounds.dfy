/** The resource promises of the sender: a bounded queue, bounded batches, and coverage that is not written
    more often than its heartbeat when nothing happens. */
module SenderBounds {
  import opened Prelude
  import opened Sender
  import opened SenderInvariants
  import opened SenderCoverage
  import opened SenderRuns

  /** A marker that continues another covers new time, and at least one heartbeat when it travels alone. */
  ghost predicate Paced(m: Marker, count: nat) {
    m.previous.Some? ==> m.start < m.end && (count == 0 ==> m.start + 1000 * MILLISECOND <= m.end)
  }

  ghost predicate FlightBounded(c: Config, s: State) {
    s.flight.Some? ==>
      |s.flight.value.batch.records| <= c.batchSize
      && (s.flight.value.marker.Some? ==> Paced(s.flight.value.marker.value, s.flight.value.count))
  }

  ghost predicate Bounded(c: Config, s: State) {
    && |s.queue| <= c.capacity
    && FlightBounded(c, s)
    && (forall b | b in s.sent :: |b.records| <= c.batchSize)
    && (forall m | m in s.markers :: m.index < |s.disposed| && Paced(m.marker, s.disposed[m.index].count))
  }

  lemma QueueBounded(c: Config, s: State, a: Action)
    requires Enabled(c, s, a) && |s.queue| <= c.capacity
    ensures |Next(c, s, a).queue| <= c.capacity
  {
    hide HealthRecords, RecoveryBoundary, ContainsHealth, CanAttachCoverage, CutTime, StartTime, Drained,
      CoverageMarker, RejectedReport;
    match a {
      case Enqueue(_, _) =>
      case Accept(_, _) =>
      case Reject(_, _) =>
      case _ =>
    }
  }

  /** A cut never exceeds the batch size, and a marker only joins where the heartbeat allows it. */
  lemma CutBounded(c: Config, s: State, a: Action)
    requires Enabled(c, s, a) && 1 <= c.batchSize && (a.CutPlain? || a.CutCoverage?)
    ensures FlightBounded(c, Next(c, s, a))
  {
    hide ContainsHealth, CutTime;
    if a.CutCoverage? {
      CutTimeMonotone(a.decided, a.now);
    }
  }

  /** Flights only come from cuts. */
  lemma FlightFromCut(c: Config, s: State, a: Action)
    requires Enabled(c, s, a) && !a.CutPlain? && !a.CutCoverage?
    ensures Next(c, s, a).flight.None? || Next(c, s, a).flight == s.flight
  {
    hide HealthRecords, RecoveryBoundary, ContainsHealth, CanAttachCoverage, CutTime, StartTime, Drained, Chosen,
      RejectedReport;
    match a {
      case Enqueue(_, _) =>
      case Accept(_, _) =>
      case Reject(_, _) =>
      case _ =>
    }
  }

  lemma SentBounded(c: Config, s: State, a: Action)
    requires Enabled(c, s, a) && Bounded(c, s)
    ensures forall b | b in Next(c, s, a).sent :: |b.records| <= c.batchSize
  {
    hide Enabled, Next, Paced;
    SentCases(c, s, a);
  }

  lemma MarkersBounded(c: Config, s: State, a: Action)
    requires Enabled(c, s, a) && Bounded(c, s)
    ensures forall m | m in Next(c, s, a).markers ::
      m.index < |Next(c, s, a).disposed| && Paced(m.marker, Next(c, s, a).disposed[m.index].count)
  {
    hide Enabled, Next, Paced, RecoveryBoundary, StartTime;
    CoverageCases(c, s, a);
    SentCases(c, s, a);
  }

  lemma BoundedKept(c: Config, s: State, a: Action)
    requires Enabled(c, s, a) && 1 <= c.batchSize && Bounded(c, s)
    ensures Bounded(c, Next(c, s, a))
  {
    QueueBounded(c, s, a);
    SentBounded(c, s, a);
    MarkersBounded(c, s, a);
    hide Enabled, Next, Paced;
    if a.CutPlain? || a.CutCoverage? {
      CutBounded(c, s, a);
    } else {
      FlightFromCut(c, s, a);
    }
  }

  lemma {:induction false} RunBounded(c: Config, s: State, actions: seq<Action>, t: State)
    requires 1 <= c.batchSize && Bounded(c, s) && Runs(c, s, actions, t)
    ensures Bounded(c, t)
    decreases actions
  {
    hide Enabled, Next, Bounded;
    if actions != [] {
      BoundedKept(c, s, actions[0]);
      RunBounded(c, Next(c, s, actions[0]), actions[1..], t);
    }
  }

  /** Over every run: the queue keeps to its capacity, no batch that ever reached the network holds more records
      than allowed, and committed markers that carry no event are at least one heartbeat long. */
  lemma ResourcesBounded(c: Config, now: int, restartOf: Option<string>, actions: seq<Action>, t: State)
    requires ValidConfig(c) && Reached(c, now, restartOf, actions, t)
    ensures |t.queue| <= c.capacity && forall b | b in t.sent :: |b.records| <= c.batchSize
    ensures forall m | m in t.markers && m.marker.previous.Some? ::
      && m.index < |t.disposed| && m.marker.start < m.marker.end
      && (t.disposed[m.index].count == 0 ==> m.marker.start + 1000 * MILLISECOND <= m.marker.end)
  {
    hide StartTime, Runs;
    RunBounded(c, Init(c, now, restartOf), actions, t);
  }
}
