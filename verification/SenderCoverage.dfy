/** The coverage chain: markers tile time, cover what they claim, and keep clear of reported loss. */
module SenderCoverage {
  import opened Prelude
  import opened Sender
  import opened SenderInvariants
  import opened SenderHealth

  // ---- health still on its way ----

  ghost predicate Present(s: State, h: Health) { HealthRecord(h) in s.pending || HealthRecord(h) in s.queue }

  /** A record made in this step: about this epoch, dated now, its interval opened by the accumulator. */
  ghost predicate MadeNow(c: Config, s: State, s': State, h: Health) {
    h.epoch == c.epoch && s.clock <= Boundary(h) <= s'.clock
    && (h.interval.Some? ==>
          var start := h.interval.value.start;
          start != 0 && (start == s.overflowStart || start == s.outageStart))
  }

  ghost predicate AccumulatorDated(s: State) {
    0 <= s.overflowStart <= s.clock && 0 <= s.outageStart <= s.clock && (s.overflowCount == 0 <==> s.overflowStart == 0)
  }

  lemma MadeByAccept(c: Config, s: State, now: int, dates: Dates, h: Health)
    requires AccumulatorDated(s) && s.clock <= now && HealthRecord(h) in HealthRecords(c, s, now, dates)
    ensures h.epoch == c.epoch && Boundary(h) == now && h.interval.Some?
    ensures var start := h.interval.value.start; start != 0 && (start == s.overflowStart || start == s.outageStart)
  {
  }

  /** Health on its way was there before, unless this step made it. */
  lemma PresentStep(c: Config, s: State, a: Action, h: Health)
    requires Enabled(c, s, a) && Carried(s) && AccumulatorDated(s) && Present(Next(c, s, a), h)
    ensures Present(s, h) || MadeNow(c, s, Next(c, s, a), h)
  {
    hide HealthRecords, RecoveryBoundary, StartTime, ContainsHealth, EventsOf, EventsOfAll, RecordsOf,
      CanAttachCoverage, Unbuildable, Supplied, Chosen, DrawnIDs, Fits, CutTime;
    if a.Accept? {
      var reports := HealthRecords(c, s, a.now, a.dates);
      if HealthRecord(h) in reports { MadeByAccept(c, s, a.now, a.dates, h); }
    }
  }

  /** Health that stays behind when a batch is finished. */
  lemma PresentAfterBatch(c: Config, s: State, a: Action, h: Health)
    requires Enabled(c, s, a) && Carried(s) && AccumulatorDated(s) && Present(Next(c, s, a), h)
    requires a.Accept? || a.AcceptUnreported? || a.Reject? || a.RejectUnreported?
    ensures HealthRecord(h) in s.pending[s.flight.value.count..] || HealthRecord(h) in s.queue
      || MadeNow(c, s, Next(c, s, a), h)
  {
    hide HealthRecords, RecoveryBoundary, StartTime, ContainsHealth, EventsOf, EventsOfAll, RecordsOf;
    if a.Accept? {
      var reports := HealthRecords(c, s, a.now, a.dates);
      if HealthRecord(h) in reports { MadeByAccept(c, s, a.now, a.dates, h); }
    }
  }

  // ---- the recovery boundary ----

  lemma {:induction false} BoundaryBounds(records: seq<Record>, epoch: string)
    ensures forall h | HealthRecord(h) in records && h.epoch == epoch ::
      RecoveryBoundary(records, epoch).Some? && Boundary(h) <= RecoveryBoundary(records, epoch).value
    ensures RecoveryBoundary(records, epoch).Some? ==>
      exists h :: HealthRecord(h) in records && h.epoch == epoch
        && Boundary(h) == RecoveryBoundary(records, epoch).value
  {
    if records != [] {
      var init, last := records[..|records| - 1], records[|records| - 1];
      assert records == init + [last];
      BoundaryBounds(init, epoch);
      if RecoveryBoundary(records, epoch).Some? {
        if RecoveryBoundary(records, epoch) == RecoveryBoundary(init, epoch) {
          var h :| HealthRecord(h) in init && h.epoch == epoch && Boundary(h) == RecoveryBoundary(init, epoch).value;
          assert HealthRecord(h) in records;
        } else {
          assert HealthRecord(last.health) in records;
        }
      }
    }
  }

  lemma StartTimeMonotone(a: int, b: int)
    requires a <= b
    ensures a <= StartTime(a) <= StartTime(b) && CutTime(a) <= a
  {
    assert a - a % MILLISECOND == MILLISECOND * (a / MILLISECOND);
    assert b - b % MILLISECOND == MILLISECOND * (b / MILLISECOND);
    assert a / MILLISECOND <= b / MILLISECOND;
  }

  // ---- dates ----

  ghost predicate EndsBy(s: State, t: int) {
    (forall m | m in s.markers :: m.marker.end <= t)
    && (s.flight.Some? && s.flight.value.marker.Some? ==> s.flight.value.marker.value.end <= t)
  }

  /** Nothing is dated after the clock, and pending health of this epoch is dated after every marker. */
  ghost predicate Dated(c: Config, s: State) {
    AccumulatorDated(s) && EndsBy(s, s.clock) && s.coverageStart <= StartTime(s.clock)
    && forall h | Present(s, h) :: Boundary(h) <= s.clock && (h.epoch == c.epoch ==> EndsBy(s, Boundary(h)))
  }

  // ---- the chain ----

  /** The next marker continues its predecessor without gap or overlap, or opens a new segment not before its end. */
  ghost predicate Link(p: Marker, m: Marker) {
    (m.previous == Some(p) && m.segment == p.segment && m.start == p.end && m.start < m.end)
    || (m.previous.None? && p.end <= m.start && m.segment != p.segment)
  }

  ghost predicate Chain(markers: seq<Commit>) {
    (markers != [] ==> markers[0].marker.previous.None?)
    && (forall k | 0 <= k < |markers| :: markers[k].marker.start <= markers[k].marker.end)
    && (forall k | 0 < k < |markers| :: Link(markers[k - 1].marker, markers[k].marker))
  }

  /** The state continues the chain from its last marker, and a marker in flight is the next link. */
  ghost predicate Chained(s: State) {
    Chain(s.markers)
    && (s.previous.Some? ==>
          s.markers != [] && var last := s.markers[|s.markers| - 1].marker;
          s.previous.value == last && s.segment == last.segment && s.coverageStart == last.end)
    && (s.markers != [] ==> s.markers[|s.markers| - 1].marker.end <= s.coverageStart)
    && (s.flight.Some? && s.flight.value.marker.Some? ==>
          var m := s.flight.value.marker.value;
          && m.segment == s.segment && m.previous == s.previous && m.start == s.coverageStart <= m.end
          && (s.previous.Some? ==> m.start < m.end))
  }

  /** Segments are named after the batch that opened them, and a marker without predecessor opens a new one. */
  ghost predicate Opens(markers: seq<Commit>) {
    forall i, j | 0 <= i < j < |markers| && markers[j].marker.previous.None? ::
      markers[i].marker.segment != markers[j].marker.segment
  }

  ghost predicate Segmented(s: State) {
    && Opens(s.markers)
    && s.segment in s.ids + {EPOCH_START}
    && (forall m | m in s.markers :: m.marker.segment in s.ids + {EPOCH_START})
    && (s.previous.None? ==> forall m | m in s.markers :: m.marker.segment != s.segment)
    && (s.flight.Some? ==>
          var id := s.flight.value.batch.id;
          id in s.ids && id != s.segment && forall m | m in s.markers :: m.marker.segment != id)
  }

  ghost predicate SameCoverage(s: State, s': State) {
    s'.segment == s.segment && s'.coverageStart == s.coverageStart && s'.previous == s.previous
      && s'.markers == s.markers
  }

  /** Nothing about coverage changes; a flight may end or start without a marker. */
  ghost predicate CoverageIdle(s: State, s': State) {
    SameCoverage(s, s') && s.clock <= s'.clock
    && (s'.flight == s.flight || s'.flight.None? || (s'.flight.Some? && s'.flight.value.marker.None?))
  }

  /** A marker is attached to everything that is pending. */
  ghost predicate CoverageCut(s: State, s': State) {
    SameCoverage(s, s') && s.clock <= s'.clock && s'.flight.Some? && s'.flight.value.marker.Some?
    && var m := s'.flight.value.marker.value;
       && m.segment == s.segment && m.previous == s.previous && m.start == s.coverageStart
       && s.coverageStart <= m.end <= s'.clock && (s.previous.Some? ==> s.coverageStart < m.end)
       && !s.degraded && !ContainsHealth(s'.pending) && s'.queue == [] && s'.flight.value.cut == |s.accepted|
  }

  /** A batch is acknowledged. */
  ghost predicate CoverageAck(c: Config, s: State, s': State) {
    s.flight.Some? && s'.flight.None? && s.clock <= s'.clock
    && var f := s.flight.value;
       var boundary := RecoveryBoundary(f.batch.records, c.epoch);
       && s'.markers ==
          (if f.marker.Some? then s.markers + [Commit(f.marker.value, |s.disposed|, f.cut)] else s.markers)
       && s'.coverageStart == (if boundary.Some? then StartTime(boundary.value)
                               else if f.marker.Some? then f.marker.value.end else s.coverageStart)
       && s'.previous == (if boundary.Some? then None else if f.marker.Some? then f.marker else s.previous)
       && s'.segment == (if boundary.Some? then f.batch.id else s.segment)
       && s'.disposed == s.disposed + [Disposal(f.batch, f.count, true)] && s'.accepted == s.accepted
  }

  lemma CoverageCases(c: Config, s: State, a: Action)
    requires Enabled(c, s, a)
    ensures a.CutCoverage? ==> CoverageCut(s, Next(c, s, a))
    ensures a.Accept? || a.AcceptUnreported? ==> CoverageAck(c, s, Next(c, s, a))
    ensures !(a.CutCoverage? || a.Accept? || a.AcceptUnreported?) ==> CoverageIdle(s, Next(c, s, a))
  {
    hide HealthRecords, RecoveryBoundary, StartTime, ContainsHealth, Unbuildable, Usable, Precedes, Chosen,
      DrawnIDs, Fits;
    if a.CutCoverage? { StartTimeMonotone(a.decided, a.now); CutTimeMonotone(a.decided, a.now); }
  }

  lemma CutTimeMonotone(a: int, b: int)
    requires a <= b
    ensures CutTime(a) <= CutTime(b) <= b
  {
    assert a - a % MILLISECOND == MILLISECOND * (a / MILLISECOND);
    assert b - b % MILLISECOND == MILLISECOND * (b / MILLISECOND);
    assert a / MILLISECOND <= b / MILLISECOND;
  }

  lemma NoMarkerWithHealth(s: State, epoch: string)
    requires Carried(s) && s.flight.Some? && s.flight.value.marker.Some?
    ensures RecoveryBoundary(s.flight.value.batch.records, epoch).None?
  {
    hide EventsOf, EventsOfAll, RecordsOf;
    var f := s.flight.value;
    BatchHealth(s);
    BoundaryBounds(f.batch.records, epoch);
    assert forall h | HealthRecord(h) in f.batch.records :: ContainsHealth(f.batch.records);
  }

  lemma BoundaryInPending(s: State, epoch: string) returns (h: Health)
    requires Carried(s) && s.flight.Some? && RecoveryBoundary(s.flight.value.batch.records, epoch).Some?
    ensures HealthRecord(h) in s.pending && h.epoch == epoch
    ensures Boundary(h) == RecoveryBoundary(s.flight.value.batch.records, epoch).value
  {
    hide EventsOf, EventsOfAll, RecordsOf, ContainsHealth, RecoveryBoundary, Boundary;
    var f := s.flight.value;
    BoundaryBounds(f.batch.records, epoch);
    h :| HealthRecord(h) in f.batch.records && h.epoch == epoch
      && Boundary(h) == RecoveryBoundary(f.batch.records, epoch).value;
  }

  lemma ChainSnoc(markers: seq<Commit>, m: Commit)
    requires Chain(markers) && m.marker.start <= m.marker.end
    requires if markers == [] then m.marker.previous.None? else Link(markers[|markers| - 1].marker, m.marker)
    ensures Chain(markers + [m])
  {
  }

  lemma ChainedAck(c: Config, s: State, s': State)
    requires Chained(s) && Segmented(s) && Carried(s) && Dated(c, s) && CoverageAck(c, s, s')
    ensures Chained(s')
  {
    hide EventsOf, EventsOfAll, RecordsOf, ContainsHealth, RecoveryBoundary, Boundary, StartTime, Chain, Opens;
    var f := s.flight.value;
    var boundary := RecoveryBoundary(f.batch.records, c.epoch);
    assert s.markers != [] ==> s.markers[|s.markers| - 1] in s.markers;
    if f.marker.Some? {
      NoMarkerWithHealth(s, c.epoch);
      ChainSnoc(s.markers, Commit(f.marker.value, |s.disposed|, f.cut));
    } else if boundary.Some? {
      var h := BoundaryInPending(s, c.epoch);
      assert Present(s, h);
      StartTimeMonotone(boundary.value, boundary.value);
    }
  }

  lemma ChainedKept(c: Config, s: State, a: Action)
    requires Enabled(c, s, a) && Chained(s) && Segmented(s) && Carried(s) && Dated(c, s)
    ensures Chained(Next(c, s, a))
  {
    hide Enabled, Next, Carried, Dated, Chain, Segmented, RecoveryBoundary, StartTime, ContainsHealth;
    CoverageCases(c, s, a);
    if a.Accept? || a.AcceptUnreported? { ChainedAck(c, s, Next(c, s, a)); }
  }

  // ---- the names of segments ----

  /** A new flight carries a new identifier; identifiers are only added. */
  ghost predicate NamesGrow(s: State, s': State) {
    s.ids <= s'.ids
    && (s'.flight == s.flight || s'.flight.None?
        || (s'.flight.Some? && s'.flight.value.batch.id in s'.ids
            && s'.flight.value.batch.id !in s.ids + {EPOCH_START}))
  }

  lemma CutNames(c: Config, s: State, a: Action)
    requires Enabled(c, s, a) && (a.CutPlain? || a.CutCoverage?)
    ensures NamesGrow(s, Next(c, s, a))
  {
    hide CanAttachCoverage, Fits, CutTime, CoverageMarker, Min;
    if a.CutPlain? {
      var draws := Draws(a.plan, a.now, a.id);
      assert draws[|draws| - 1].id == a.id;
    }
  }

  lemma NamesStep(c: Config, s: State, a: Action)
    requires Enabled(c, s, a)
    ensures NamesGrow(s, Next(c, s, a))
  {
    hide HealthRecords, RecoveryBoundary, StartTime, ContainsHealth, CanAttachCoverage, CutTime, Chosen, DrawnIDs,
      PlainBatch, CoverageBatch, Drained, Fits;
    match a {
      case CutPlain(_, _, _, _) => CutNames(c, s, a);
      case CutCoverage(_, _, _) => CutNames(c, s, a);
      case Enqueue(_, _) =>
      case Accept(_, _) =>
      case Reject(_, _) =>
      case _ =>
    }
  }

  lemma OpensSnoc(markers: seq<Commit>, m: Commit)
    requires Opens(markers)
      && (m.marker.previous.None? ==> forall x | x in markers :: x.marker.segment != m.marker.segment)
    ensures Opens(markers + [m])
  {
  }

  lemma SegmentedAck(c: Config, s: State, s': State)
    requires Segmented(s) && Chained(s) && Carried(s) && CoverageAck(c, s, s') && NamesGrow(s, s')
    ensures Segmented(s')
  {
    hide EventsOf, EventsOfAll, RecordsOf, ContainsHealth, RecoveryBoundary, StartTime, Chain, Opens;
    var f := s.flight.value;
    if f.marker.Some? {
      NoMarkerWithHealth(s, c.epoch);
      OpensSnoc(s.markers, Commit(f.marker.value, |s.disposed|, f.cut));
    }
  }

  lemma SegmentedKept(c: Config, s: State, a: Action)
    requires Enabled(c, s, a) && Segmented(s) && Chained(s) && Carried(s)
    ensures Segmented(Next(c, s, a))
  {
    hide Enabled, Next, Carried, Chained, Opens, RecoveryBoundary, StartTime, ContainsHealth;
    CoverageCases(c, s, a);
    NamesStep(c, s, a);
    if a.Accept? || a.AcceptUnreported? { SegmentedAck(c, s, Next(c, s, a)); }
  }

  /** Within one segment the markers stand together, each continues the one before, and no instant is left out. */
  lemma {:induction false} SegmentTiles(markers: seq<Commit>, i: nat, j: nat)
    requires Chain(markers) && Opens(markers) && i < j < |markers|
    requires markers[i].marker.segment == markers[j].marker.segment
    ensures forall k | i < k <= j ::
      && markers[k].marker.segment == markers[i].marker.segment
      && markers[k].marker.previous == Some(markers[k - 1].marker)
      && markers[k].marker.start == markers[k - 1].marker.end < markers[k].marker.end
  {
    assert Link(markers[j - 1].marker, markers[j].marker);
    if i < j - 1 {
      SegmentTiles(markers, i, j - 1);
    }
  }

  // ---- dates are kept ----

  lemma EndsByStep(c: Config, s: State, s': State, t: int)
    requires EndsBy(s, t) && (CoverageIdle(s, s') || CoverageAck(c, s, s'))
    ensures EndsBy(s', t)
  {
    hide RecoveryBoundary, StartTime;
  }

  lemma AccumulatorKept(c: Config, s: State, a: Action)
    requires Enabled(c, s, a) && AccumulatorDated(s) && s.clock > 0
    ensures AccumulatorDated(Next(c, s, a)) && s.clock <= Next(c, s, a).clock
  {
    hide HealthRecords, RecoveryBoundary, StartTime, ContainsHealth, CanAttachCoverage, CutTime, Unbuildable, Chosen,
      DrawnIDs, Fits, FreshDraws;
  }

  lemma CoverageStartDated(c: Config, s: State, s': State)
    requires Dated(c, s) && Carried(s) && (CoverageIdle(s, s') || CoverageCut(s, s') || CoverageAck(c, s, s'))
    ensures s'.coverageStart <= StartTime(s.clock) <= StartTime(s'.clock)
  {
    hide EventsOf, EventsOfAll, RecordsOf, ContainsHealth, RecoveryBoundary, Boundary, StartTime;
    StartTimeMonotone(s.clock, s'.clock);
    if CoverageAck(c, s, s') && RecoveryBoundary(s.flight.value.batch.records, c.epoch).Some? {
      var h := BoundaryInPending(s, c.epoch);
      assert Present(s, h);
      StartTimeMonotone(Boundary(h), s.clock);
    }
  }

  lemma HealthDated(c: Config, s: State, a: Action, h: Health)
    requires Enabled(c, s, a) && Dated(c, s) && Carried(s) && Flagged(s) && Present(Next(c, s, a), h)
    ensures Boundary(h) <= Next(c, s, a).clock
    ensures h.epoch == c.epoch ==> EndsBy(Next(c, s, a), Boundary(h))
  {
    hide Next, Enabled, EventsOf, EventsOfAll, RecordsOf, RecoveryBoundary, Boundary, StartTime;
    var s' := Next(c, s, a);
    CoverageCases(c, s, a);
    PresentStep(c, s, a, h);
    if !a.CutCoverage? {
      assert Present(s, h) ==> (h.epoch == c.epoch ==> EndsBy(s, Boundary(h)));
      assert MadeNow(c, s, s', h) ==> EndsBy(s, Boundary(h));
      if h.epoch == c.epoch { EndsByStep(c, s, s', Boundary(h)); }
    }
  }

  lemma DatedKept(c: Config, s: State, a: Action)
    requires Enabled(c, s, a) && Dated(c, s) && Carried(s) && Flagged(s)
    ensures Dated(c, Next(c, s, a))
  {
    hide Enabled, Next, Carried, ContainsHealth, RecoveryBoundary, Boundary, StartTime, AccumulatorDated, Present;
    var s' := Next(c, s, a);
    CoverageCases(c, s, a);
    AccumulatorKept(c, s, a);
    CoverageStartDated(c, s, s');
    if a.CutCoverage? { assert EndsBy(s', s'.clock); } else { EndsByStep(c, s, s', s.clock); }
    forall h | Present(s', h) ensures Boundary(h) <= s'.clock && (h.epoch == c.epoch ==> EndsBy(s', Boundary(h))) {
      HealthDated(c, s, a, h);
    }
  }
}
