/** Where one or two records fill a batch the separation of coverage from reported loss fails. New health
    records are put in front of older ones that a small batch left behind, so the last acknowledged
    boundary is an old one: coverage moves back and its next marker covers an outage that has just been
    reported. Together with `SenderRuns.CoverageAvoidsLoss` this gives the exact condition. */
module SenderOverlap {
  import opened Prelude
  import opened Sender
  import opened SenderInvariants
  import opened SenderHealth
  import opened SenderCoverage
  import opened SenderClaims
  import opened SenderRuns
  import opened SenderBounds

  // ---- composing runs ----

  ghost predicate Leads(c: Config, s: State, t: State) { exists actions :: Runs(c, s, actions, t) }

  lemma {:induction false} RunsConcat(c: Config, s: State, xs: seq<Action>, t: State, ys: seq<Action>, u: State)
    requires Runs(c, s, xs, t) && Runs(c, t, ys, u)
    ensures Runs(c, s, xs + ys, u)
    decreases xs
  {
    hide Enabled, Next;
    if xs == [] {
      assert xs + ys == ys;
    } else {
      assert (xs + ys)[1..] == xs[1..] + ys;
      RunsConcat(c, Next(c, s, xs[0]), xs[1..], t, ys, u);
    }
  }

  lemma LeadsOn(c: Config, s: State, t: State, u: State)
    requires Leads(c, s, t) && Leads(c, t, u)
    ensures Leads(c, s, u)
  {
    hide Runs;
    var xs :| Runs(c, s, xs, t);
    var ys :| Runs(c, t, ys, u);
    RunsConcat(c, s, xs, t, ys, u);
  }

  lemma LeadsStep(c: Config, s: State, a: Action)
    requires Enabled(c, s, a)
    ensures Leads(c, s, Next(c, s, a))
  {
    hide Enabled, Next;
    assert Runs(c, Next(c, s, a), [], Next(c, s, a));
    assert [a][1..] == [];
    assert Runs(c, s, [a], Next(c, s, a));
  }

  // ---- how much fits ----

  /** Of the batches that may be built, exactly those of up to `n` records fit. */
  ghost predicate Holds(c: Config, n: nat) {
    n <= c.batchSize && forall b: Batch | 1 <= |b.records| <= c.batchSize :: Fits(c, b) <==> |b.records| <= n
  }

  /** Every such limit is possible: with bodies as long as their records are many, and with bodies that all fit. */
  lemma LimitsExist(c: Config, n: nat)
    requires n <= c.batchSize
    ensures Holds(c.(size := (b: Batch) => |b.records|, maxBytes := n), n)
    ensures (forall b :: Fits(c, b)) ==> Holds(c, c.batchSize)
  {
  }

  function Name(k: nat): (r: string)
    ensures |r| == k
  {
    seq(k, _ => 'x')
  }

  lemma {:induction false} LongerThan(ids: set<string>) returns (k: nat)
    ensures forall x | x in ids :: |x| < k
  {
    if ids == {} {
      k := 0;
    } else {
      var x :| x in ids;
      var m := LongerThan(ids - {x});
      k := if |x| < m then m else |x| + 1;
    }
  }

  /** Identifiers never run out. */
  lemma FreshNames(s: State, n: nat) returns (draws: seq<Draw>)
    ensures |draws| == n && (forall k | 0 <= k < n :: draws[k].at == s.clock) && FreshDraws(s, s.clock, draws)
  {
    var m := LongerThan(s.ids);
    draws := seq(n, k requires 0 <= k < n => Draw(Name(m + |EPOCH_START| + 1 + k), s.clock));
    forall k | 0 <= k < n ensures |draws[k].id| == m + |EPOCH_START| + 1 + k {
      assert draws[k] == Draw(Name(m + |EPOCH_START| + 1 + k), s.clock);
    }
    forall i, j | 0 <= i < j < n ensures draws[i].id != draws[j].id {
      assert |draws[i].id| < |draws[j].id|;
    }
  }

  /** The plan that tries a marker if one is wanted, then every batch that is too large. */
  lemma SomePlan(c: Config, n: nat, s: State) returns (a: Action)
    requires Holds(c, n) && 1 <= n && Idle(s) && s.sequence <= MAX_SAFE_INTEGER && Drained(s) != []
    requires CanAttachCoverage(c, s, Drained(s), s.clock) ==> |Drained(s)| + 1 > n
    ensures a.CutPlain? && Enabled(c, s, a) && a.now == s.clock && a.count == Min(|Drained(s)|, n)
  {
    hide CanAttachCoverage, FreshDraws, Fits, Unbuildable, Supplied, Chosen;
    var first, count := Min(|Drained(s)|, c.batchSize), Min(|Drained(s)|, n);
    var from := if CanAttachCoverage(c, s, Drained(s), s.clock) then 1 else 0;
    var draws := FreshNames(s, first - count + 1 + from);
    var last := draws[|draws| - 1];
    var plan := Plan(s.clock, if from == 1 then Some(draws[0]) else None, draws[from..|draws| - 1]);
    assert Draws(plan, s.clock, last.id) == draws;
    PlanChosen(c, n, s, last.id, plan);
    a := CutPlain(s.clock, last.id, count, plan);
  }

  lemma PlanChosen(c: Config, n: nat, s: State, id: string, plan: Plan)
    requires Holds(c, n) && 1 <= n && Drained(s) != [] && plan.decided == s.clock
    requires plan.cover.Some? <==> CanAttachCoverage(c, s, Drained(s), s.clock)
    requires plan.cover.Some? ==> |Drained(s)| + 1 > n
    requires |plan.misses| == Min(|Drained(s)|, c.batchSize) - Min(|Drained(s)|, n)
    requires FreshDraws(s, s.clock, Draws(plan, s.clock, id))
    ensures 1 <= Min(|Drained(s)|, n) <= Min(|Drained(s)|, c.batchSize)
    ensures Chosen(c, s, s.clock, id, Min(|Drained(s)|, n), plan)
  {
    hide CanAttachCoverage, FreshDraws, Fits, Draws;
    if plan.cover.Some? { MarkerMisses(c, n, s, plan.cover.value); }
    BatchesMiss(c, n, s, plan.misses);
    assert |PlainBatch(s, Draw(id, s.clock), Min(|Drained(s)|, n)).records| == Min(|Drained(s)|, n);
  }

  lemma DegradedWantsNone(c: Config, s: State)
    requires s.degraded
    ensures !CanAttachCoverage(c, s, Drained(s), s.clock)
  {
  }

  lemma MarkerMisses(c: Config, n: nat, s: State, d: Draw)
    requires Holds(c, n) && (CanAttachCoverage(c, s, Drained(s), s.clock) ==> |Drained(s)| + 1 > n)
    ensures CanAttachCoverage(c, s, Drained(s), s.clock) ==> !Fits(c, CoverageBatch(s, d))
  {
    hide Fits;
    assert |CoverageBatch(s, d).records| == |Drained(s)| + 1;
  }

  lemma BatchesMiss(c: Config, n: nat, s: State, misses: seq<Draw>)
    requires Holds(c, n) && |misses| == Min(|Drained(s)|, c.batchSize) - Min(|Drained(s)|, n)
    ensures forall k | 0 <= k < |misses| ::
      !Fits(c, PlainBatch(s, misses[k], Min(|Drained(s)|, c.batchSize) - k))
  {
    hide Fits;
    var first := Min(|Drained(s)|, c.batchSize);
    forall k | 0 <= k < |misses| ensures !Fits(c, PlainBatch(s, misses[k], first - k)) {
      assert |PlainBatch(s, misses[k], first - k).records| == first - k;
    }
  }

  // ---- building blocks ----

  /** A running sender with nothing in flight, an empty accumulator and no marker yet. */
  ghost predicate Ready(s: State, pending: seq<Record>, queue: seq<Record>, start: int, degraded: bool, clock: int,
                        sequence: nat) {
    s.pending == pending && s.queue == queue && s.flight.None?
    && !s.closed && !s.halted && !s.finished && !s.cancelled && s.degraded == degraded
    && s.overflowCount == 0 && s.overflowStart == 0 && s.outageStart == 0
    && s.coverageStart == start && s.previous.None? && s.markers == []
    && s.clock == clock && s.sequence == sequence
  }

  ghost function Resume(c: Config, records: seq<Record>, start: int): (r: int) {
    var boundary := RecoveryBoundary(records, c.epoch);
    if boundary.Some? then StartTime(boundary.value) else start
  }

  ghost predicate KeepsAcks(s: State, t: State) {
    forall r | InAcknowledged(s.disposed, r) :: InAcknowledged(t.disposed, r)
  }

  lemma AcksGrow(s: State, t: State, d: Disposal)
    requires t.disposed == s.disposed + [d]
    ensures KeepsAcks(s, t) && (d.acknowledged ==> forall r | r in d.batch.records :: InAcknowledged(t.disposed, r))
  {
    assert d in t.disposed;
    forall r | InAcknowledged(s.disposed, r) ensures InAcknowledged(t.disposed, r) {
      var x :| x in s.disposed && x.acknowledged && r in x.batch.records;
      assert x in t.disposed;
    }
  }

  function At(now: int): (d: Dates) { Dates(now, now, now) }

  /** One batch delivered at the first attempt. */
  lemma Deliver(c: Config, n: nat, s: State, pending: seq<Record>, queue: seq<Record>, start: int, degraded: bool,
                clock: int, sequence: nat)
    returns (t: State)
    requires Holds(c, n) && 1 <= n && Ready(s, pending, queue, start, degraded, clock, sequence)
    requires sequence <= MAX_SAFE_INTEGER && pending + queue != [] && (degraded || |pending + queue| + 1 > n)
    ensures var all, count := pending + queue, Min(|pending + queue|, n);
      && Ready(t, all[count..], [], Resume(c, all[..count], start),
               degraded && !(ContainsHealth(all[..count]) && !ContainsHealth(all[count..])), clock, sequence + 1)
      && forall r | r in all[..count] :: InAcknowledged(t.disposed, r)
    ensures Leads(c, s, t) && KeepsAcks(s, t)
  {
    hide Leads, RecoveryBoundary, StartTime, ContainsHealth, CanAttachCoverage, CutTime, Holds, Chosen, DrawnIDs,
      InAcknowledged, KeepsAcks;
    var all := pending + queue;
    if s.degraded { DegradedWantsNone(c, s); }
    var a := SomePlan(c, n, s);
    var cut := Next(c, s, a);
    t := Next(c, cut, Accept(clock, At(clock)));
    assert HealthRecords(c, cut, clock, At(clock)) == [];
    var d := Disposal(cut.flight.value.batch, a.count, true);
    assert t.disposed == s.disposed + [d];
    assert [] + all[a.count..] == all[a.count..];
    AcksGrow(s, t, d);
    LeadsStep(c, s, a);
    LeadsStep(c, cut, Accept(clock, At(clock)));
    LeadsOn(c, s, cut, t);
  }

  /** The two records an outage without overflow leaves behind. */
  ghost function Outage(c: Config, from: int, to: int): (r: seq<Record>) {
    [HealthRecord(Health(DeliveryOutage, c.epoch, to, None, Some(Interval(from, to)), 0)),
     HealthRecord(Health(Recovered, c.epoch, to, None, Some(Interval(from, to)), 0))]
  }

  /** One batch delivered at the second attempt: the outage between is reported in front. */
  lemma DeliverLate(c: Config, n: nat, s: State, pending: seq<Record>, queue: seq<Record>, start: int, degraded: bool,
                    clock: int, sequence: nat, failed: int, now: int)
    returns (t: State)
    requires Holds(c, n) && 1 <= n && Ready(s, pending, queue, start, degraded, clock, sequence)
    requires sequence <= MAX_SAFE_INTEGER && pending + queue != [] && (degraded || |pending + queue| + 1 > n)
    requires 0 < clock <= failed < now
    ensures var all, count := pending + queue, Min(|pending + queue|, n);
      Ready(t, Outage(c, failed, now) + all[count..], [], Resume(c, all[..count], start), true, now, sequence + 1)
    ensures Leads(c, s, t) && KeepsAcks(s, t)
  {
    hide Leads, RecoveryBoundary, StartTime, ContainsHealth, CanAttachCoverage, CutTime, Holds, Chosen, DrawnIDs,
      InAcknowledged, KeepsAcks;
    var all := pending + queue;
    if s.degraded { DegradedWantsNone(c, s); }
    var a := SomePlan(c, n, s);
    var cut := Next(c, s, a);
    var retried := Next(c, cut, Retry(failed, true));
    t := Next(c, retried, Accept(now, At(now)));
    assert HealthRecords(c, retried, now, At(now)) == Outage(c, failed, now);
    AcksGrow(s, t, Disposal(cut.flight.value.batch, a.count, true));
    LeadsStep(c, s, a);
    LeadsStep(c, cut, Retry(failed, true));
    LeadsStep(c, retried, Accept(now, At(now)));
    LeadsOn(c, s, cut, retried);
    LeadsOn(c, s, retried, t);
  }

  /** When so little is pending that a marker fits, one is cut and acknowledged: it covers everything since `start`. */
  lemma Attest(c: Config, n: nat, s: State, pending: seq<Record>, start: int, clock: int, sequence: nat, now: int)
    returns (t: State)
    requires Holds(c, n) && |pending| + 1 <= n && !ContainsHealth(pending)
    requires Ready(s, pending, [], start, false, clock, sequence) && sequence <= MAX_SAFE_INTEGER
    requires clock <= now && now % MILLISECOND == 0 && start <= now
    ensures Leads(c, s, t) && KeepsAcks(s, t)
    ensures |t.markers| == 1 && t.markers[0].marker.start == start && t.markers[0].marker.end == now
  {
    hide Leads, RecoveryBoundary, ContainsHealth, FreshDraws, Fits, InAcknowledged, KeepsAcks;
    var waited := s.(clock := now);
    var draws := FreshNames(s, 1);
    var id := draws[0].id;
    assert id !in s.ids && id != EPOCH_START by { FirstFresh(s, draws); }
    assert Drained(s) == pending;
    assert |CoverageBatch(s, Draw(id, now)).records| == |pending| + 1;
    var a := CutCoverage(now, now, id);
    var cut := Next(c, s, a);
    t := Next(c, cut, Accept(now, At(now)));
    assert HealthRecords(c, cut, now, At(now)) == [];
    AcksGrow(s, t, Disposal(cut.flight.value.batch, |pending|, true));
    LeadsStep(c, s, a);
    LeadsStep(c, cut, Accept(now, At(now)));
    LeadsOn(c, s, cut, t);
  }

  lemma FirstFresh(s: State, draws: seq<Draw>)
    requires FreshDraws(s, s.clock, draws) && draws != []
    ensures draws[0].id !in s.ids && draws[0].id != EPOCH_START
  {
  }

  // ---- events waiting ----

  ghost function Events(n: nat): (r: seq<Record>)
    ensures |r| == n && !ContainsHealth(r)
  {
    seq(n, _ => EventRecord("e"))
  }

  lemma EventsMore(n: nat)
    ensures Events(n) + [EventRecord("e")] == Events(n + 1) && [EventRecord("e")] + Events(n) == Events(n + 1)
  {
  }

  /** The queue can fill up at any moment. */
  lemma {:induction false} Fill(c: Config, s: State, n: nat) returns (t: State)
    requires !s.closed && !s.halted && s.queue == [] && n <= c.capacity
    ensures Leads(c, s, t) && t == s.(queue := Events(n), accepted := t.accepted)
    decreases n
  {
    hide Leads;
    if n == 0 {
      t := s;
      LeadsNowhere(c, s);
    } else {
      var u := Fill(c, s, n - 1);
      t := Next(c, u, Enqueue("e", u.clock));
      EventsMore(n - 1);
      LeadsStep(c, u, Enqueue("e", u.clock));
      LeadsOn(c, s, u, t);
    }
  }

  lemma LeadsNowhere(c: Config, s: State)
    ensures Leads(c, s, s)
  {
    assert Runs(c, s, [], s);
  }

  const M := MILLISECOND

  /** One event more than fits beside a marker is waiting. */
  lemma Started(c: Config, n: nat) returns (s: State)
    requires ValidConfig(c) && n <= c.batchSize
    ensures Leads(c, Init(c, M, None), s) && Ready(s, [], Events(n), M, false, M, 1)
  {
    hide Leads, Events;
    s := Fill(c, Init(c, M, None), n);
  }

  // ---- where coverage resumes ----

  lemma ResumeAfter(c: Config, records: seq<Record>, start: int, boundary: int)
    requires records != [] && boundary % MILLISECOND == 0 && records[0].HealthRecord?
    requires forall k | 0 <= k < |records| && records[k].HealthRecord? ::
      records[k].health.epoch == c.epoch && Boundary(records[k].health) == boundary
    ensures Resume(c, records, start) == boundary
  {
    hide Boundary, RecoveryBoundary;
    BoundaryBounds(records, c.epoch);
    assert records[0] == HealthRecord(records[0].health) && records[0] in records;
    var h :| HealthRecord(h) in records && h.epoch == c.epoch
      && Boundary(h) == RecoveryBoundary(records, c.epoch).value;
    var k :| 0 <= k < |records| && records[k] == HealthRecord(h);
  }

  lemma ResumeUnchanged(c: Config, records: seq<Record>, start: int)
    requires !ContainsHealth(records)
    ensures Resume(c, records, start) == start
  {
    BoundaryBounds(records, c.epoch);
    assert forall h | HealthRecord(h) in records :: ContainsHealth(records);
  }

  // ---- batches of one record ----

  /** Two outages, delivered one record at a time: coverage resumes at the end of the first. */
  lemma OneRecordBatches(c: Config) returns (t: State)
    requires ValidConfig(c) && Holds(c, 1)
    ensures Leads(c, Init(c, M, None), t)
    ensures |t.markers| == 1 && t.markers[0].marker.start == 2 * M && t.markers[0].marker.end == 5 * M
    ensures InAcknowledged(t.disposed, Outage(c, 3 * M, 4 * M)[0])
  {
    hide Leads, Init, Ready, RecoveryBoundary, StartTime, InAcknowledged, Resume, Holds;
    var e := EventRecord("e");
    var first, second := Outage(c, M, 2 * M), Outage(c, 3 * M, 4 * M);
    var s := Started(c, 1);
    assert Events(1) == [e];
    ResumeUnchanged(c, [e], M);
    var s1 := DeliverLate(c, 1, s, [], [e], M, false, M, 1, M, 2 * M);
    assert ([] + [e])[..1] == [e] && first + ([] + [e])[1..] == first;
    LeadsOn(c, Init(c, M, None), s, s1);

    ResumeAfter(c, [first[0]], M, 2 * M);
    var s2 := DeliverLate(c, 1, s1, first, [], M, true, 2 * M, 2, 3 * M, 4 * M);
    var mixed := [second[0], second[1], first[1]];
    assert (first + [])[..1] == [first[0]] && second + (first + [])[1..] == mixed;
    LeadsOn(c, Init(c, M, None), s1, s2);

    ResumeAfter(c, [second[0]], 2 * M, 4 * M);
    var s3 := Deliver(c, 1, s2, mixed, [], 2 * M, true, 4 * M, 3);
    assert (mixed + [])[..1] == [second[0]] && (mixed + [])[1..] == mixed[1..];
    assert mixed[1..][0].HealthRecord?;
    assert second[0] in (mixed + [])[..1];
    LeadsOn(c, Init(c, M, None), s2, s3);

    ResumeAfter(c, [second[1]], 4 * M, 4 * M);
    var s4 := Deliver(c, 1, s3, mixed[1..], [], 4 * M, true, 4 * M, 4);
    assert (mixed[1..] + [])[..1] == [second[1]] && (mixed[1..] + [])[1..] == mixed[2..];
    assert mixed[2..][0].HealthRecord?;
    LeadsOn(c, Init(c, M, None), s3, s4);

    ResumeAfter(c, [first[1]], 4 * M, 2 * M);
    var s5 := Deliver(c, 1, s4, mixed[2..], [], 4 * M, true, 4 * M, 5);
    assert (mixed[2..] + [])[..1] == [first[1]] && (mixed[2..] + [])[1..] == [];
    assert [first[1]][0].HealthRecord?;
    LeadsOn(c, Init(c, M, None), s4, s5);

    t := Attest(c, 1, s5, [], 2 * M, 4 * M, 6, 5 * M);
    LeadsOn(c, Init(c, M, None), s5, t);
  }

  // ---- batches of two records ----

  ghost function OverflowReport(c: Config, from: int, to: int): (r: Record) {
    HealthRecord(Health(QueueOverflow, c.epoch, to, None, Some(Interval(from, to)), 1))
  }

  /** A batch of two events is in flight and the queue is full. */
  ghost predicate Crowded(c: Config, s: State) {
    s.pending == Events(2) && s.queue == Events(c.capacity)
    && s.flight.Some? && s.flight.value.batch.records == Events(2) && s.flight.value.count == 2
    && s.flight.value.marker.None?
    && !s.closed && !s.halted && !s.finished && !s.cancelled && !s.degraded
    && s.overflowCount == 0 && s.overflowStart == 0 && s.outageStart == 0
    && s.coverageStart == M && s.previous.None? && s.markers == [] && s.clock == M && s.sequence == 1
  }

  lemma Crowd(c: Config) returns (t: State)
    requires ValidConfig(c) && Holds(c, 2)
    ensures Leads(c, Init(c, M, None), t) && Crowded(c, t)
  {
    var s := Started(c, 2);
    hide Leads, Init, CanAttachCoverage, CutTime, Holds, Chosen, DrawnIDs, Events;
    var a := SomePlan(c, 2, s);
    var cut := Next(c, s, a);
    assert cut.pending == Events(2) && cut.flight.value.batch.records == Events(2);
    LeadsStep(c, s, a);
    LeadsOn(c, Init(c, M, None), s, cut);
    t := Fill(c, cut, c.capacity);
    LeadsOn(c, Init(c, M, None), cut, t);
  }

  /** One event is dropped at a full queue while delivery fails once: three records report it. */
  lemma Overflowed(c: Config) returns (t: State)
    requires ValidConfig(c) && Holds(c, 2)
    ensures Leads(c, Init(c, M, None), t)
    ensures Ready(t, [OverflowReport(c, M, 2 * M)] + Outage(c, M, 2 * M), Events(c.capacity), M, true, 2 * M, 2)
  {
    hide Leads, Init, RecoveryBoundary, StartTime, Holds, Events;
    var full := Crowd(c);
    var dropped := Next(c, full, Enqueue("e", M));
    LeadsStep(c, full, Enqueue("e", M));
    LeadsOn(c, Init(c, M, None), full, dropped);
    var retried := Next(c, dropped, Retry(M, true));
    LeadsStep(c, dropped, Retry(M, true));
    LeadsOn(c, Init(c, M, None), dropped, retried);
    t := Next(c, retried, Accept(2 * M, At(2 * M)));
    LeadsStep(c, retried, Accept(2 * M, At(2 * M)));
    LeadsOn(c, Init(c, M, None), retried, t);
    assert HealthRecords(c, retried, 2 * M, At(2 * M)) == [OverflowReport(c, M, 2 * M)] + Outage(c, M, 2 * M);
    ResumeUnchanged(c, Events(2), M);
  }

  /** Events alone are delivered in twos until a marker fits beside what is left. */
  lemma {:induction false} DrainEvents(c: Config, s: State, n: nat, start: int, clock: int, sequence: nat)
    returns (t: State, left: nat, last: nat)
    requires Holds(c, 2) && Ready(s, Events(n), [], start, false, clock, sequence) && sequence + n <= MAX_SAFE_INTEGER
    ensures Leads(c, s, t) && KeepsAcks(s, t)
    ensures left <= 1 && Ready(t, Events(left), [], start, false, clock, last) && last <= sequence + n
    decreases n
  {
    hide Leads, Ready, InAcknowledged, Resume, Holds;
    if n <= 1 {
      t, left, last := s, n, sequence;
      LeadsNowhere(c, s);
    } else {
      var all := Events(n) + [];
      assert all[..2] == Events(2) && all[2..] == Events(n - 2);
      ResumeUnchanged(c, Events(2), start);
      var u := Deliver(c, 2, s, Events(n), [], start, false, clock, sequence);
      t, left, last := DrainEvents(c, u, n - 2, start, clock, sequence + 1);
      LeadsOn(c, s, u, t);
    }
  }

  /** A dropped event and two outages, delivered two records at a time: coverage resumes at the end of the first. */
  lemma TwoRecordBatches(c: Config) returns (t: State)
    requires ValidConfig(c) && Holds(c, 2)
    ensures Leads(c, Init(c, M, None), t)
    ensures |t.markers| == 1 && t.markers[0].marker.start == 2 * M && t.markers[0].marker.end == 5 * M
    ensures InAcknowledged(t.disposed, Outage(c, 3 * M, 4 * M)[0])
  {
    var s2, rest := SecondOutage(c);
    hide Leads, Init, Ready, RecoveryBoundary, StartTime, InAcknowledged, Resume, Events, Holds;
    var late, e, n := Outage(c, M, 2 * M)[1], EventRecord("e"), c.capacity;
    EventsMore(n - 1);
    ResumeAfter(c, [late, e], 4 * M, 2 * M);
    var s3 := Deliver(c, 2, s2, rest, [], 4 * M, true, 4 * M, 4);
    assert (rest + [])[..2] == [late, e] && (rest + [])[2..] == Events(n - 1);
    assert [late, e][0].HealthRecord?;
    LeadsOn(c, Init(c, M, None), s2, s3);

    var s4, left, last := DrainEvents(c, s3, n - 1, 2 * M, 4 * M, 5);
    LeadsOn(c, Init(c, M, None), s3, s4);
    t := Attest(c, 2, s4, Events(left), 2 * M, 4 * M, last, 5 * M);
    LeadsOn(c, Init(c, M, None), s4, t);
  }

  /** The second outage is reported before the last record of the first. */
  lemma SecondOutage(c: Config) returns (t: State, rest: seq<Record>)
    requires ValidConfig(c) && Holds(c, 2)
    ensures rest == [Outage(c, M, 2 * M)[1]] + Events(c.capacity)
    ensures Leads(c, Init(c, M, None), t) && Ready(t, rest, [], 4 * M, true, 4 * M, 4)
    ensures InAcknowledged(t.disposed, Outage(c, 3 * M, 4 * M)[0])
  {
    hide Leads, Init, Ready, RecoveryBoundary, StartTime, InAcknowledged, Resume, Events, Holds;
    var first, second := [OverflowReport(c, M, 2 * M)] + Outage(c, M, 2 * M), Outage(c, 3 * M, 4 * M);
    var n := c.capacity;
    var s := Overflowed(c);
    ResumeAfter(c, first[..2], M, 2 * M);
    var s1 := DeliverLate(c, 2, s, first, Events(n), M, true, 2 * M, 2, 3 * M, 4 * M);
    rest := [first[2]] + Events(n);
    var mixed := second + rest;
    assert (first + Events(n))[..2] == first[..2] && second + (first + Events(n))[2..] == mixed;
    LeadsOn(c, Init(c, M, None), s, s1);

    ResumeAfter(c, second, 2 * M, 4 * M);
    t := Deliver(c, 2, s1, mixed, [], 2 * M, true, 4 * M, 3);
    assert (mixed + [])[..2] == second && (mixed + [])[2..] == rest;
    assert rest[0].HealthRecord? && second[0].HealthRecord? && second[0] in (mixed + [])[..2];
    LeadsOn(c, Init(c, M, None), s1, t);
  }

  // ---- nothing fits ----

  /** Where not even one record fits, nothing is ever in flight and no marker is committed. */
  lemma {:induction false} NothingFits(c: Config, s: State, actions: seq<Action>, t: State)
    requires Holds(c, 0) && s.flight.None? && s.markers == [] && Runs(c, s, actions, t)
    ensures t.flight.None? && t.markers == []
    decreases actions
  {
    hide Next, Holds;
    if actions != [] {
      var a := actions[0];
      NoCut(c, s, a);
      CoverageCases(c, s, a);
      FlightFromCut(c, s, a);
      NothingFits(c, Next(c, s, a), actions[1..], t);
    }
  }

  lemma NoCut(c: Config, s: State, a: Action)
    requires Holds(c, 0) && Enabled(c, s, a)
    ensures !a.CutPlain? && !a.CutCoverage?
  {
    hide ContainsHealth, CutTime, Fits, FreshDraws;
  }

  // ---- the exact condition ----

  /** A run that commits a marker over an acknowledged loss or outage interval of its own epoch. */
  ghost predicate Overlaps(c: Config, now: int, restartOf: Option<string>, actions: seq<Action>, t: State, m: Commit,
                           h: Health) {
    Reached(c, now, restartOf, actions, t) && m in t.markers
    && Loss(c, h) && InAcknowledged(t.disposed, HealthRecord(h)) && !Clear(m.marker, h.interval.value)
  }

  /** Where one or two records fill a batch, some run overlaps. */
  lemma SmallBatchesOverlap(c: Config, n: nat)
    requires ValidConfig(c) && Holds(c, n) && 1 <= n <= 2
    ensures exists actions, t, m, h :: Overlaps(c, M, None, actions, t, m, h)
  {
    hide Init, Runs, InAcknowledged, Holds;
    var t := *;
    if n == 1 { t := OneRecordBatches(c); } else { t := TwoRecordBatches(c); }
    var actions :| Runs(c, Init(c, M, None), actions, t);
    var m, h := t.markers[0], Outage(c, 3 * M, 4 * M)[0].health;
    assert Overlaps(c, M, None, actions, t, m, h);
  }

  lemma NeverOverlaps(c: Config, n: nat, now: int, restartOf: Option<string>, actions: seq<Action>, t: State, m: Commit,
                      h: Health)
    requires Holds(c, n) && (n == 0 || n >= 3)
    ensures !Overlaps(c, now, restartOf, actions, t, m, h)
  {
    if Overlaps(c, now, restartOf, actions, t, m, h) {
      if n == 0 {
        NothingFits(c, Init(c, now, restartOf), actions, t);
      } else {
        HoldsIsRoomy(c, n);
        hide Holds, Roomy;
        CoverageAvoidsLoss(c, now, restartOf, actions, t, m, h);
      }
    }
  }

  lemma HoldsIsRoomy(c: Config, n: nat)
    requires Holds(c, n) && n >= 3
    ensures Roomy(c)
  {
    hide Fits;
  }

  /** Coverage keeps clear of every reported loss, over all runs, exactly when three records fit into a batch
      or none does. */
  lemma SeparationExactlyWhenRoomy(c: Config, n: nat)
    requires ValidConfig(c) && Holds(c, n)
    ensures n == 0 || n >= 3 <==>
      forall now, restartOf, actions, t, m, h :: !Overlaps(c, now, restartOf, actions, t, m, h)
  {
    hide Holds, Overlaps;
    if n == 0 || n >= 3 {
      forall now, restartOf, actions, t, m, h ensures !Overlaps(c, now, restartOf, actions, t, m, h) {
        NeverOverlaps(c, n, now, restartOf, actions, t, m, h);
      }
    } else {
      SmallBatchesOverlap(c, n);
    }
  }
}
