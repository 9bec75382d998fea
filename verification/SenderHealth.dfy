/** Loss accounting: the degraded flag, dropped events and rejected batches. */
module SenderHealth {
  import opened Prelude
  import opened Sender
  import opened SenderInvariants

  // ---- where health records are ----

  lemma ContainsHealthConcat(a: seq<Record>, b: seq<Record>)
    ensures ContainsHealth(a + b) <==> ContainsHealth(a) || ContainsHealth(b)
  {
    var all := a + b;
    if ContainsHealth(a) {
      var k :| 0 <= k < |a| && a[k].HealthRecord?;
      assert all[k].HealthRecord?;
    }
    if ContainsHealth(b) {
      var k :| 0 <= k < |b| && b[k].HealthRecord?;
      assert all[|a| + k].HealthRecord?;
    }
    if ContainsHealth(all) {
      var k :| 0 <= k < |all| && all[k].HealthRecord?;
      assert k < |a| || b[k - |a|].HealthRecord?;
    }
  }

  lemma BatchHealth(s: State)
    requires Carried(s) && s.flight.Some?
    ensures var f := s.flight.value;
      && (ContainsHealth(f.batch.records) <==> ContainsHealth(s.pending[..f.count]))
      && (ContainsHealth(s.pending) <==> ContainsHealth(f.batch.records) || ContainsHealth(s.pending[f.count..]))
  {
    var f := s.flight.value;
    assert s.pending == s.pending[..f.count] + s.pending[f.count..];
    ContainsHealthConcat(s.pending[..f.count], s.pending[f.count..]);
    ContainsHealthConcat(s.pending[..f.count], MarkerRecords(f.marker));
    assert !ContainsHealth(MarkerRecords(f.marker));
  }

  // ---- the degraded flag ----

  /** The sender is degraded exactly while there is unreported loss, undelivered health or a halt. */
  ghost predicate Flagged(s: State) {
    (s.degraded <==>
     s.overflowCount > 0 || s.outageStart != 0 || ContainsHealth(s.pending) || ContainsHealth(s.queue) || s.halted)
    && (s.flight.Some? ==> !ContainsHealth(s.queue))
    && (s.overflowCount == 0 <==> s.overflowStart == 0) && s.overflowCount <= MAX_SAFE_INTEGER
    && s.clock > 0
  }

  lemma FlaggedCut(c: Config, s: State, a: Action)
    requires Enabled(c, s, a) && Flagged(s) && (a.Receive? || a.CutIdle? || a.CutFail? || a.CutPlain? || a.CutCoverage?)
    ensures Flagged(Next(c, s, a))
  {
    hide ContainsHealth, CutTime;
    ContainsHealthConcat(s.pending, s.queue);
    NoHealthInNothing();
    if a.Receive? {
      assert s.queue == [s.queue[0]] + s.queue[1..];
      ContainsHealthConcat([s.queue[0]], s.queue[1..]);
      ContainsHealthConcat(s.pending, [s.queue[0]]);
    }
  }

  lemma NoHealthInNothing()
    ensures !ContainsHealth([])
  {
  }

  lemma HealthShows(records: seq<Record>)
    requires AllHealth(records)
    ensures ContainsHealth(records) <==> records != []
  {
    assert records != [] ==> records[0].HealthRecord?;
  }

  lemma FlaggedAccept(c: Config, s: State, a: Action)
    requires Enabled(c, s, a) && Flagged(s) && Carried(s) && (a.Accept? || a.AcceptUnreported?)
    ensures Flagged(Next(c, s, a))
  {
    hide ContainsHealth, RecoveryBoundary, StartTime, EventsOf, RecordsOf, EventsOfAll;
    BatchHealth(s);
    if a.Accept? {
      HealthRecordsAreHealth(c, s, a.now, a.dates);
      HealthShows(HealthRecords(c, s, a.now, a.dates));
      ContainsHealthConcat(HealthRecords(c, s, a.now, a.dates), s.pending[s.flight.value.count..]);
    }
  }

  lemma FlaggedOther(c: Config, s: State, a: Action)
    requires Enabled(c, s, a) && Flagged(s) && Carried(s)
    requires !(a.Receive? || a.CutIdle? || a.CutFail? || a.CutPlain? || a.CutCoverage?)
    requires !(a.Accept? || a.AcceptUnreported?)
    ensures Flagged(Next(c, s, a))
  {
    hide ContainsHealth, EventsOf, RecordsOf, EventsOfAll;
    if a.Enqueue? {
      ContainsHealthConcat(s.queue, [EventRecord(a.event)]);
      OneEventNoHealth(a.event);
    }
    if a.Reject? || a.RejectUnreported? {
      BatchHealth(s);
    }
  }

  lemma OneEventNoHealth(e: Event)
    ensures !ContainsHealth([EventRecord(e)])
  {
  }

  lemma FlaggedKept(c: Config, s: State, a: Action)
    requires Enabled(c, s, a) && Flagged(s) && Carried(s)
    ensures Flagged(Next(c, s, a))
  {
    hide Enabled, Next, Flagged, Carried;
    if a.Receive? || a.CutIdle? || a.CutFail? || a.CutPlain? || a.CutCoverage? {
      FlaggedCut(c, s, a);
    } else if a.Accept? || a.AcceptUnreported? {
      FlaggedAccept(c, s, a);
    } else {
      FlaggedOther(c, s, a);
    }
  }

  // ---- dropped events ----

  /** The events that queue-overflow records report as lost. */
  ghost function OverflowSum(records: seq<Record>): (n: nat) {
    if records == [] then 0
    else (if records[0].HealthRecord? && records[0].health.cause == QueueOverflow then records[0].health.dropped else 0)
         + OverflowSum(records[1..])
  }

  lemma {:induction false} OverflowConcat(a: seq<Record>, b: seq<Record>)
    ensures OverflowSum(a + b) == OverflowSum(a) + OverflowSum(b)
  {
    if a == [] {
      assert a + b == b;
    } else {
      assert (a + b)[1..] == a[1..] + b;
      OverflowConcat(a[1..], b);
    }
  }

  ghost function Reported(s: State): (n: nat) {
    OverflowSum(RecordsOf(s.disposed)) + OverflowSum(s.pending) + OverflowSum(s.queue)
  }

  /** Full-queue drops are the reported ones plus the accumulator, exactly until the counter saturates. */
  ghost predicate Accounted(s: State) {
    Reported(s) + s.overflowCount <= s.drops
    && (s.drops <= MAX_SAFE_INTEGER ==> Reported(s) + s.overflowCount == s.drops)
  }

  lemma DisposalSum(s: State, s': State, d: Disposal, extra: seq<Record>)
    requires Carried(s) && s.flight.Some? && d.batch == s.flight.value.batch
    requires s'.disposed == s.disposed + [d] && s'.pending == extra + s.pending[s.flight.value.count..]
      && s'.queue == s.queue
    ensures Reported(s') == Reported(s) + OverflowSum(extra)
  {
    hide EventsOf, EventsOfAll, ContainsHealth;
    var f := s.flight.value;
    RecordsSnoc(s.disposed, d);
    OverflowConcat(RecordsOf(s.disposed), f.batch.records);
    OverflowConcat(s.pending[..f.count], MarkerRecords(f.marker));
    assert s.pending == s.pending[..f.count] + s.pending[f.count..];
    OverflowConcat(s.pending[..f.count], s.pending[f.count..]);
    OverflowConcat(extra, s.pending[f.count..]);
    assert OverflowSum(MarkerRecords(f.marker)) == 0;
  }

  lemma TakenSum(c: Config, s: State, ended: int, dates: Dates)
    ensures OverflowSum(HealthRecords(c, s, ended, dates)) == s.overflowCount
  {
    hide Earliest;
    var r := HealthRecords(c, s, ended, dates);
    if r != [] {
      var whole := Interval(Earliest(s, ended), ended);
      var last := [HealthRecord(Health(Recovered, c.epoch, dates.recovered, None, Some(whole), 0))];
      assert r == r[..|r| - 1] + last;
      OverflowConcat(r[..|r| - 1], last);
      assert OverflowSum(last) == 0;
      if s.overflowCount > 0 && s.outageStart != 0 {
        assert r[..2] == [r[0]] + [r[1]];
        OverflowConcat([r[0]], [r[1]]);
      }
    }
  }

  lemma AccountedFinish(c: Config, s: State, a: Action)
    requires Enabled(c, s, a) && Accounted(s) && Carried(s)
      && (a.Accept? || a.AcceptUnreported? || a.Reject? || a.RejectUnreported?)
    ensures Accounted(Next(c, s, a))
  {
    hide HealthRecords, RecoveryBoundary, StartTime, ContainsHealth, EventsOf, EventsOfAll, RecordsOf, Reported;
    var f, s' := s.flight.value, Next(c, s, a);
    var rest := s.pending[f.count..];
    assert [] + rest == rest;
    match a
    case Accept(now, occurred) =>
      TakenSum(c, s, now, occurred);
      DisposalSum(s, s', Disposal(f.batch, f.count, true), HealthRecords(c, s, now, occurred));
    case AcceptUnreported(_) => DisposalSum(s, s', Disposal(f.batch, f.count, true), []);
    case Reject(_, occurred) =>
      DisposalSum(s, s', Disposal(f.batch, f.count, false), [RejectedReport(c, s.sequence, f.count, occurred)]);
    case RejectUnreported(_) => DisposalSum(s, s', Disposal(f.batch, f.count, false), []);
  }

  lemma AccountedShift(s: State, s': State)
    requires Accounted(s) && Shifted(s, s') && s'.overflowCount == s.overflowCount && s'.drops == s.drops
    ensures Accounted(s')
  {
    hide RecordsOf, ContainsHealth;
    OverflowConcat(s.pending, s.queue);
    OverflowConcat(s'.pending, s'.queue);
  }

  lemma AccountedOther(c: Config, s: State, a: Action)
    requires Enabled(c, s, a) && Accounted(s) && Flagged(s)
    requires a.Enqueue? || a.Retry? || a.Fatal? || a.GiveUp? || a.Close? || a.Cancel? || a.Finish?
    ensures Accounted(Next(c, s, a))
  {
    hide RecordsOf, ContainsHealth, OverflowSum;
    if a.Enqueue? { AccountedEnqueue(c, s, a.event, a.now); }
  }

  lemma AccountedEnqueue(c: Config, s: State, e: Event, now: int)
    requires Enabled(c, s, Enqueue(e, now)) && Accounted(s) && Flagged(s)
    ensures Accounted(Next(c, s, Enqueue(e, now)))
  {
    hide RecordsOf, ContainsHealth, OverflowSum, HealthRecords;
    OverflowConcat(s.queue, [EventRecord(e)]);
    EventLosesNothing(e);
  }

  lemma EventLosesNothing(e: Event)
    ensures OverflowSum([EventRecord(e)]) == 0
  {
  }

  lemma AccountedKept(c: Config, s: State, a: Action)
    requires Enabled(c, s, a) && Accounted(s) && Flagged(s) && Carried(s)
    ensures Accounted(Next(c, s, a))
  {
    hide Accounted, Flagged, Carried, ContainsHealth, Shifted;
    if a.Receive? || a.CutIdle? || a.CutFail? || a.CutPlain? || a.CutCoverage? {
      CutShape(c, s, a);
      AccountedShift(s, Next(c, s, a));
    } else if a.Accept? || a.AcceptUnreported? || a.Reject? || a.RejectUnreported? {
      AccountedFinish(c, s, a);
    } else {
      AccountedOther(c, s, a);
    }
  }

  // ---- rejected batches ----

  ghost predicate LossReport(h: Health, d: Disposal) {
    h.cause == RejectedBatch && h.sequence == Some(d.batch.sequence) && h.dropped == d.count
  }

  ghost predicate InAcknowledged(disposed: seq<Disposal>, r: Record) {
    exists d | d in disposed :: d.acknowledged && r in d.batch.records
  }

  /** The loss of a rejected batch is reported with its count, delivered or about to be. */
  ghost predicate LossKnown(s: State, d: Disposal) {
    exists h :: LossReport(h, d) && (HealthRecord(h) in s.pending || InAcknowledged(s.disposed, HealthRecord(h)))
  }

  /** The loss report of a rejected batch was acknowledged. */
  ghost predicate LossDelivered(disposed: seq<Disposal>, d: Disposal) {
    exists h :: LossReport(h, d) && InAcknowledged(disposed, HealthRecord(h))
  }

  /** Pending and queued records are events and health only. */
  ghost predicate Ordinary(records: seq<Record>) { forall k | 0 <= k < |records| :: !records[k].CoverageRecord? }

  /** Unless the sender halted, every rejected batch held events only, as many as reported, and its loss is known. */
  ghost predicate Answered(s: State) {
    Ordinary(s.pending) && Ordinary(s.queue)
    && forall d | d in s.disposed && !d.acknowledged && !s.halted ::
         !ContainsHealth(d.batch.records) && |EventsOf(d.batch.records)| == d.count && LossKnown(s, d)
  }

  lemma {:induction false} AllEvents(records: seq<Record>)
    requires Ordinary(records) && !ContainsHealth(records)
    ensures |EventsOf(records)| == |records|
  {
    if records != [] {
      assert !records[0].HealthRecord?;
      assert forall k | 0 <= k < |records| - 1 :: records[1..][k] == records[k + 1];
      AllEvents(records[1..]);
    }
  }

  lemma FlightCount(s: State)
    requires Carried(s) && s.flight.Some? && Ordinary(s.pending) && !ContainsHealth(s.flight.value.batch.records)
    ensures |EventsOf(s.flight.value.batch.records)| == s.flight.value.count
  {
    hide ContainsHealth, RecordsOf, EventsOfAll;
    var f := s.flight.value;
    BatchHealth(s);
    AllEvents(s.pending[..f.count]);
    EventsConcat(s.pending[..f.count], MarkerRecords(f.marker));
    NoEvents(MarkerRecords(f.marker));
  }

  /** Knowledge of a loss survives when pending records stay pending or are acknowledged. */
  lemma LossStays(s: State, s': State, d: Disposal)
    requires LossKnown(s, d)
    requires forall x | x in s.disposed :: x in s'.disposed
    requires forall h | HealthRecord(h) in s.pending ::
      HealthRecord(h) in s'.pending || InAcknowledged(s'.disposed, HealthRecord(h))
    ensures LossKnown(s', d)
  {
    var h :| LossReport(h, d) && (HealthRecord(h) in s.pending || InAcknowledged(s.disposed, HealthRecord(h)));
    if InAcknowledged(s.disposed, HealthRecord(h)) {
      var x :| x in s.disposed && x.acknowledged && HealthRecord(h) in x.batch.records;
      assert x in s'.disposed;
    }
    assert HealthRecord(h) in s'.pending || InAcknowledged(s'.disposed, HealthRecord(h));
  }

  lemma AnsweredAccept(c: Config, s: State, a: Action)
    requires Enabled(c, s, a) && Answered(s) && Carried(s) && a.Accept?
    ensures Answered(Next(c, s, a))
  {
    hide HealthRecords, RecoveryBoundary, StartTime, ContainsHealth, EventsOf, EventsOfAll, RecordsOf, LossKnown,
      InAcknowledged;
    var f, s' := s.flight.value, Next(c, s, a);
    HealthRecordsAreHealth(c, s, a.now, a.dates);
    var acked := Disposal(f.batch, f.count, true);
    assert acked in s'.disposed;
    forall r | r in s.pending
      ensures r in s'.pending || InAcknowledged(s'.disposed, r)
    {
      AckedOrPending(s, s', r, acked);
    }
    forall d | d in s'.disposed && !d.acknowledged && !s'.halted ensures LossKnown(s', d) {
      assert d in s.disposed;
      LossStays(s, s', d);
    }
  }

  lemma AckedOrPending(s: State, s': State, r: Record, acked: Disposal)
    requires Carried(s) && s.flight.Some? && r in s.pending
    requires acked in s'.disposed && acked.acknowledged && acked.batch == s.flight.value.batch
    requires forall x | x in s.pending[s.flight.value.count..] :: x in s'.pending
    ensures r in s'.pending || InAcknowledged(s'.disposed, r)
  {
    hide EventsOf, EventsOfAll, RecordsOf, ContainsHealth;
    var f := s.flight.value;
    assert s.pending == s.pending[..f.count] + s.pending[f.count..];
    if r in s.pending[..f.count] { assert r in f.batch.records; }
  }

  lemma AnsweredReject(c: Config, s: State, a: Action)
    requires Enabled(c, s, a) && Answered(s) && Carried(s) && a.Reject?
    ensures Answered(Next(c, s, a))
  {
    hide ContainsHealth, EventsOf, EventsOfAll, RecordsOf, InAcknowledged;
    var f, s' := s.flight.value, Next(c, s, a);
    var lost, report := Disposal(f.batch, f.count, false), RejectedReport(c, s.sequence, f.count, a.occurred);
    assert s'.pending == [report] + s.pending[f.count..];
    assert report in s'.pending && LossReport(report.health, lost);
    FlightCount(s);
    forall h | HealthRecord(h) in s.pending ensures HealthRecord(h) in s'.pending { StillPending(s, h); }
    forall d | d in s'.disposed && !d.acknowledged && !s'.halted
      ensures !ContainsHealth(d.batch.records) && |EventsOf(d.batch.records)| == d.count && LossKnown(s', d)
    {
      if d in s.disposed { LossStays(s, s', d); } else { assert d == lost; }
    }
  }

  lemma StillPending(s: State, h: Health)
    requires Carried(s) && s.flight.Some? && !ContainsHealth(s.flight.value.batch.records)
      && HealthRecord(h) in s.pending
    ensures HealthRecord(h) in s.pending[s.flight.value.count..]
  {
    var f := s.flight.value;
    BatchHealth(s);
    var front := s.pending[..f.count];
    assert forall k | 0 <= k < |front| :: front[k] != HealthRecord(h);
    assert s.pending == front + s.pending[f.count..];
  }

  lemma AnsweredShift(s: State, s': State)
    requires Answered(s) && Shifted(s, s') && (s.halted ==> s'.halted)
    ensures Answered(s')
  {
    hide ContainsHealth, EventsOf, RecordsOf, InAcknowledged;
    var all := Drained(s);
    assert Ordinary(all);
    assert all == s'.pending + s'.queue;
    assert Ordinary(s'.pending) by { assert forall k | 0 <= k < |s'.pending| :: s'.pending[k] == all[k]; }
    assert Ordinary(s'.queue) by { assert forall k | 0 <= k < |s'.queue| :: s'.queue[k] == all[|s'.pending| + k]; }
    forall d | d in s.disposed && !d.acknowledged && !s'.halted ensures LossKnown(s', d) { LossStays(s, s', d); }
  }

  lemma AnsweredUnreported(c: Config, s: State, a: Action)
    requires Enabled(c, s, a) && Answered(s) && Carried(s) && (a.AcceptUnreported? || a.RejectUnreported?)
    ensures Answered(Next(c, s, a))
  {
    hide ContainsHealth, EventsOf, EventsOfAll, RecordsOf, RecoveryBoundary, StartTime, LossKnown;
  }

  lemma AnsweredOther(c: Config, s: State, a: Action)
    requires Enabled(c, s, a) && Answered(s)
    requires a.Enqueue? || a.Retry? || a.Fatal? || a.GiveUp? || a.Close? || a.Cancel? || a.Finish?
    ensures Answered(Next(c, s, a))
  {
    hide ContainsHealth, EventsOf;
  }

  lemma AnsweredKept(c: Config, s: State, a: Action)
    requires Enabled(c, s, a) && Answered(s) && Carried(s)
    ensures Answered(Next(c, s, a))
  {
    hide Enabled, Answered, Carried, Shifted;
    if a.Accept? {
      AnsweredAccept(c, s, a);
    } else if a.Reject? {
      AnsweredReject(c, s, a);
    } else if a.AcceptUnreported? || a.RejectUnreported? {
      AnsweredUnreported(c, s, a);
    } else if a.Receive? || a.CutIdle? || a.CutFail? || a.CutPlain? || a.CutCoverage? {
      CutShape(c, s, a);
      HaltsStay(c, s, a);
      AnsweredShift(s, Next(c, s, a));
    } else {
      AnsweredOther(c, s, a);
    }
  }

  lemma HaltsStay(c: Config, s: State, a: Action)
    requires Enabled(c, s, a)
    ensures (s.halted ==> Next(c, s, a).halted) && (s.closed ==> Next(c, s, a).closed)
      && (s.finished ==> Next(c, s, a).finished)
  {
    hide ContainsHealth, CanAttachCoverage, HealthRecords, RecoveryBoundary, CutTime, StartTime;
  }
}
