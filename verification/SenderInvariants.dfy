/** What every step of the sender keeps. */
module SenderInvariants {
  import opened Prelude
  import opened Sender

  // ---- reading records ----

  ghost function EventsOf(records: seq<Record>): (r: seq<Event>) {
    if records == [] then []
    else (if records[0].EventRecord? then [records[0].event] else []) + EventsOf(records[1..])
  }

  ghost function EventsOfAll(accepted: seq<Accepted>): (r: seq<Event>) {
    if accepted == [] then [] else EventsOfAll(accepted[..|accepted| - 1]) + [accepted[|accepted| - 1].event]
  }

  /** All records of the finished batches, in order. */
  ghost function RecordsOf(disposed: seq<Disposal>): (r: seq<Record>) {
    if disposed == [] then [] else RecordsOf(disposed[..|disposed| - 1]) + disposed[|disposed| - 1].batch.records
  }

  lemma {:induction false} EventsConcat(a: seq<Record>, b: seq<Record>)
    ensures EventsOf(a + b) == EventsOf(a) + EventsOf(b)
  {
    if a == [] {
      assert a + b == b;
    } else {
      assert (a + b)[1..] == a[1..] + b;
      EventsConcat(a[1..], b);
    }
  }

  lemma {:induction false} NoEvents(records: seq<Record>)
    requires forall k | 0 <= k < |records| :: !records[k].EventRecord?
    ensures EventsOf(records) == []
  {
    if records != [] { NoEvents(records[1..]); }
  }

  lemma RecordsSnoc(disposed: seq<Disposal>, d: Disposal)
    ensures RecordsOf(disposed + [d]) == RecordsOf(disposed) + d.batch.records
  {
    var all := disposed + [d];
    assert all[..|disposed|] == disposed;
  }

  lemma AcceptedSnoc(accepted: seq<Accepted>, a: Accepted)
    ensures EventsOfAll(accepted + [a]) == EventsOfAll(accepted) + [a.event]
  {
    var all := accepted + [a];
    assert all[..|accepted|] == accepted;
  }

  // ---- conservation of accepted events ----

  /** Every accepted event is in exactly one of finished batches, pending list and queue, in order of acceptance. */
  ghost predicate Conserved(s: State) {
    EventsOf(RecordsOf(s.disposed)) + EventsOf(s.pending) + EventsOf(s.queue) == EventsOfAll(s.accepted)
  }

  ghost function MarkerRecords(marker: Option<Marker>): (r: seq<Record>) {
    if marker.None? then [] else [CoverageRecord(marker.value)]
  }

  /** The batch in flight carries a prefix of the pending list and the next sequence number. A marker
      is only attached to the whole list, and then every event accepted before the cut is in it or finished. */
  ghost predicate Carried(s: State) {
    s.flight.Some? ==>
      var f := s.flight.value;
      && f.count <= |s.pending| && f.batch.sequence == s.sequence && f.cut <= |s.accepted|
      && f.batch.records == s.pending[..f.count] + MarkerRecords(f.marker)
      && (f.marker.Some? ==>
            && f.count == |s.pending| && !ContainsHealth(s.pending)
            && EventsOf(RecordsOf(s.disposed)) + EventsOf(s.pending) == EventsOfAll(s.accepted[..f.cut]))
  }

  lemma BatchEvents(s: State)
    requires Carried(s) && s.flight.Some?
    ensures EventsOf(s.flight.value.batch.records) + EventsOf(s.pending[s.flight.value.count..]) == EventsOf(s.pending)
  {
    var f := s.flight.value;
    var front, back := s.pending[..f.count], s.pending[f.count..];
    assert s.pending == front + back;
    EventsConcat(front, back);
    EventsConcat(front, MarkerRecords(f.marker));
    NoEvents(MarkerRecords(f.marker));
  }

  lemma DrainedEvents(s: State)
    ensures EventsOf(Drained(s)) == EventsOf(s.pending) + EventsOf(s.queue)
  {
    EventsConcat(s.pending, s.queue);
  }

  // ---- the four shapes of a step ----

  /** Nothing is accepted, moved or finished; a flight may end. */
  ghost predicate Quiet(s: State, s': State) {
    s'.queue == s.queue && s'.pending == s.pending && s'.disposed == s.disposed && s'.accepted == s.accepted
    && (s'.flight == s.flight || s'.flight.None?)
  }

  /** One event is accepted into the queue. */
  ghost predicate Queued(s: State, s': State) {
    s'.pending == s.pending && s'.disposed == s.disposed && s'.flight == s.flight
    && exists e, now :: s'.queue == s.queue + [EventRecord(e)] && s'.accepted == s.accepted + [Accepted(e, now)]
  }

  /** Records move from the queue to the end of the pending list. */
  ghost predicate Shifted(s: State, s': State) {
    s.flight.None? && Drained(s') == Drained(s) && s.pending <= s'.pending && s'.disposed == s.disposed
      && s'.accepted == s.accepted
    && (s'.flight.Some? ==> s'.queue == [] && Cut(s'))
  }

  /** What a cut builds. */
  ghost predicate Cut(s: State) {
    s.flight.Some?
    && var f := s.flight.value;
       && f.count <= |s.pending| && f.batch.sequence == s.sequence
       && f.batch.records == s.pending[..f.count] + MarkerRecords(f.marker)
       && f.cut == |s.accepted|
       && (f.marker.Some? ==> f.count == |s.pending| && !ContainsHealth(s.pending))
  }

  /** The batch in flight is finished; reports about it go to the front of the pending list. */
  ghost predicate Finished(s: State, s': State) {
    s.flight.Some? && s'.flight.None? && s'.queue == s.queue && s'.accepted == s.accepted
    && s.flight.value.count <= |s.pending|
    && (exists acknowledged ::
          s'.disposed == s.disposed + [Disposal(s.flight.value.batch, s.flight.value.count, acknowledged)])
    && (exists extra :: AllHealth(extra) && s'.pending == extra + s.pending[s.flight.value.count..])
  }

  ghost predicate AllHealth(records: seq<Record>) {
    |records| <= 3 && forall k | 0 <= k < |records| :: records[k].HealthRecord?
  }

  lemma HealthRecordsAreHealth(c: Config, s: State, ended: int, dates: Dates)
    ensures AllHealth(HealthRecords(c, s, ended, dates))
  {
  }

  lemma CutShape(c: Config, s: State, a: Action)
    requires Enabled(c, s, a) && (a.Receive? || a.CutIdle? || a.CutFail? || a.CutPlain? || a.CutCoverage?)
    ensures Shifted(s, Next(c, s, a))
  {
    var s' := Next(c, s, a);
    var all := Drained(s);
    if a.Receive? {
      assert s.queue == [s.queue[0]] + s.queue[1..];
      assert Drained(s') == all;
    } else {
      assert all + [] == all;
      assert all[..|all|] == all;
    }
  }

  lemma FinishedWith(s: State, s': State, acknowledged: bool, extra: seq<Record>)
    requires s.flight.Some? && s'.flight.None? && s'.queue == s.queue && s'.accepted == s.accepted
    requires s.flight.value.count <= |s.pending|
    requires s'.disposed == s.disposed + [Disposal(s.flight.value.batch, s.flight.value.count, acknowledged)]
    requires AllHealth(extra) && s'.pending == extra + s.pending[s.flight.value.count..]
    ensures Finished(s, s')
  {
  }

  lemma AcceptShape(c: Config, s: State, a: Action)
    requires Enabled(c, s, a) && Carried(s) && (a.Accept? || a.AcceptUnreported?)
    ensures Finished(s, Next(c, s, a))
  {
    hide HealthRecords, RecoveryBoundary, EventsOf, RecordsOf, EventsOfAll, ContainsHealth, StartTime;
    var extra := if a.Accept? then HealthRecords(c, s, a.now, a.dates) else [];
    if a.Accept? { HealthRecordsAreHealth(c, s, a.now, a.dates); }
    var rest := s.pending[s.flight.value.count..];
    assert [] + rest == rest;
    FinishedWith(s, Next(c, s, a), true, extra);
  }

  lemma RejectShape(c: Config, s: State, a: Action)
    requires Enabled(c, s, a) && Carried(s) && (a.Reject? || a.RejectUnreported?)
    ensures Finished(s, Next(c, s, a))
  {
    hide EventsOf, RecordsOf, EventsOfAll, ContainsHealth;
    var extra := if a.Reject? then [RejectedReport(c, s.sequence, s.flight.value.count, a.occurred)] else [];
    var rest := s.pending[s.flight.value.count..];
    assert [] + rest == rest;
    FinishedWith(s, Next(c, s, a), false, extra);
  }

  lemma OtherShape(c: Config, s: State, a: Action)
    requires Enabled(c, s, a) && (a.Enqueue? || a.Retry? || a.Fatal? || a.GiveUp? || a.Close? || a.Cancel? || a.Finish?)
    ensures Quiet(s, Next(c, s, a)) || Queued(s, Next(c, s, a))
  {
  }

  ghost predicate Shaped(s: State, s': State) { Quiet(s, s') || Queued(s, s') || Shifted(s, s') || Finished(s, s') }

  lemma StepShape(c: Config, s: State, a: Action)
    requires Enabled(c, s, a) && Carried(s)
    ensures Shaped(s, Next(c, s, a))
  {
    hide Enabled, Next, Carried, Quiet, Queued, Shifted, Finished;
    match a
    case Receive => CutShape(c, s, a);
    case CutIdle(_) => CutShape(c, s, a);
    case CutFail(_, _, _) => CutShape(c, s, a);
    case CutPlain(_, _, _, _) => CutShape(c, s, a);
    case CutCoverage(_, _, _) => CutShape(c, s, a);
    case Accept(_, _) => AcceptShape(c, s, a);
    case AcceptUnreported(_) => AcceptShape(c, s, a);
    case Reject(_, _) => RejectShape(c, s, a);
    case RejectUnreported(_) => RejectShape(c, s, a);
    case _ => OtherShape(c, s, a);
  }

  lemma FinishedEvents(s: State, s': State)
    requires Carried(s) && Finished(s, s')
    ensures EventsOf(RecordsOf(s'.disposed)) + EventsOf(s'.pending)
         == EventsOf(RecordsOf(s.disposed)) + EventsOf(s.pending)
  {
    var f := s.flight.value;
    var acknowledged :| s'.disposed == s.disposed + [Disposal(f.batch, f.count, acknowledged)];
    var extra :| AllHealth(extra) && s'.pending == extra + s.pending[f.count..];
    RecordsSnoc(s.disposed, Disposal(f.batch, f.count, acknowledged));
    EventsConcat(RecordsOf(s.disposed), f.batch.records);
    BatchEvents(s);
    NoEvents(extra);
    EventsConcat(extra, s.pending[f.count..]);
    hide *;
    var done, batch, rest := EventsOf(RecordsOf(s.disposed)), EventsOf(f.batch.records), EventsOf(s.pending[f.count..]);
    assert (done + batch) + rest == done + (batch + rest);
  }

  lemma QueuedEvents(s: State, s': State)
    requires Conserved(s) && Queued(s, s')
    ensures Conserved(s')
  {
    var e, now :| s'.queue == s.queue + [EventRecord(e)] && s'.accepted == s.accepted + [Accepted(e, now)];
    EventsConcat(s.queue, [EventRecord(e)]);
    AcceptedSnoc(s.accepted, Accepted(e, now));
    assert EventsOf([EventRecord(e)]) == [e];
    var front, queued := EventsOf(RecordsOf(s.disposed)) + EventsOf(s.pending), EventsOf(s.queue);
    assert front + (queued + [e]) == (front + queued) + [e];
  }

  lemma ShiftedEvents(s: State, s': State)
    requires Conserved(s) && Shifted(s, s')
    ensures Conserved(s')
  {
    hide EventsOf, RecordsOf, EventsOfAll;
    DrainedEvents(s);
    DrainedEvents(s');
    var done := EventsOf(RecordsOf(s.disposed));
    assert done + (EventsOf(s.pending) + EventsOf(s.queue)) == done + EventsOf(s.pending) + EventsOf(s.queue);
    assert done + (EventsOf(s'.pending) + EventsOf(s'.queue)) == done + EventsOf(s'.pending) + EventsOf(s'.queue);
  }

  /** Conservation is kept by every step. */
  lemma ConservedKept(s: State, s': State)
    requires Conserved(s) && Carried(s) && Shaped(s, s')
    ensures Conserved(s')
  {
    if Queued(s, s') {
      QueuedEvents(s, s');
    } else if Shifted(s, s') {
      ShiftedEvents(s, s');
    } else if Finished(s, s') {
      FinishedEvents(s, s');
    }
  }

  lemma CarriedKept(s: State, s': State)
    requires Conserved(s') && Carried(s) && Shaped(s, s')
      && s'.sequence == s.sequence + (if Finished(s, s') then 1 else 0)
    ensures Carried(s')
  {
    hide EventsOf, RecordsOf, EventsOfAll;
    if s'.flight.Some? {
      if Queued(s, s') {
        assert s'.accepted[..s.flight.value.cut] == s.accepted[..s.flight.value.cut];
      } else if Shifted(s, s') && s'.flight.value.marker.Some? {
        assert s'.accepted[..|s'.accepted|] == s'.accepted;
        NoEvents([]);
      }
    }
  }

  // ---- sequence numbers and bodies ----

  /** Nothing reaches the network any more. */
  ghost predicate Stopped(s: State) { s.cancelled || s.halted || s.finished }

  /** The receiver sees 1, then repetitions of a number or the next one. */
  ghost predicate Consecutive(sent: seq<Batch>) {
    (sent != [] ==> sent[0].sequence == 1)
    && forall k | 0 < k < |sent| :: sent[k - 1].sequence <= sent[k].sequence <= sent[k - 1].sequence + 1
  }

  ghost predicate OneBody(sent: seq<Batch>) {
    forall i, j | 0 <= i < |sent| && 0 <= j < |sent| && sent[i].sequence == sent[j].sequence :: sent[i] == sent[j]
  }

  /** Finished batches are numbered from one and were sent; each number ever sent has one body, and only
      the batch in flight may still be sent under the current number. */
  ghost predicate Numbered(s: State) {
    s.sequence == |s.disposed| + 1
    && (forall k | 0 <= k < |s.disposed| :: s.disposed[k].batch.sequence == k + 1 && s.disposed[k].batch in s.sent)
    && OneBody(s.sent) && Consecutive(s.sent)
    && (if s.sent == [] then s.sequence == 1
        else s.sequence - 1 <= s.sent[|s.sent| - 1].sequence <= s.sequence)
    && (forall b | b in s.sent && b.sequence == s.sequence && !Stopped(s) ::
          s.flight.Some? && b == s.flight.value.batch)
  }

  /** No attempt. A flight disappears only when the sender has stopped. */
  ghost predicate Silent(s: State, s': State) {
    s'.sent == s.sent && s'.sequence == s.sequence && s'.disposed == s.disposed
    && (Stopped(s) ==> Stopped(s')) && (s.flight.Some? ==> s'.flight == s.flight || Stopped(s'))
  }

  /** An attempt that ends without a verdict. */
  ghost predicate Attempted(s: State, s': State) {
    !Stopped(s) && !Stopped(s') && s.flight.Some? && s'.flight == s.flight && s'.sent == s.sent + [s.flight.value.batch]
    && s'.sequence == s.sequence && s'.disposed == s.disposed
  }

  /** An attempt that ends with a verdict. */
  ghost predicate Decided(s: State, s': State) {
    !Stopped(s) && s.flight.Some? && s'.flight.None? && s'.sent == s.sent + [s.flight.value.batch]
    && s'.sequence == s.sequence + 1
    && exists acknowledged ::
         s'.disposed == s.disposed + [Disposal(s.flight.value.batch, s.flight.value.count, acknowledged)]
  }

  lemma SilentCases(c: Config, s: State, a: Action)
    requires Enabled(c, s, a) && !(a.Retry? || a.Accept? || a.AcceptUnreported? || a.Reject? || a.RejectUnreported?)
    ensures Silent(s, Next(c, s, a)) && !Decided(s, Next(c, s, a))
  {
    hide CanAttachCoverage, Chosen, PlainBatch, CoverageBatch, DrawnIDs, CoverageMarker, Drained, Fits, RecordOverflow;
    match a {
      case Enqueue(_, _) =>
        hide Halt;
        OverflowSilent(s, a.now);
      case CutPlain(_, _, _, _) =>
      case CutCoverage(_, _, _) =>
      case _ =>
    }
  }

  lemma OverflowSilent(s: State, now: int)
    ensures Silent(s, RecordOverflow(s, now)) && !Decided(s, RecordOverflow(s, now))
  {
  }

  lemma RetryCases(c: Config, s: State, a: Action)
    requires Enabled(c, s, a) && a.Retry?
    ensures Silent(s, Next(c, s, a)) || Attempted(s, Next(c, s, a))
    ensures !Decided(s, Next(c, s, a))
  {
  }

  lemma DecidedCases(c: Config, s: State, a: Action)
    requires Enabled(c, s, a) && (a.Accept? || a.AcceptUnreported? || a.Reject? || a.RejectUnreported?)
    ensures Decided(s, Next(c, s, a))
  {
    hide HealthRecords, RecoveryBoundary, ContainsHealth, StartTime;
    var f := s.flight.value;
    var acknowledged := a.Accept? || a.AcceptUnreported?;
    assert Next(c, s, a).disposed == s.disposed + [Disposal(f.batch, f.count, acknowledged)];
  }

  lemma SentCases(c: Config, s: State, a: Action)
    requires Enabled(c, s, a)
    ensures Silent(s, Next(c, s, a)) || Attempted(s, Next(c, s, a)) || Decided(s, Next(c, s, a))
    ensures a.Accept? || a.AcceptUnreported? || a.Reject? || a.RejectUnreported? <==> Decided(s, Next(c, s, a))
  {
    hide Enabled, Next, Silent, Attempted, Decided;
    if a.Accept? || a.AcceptUnreported? || a.Reject? || a.RejectUnreported? {
      DecidedCases(c, s, a);
    } else if a.Retry? {
      RetryCases(c, s, a);
    } else {
      SilentCases(c, s, a);
    }
  }

  lemma SentSnoc(sent: seq<Batch>, b: Batch)
    requires OneBody(sent) && Consecutive(sent)
    requires forall x | x in sent && x.sequence == b.sequence :: x == b
    requires if sent == [] then b.sequence == 1
             else sent[|sent| - 1].sequence <= b.sequence <= sent[|sent| - 1].sequence + 1
    ensures OneBody(sent + [b]) && Consecutive(sent + [b])
  {
    assert OneBody(sent + [b]) by {
      hide Consecutive;
      assert forall x | x in sent + [b] :: x in sent || x == b;
    }
    assert Consecutive(sent + [b]) by { hide OneBody; }
  }

  lemma NumberedKept(s: State, s': State)
    requires Numbered(s) && Carried(s) && (Silent(s, s') || Attempted(s, s') || Decided(s, s'))
    ensures Numbered(s')
  {
    hide Consecutive, OneBody, EventsOf, RecordsOf, EventsOfAll;
    if !Silent(s, s') {
      SentSnoc(s.sent, s.flight.value.batch);
      if Decided(s, s') {
        assert forall b | b in s'.sent :: b.sequence < s'.sequence by { SentBelow(s, s'); }
      }
    }
  }

  lemma {:induction false} SentUpTo(sent: seq<Batch>, k: nat)
    requires Consecutive(sent) && k < |sent|
    ensures sent[k].sequence <= sent[|sent| - 1].sequence
    decreases |sent| - k
  {
    if k + 1 < |sent| { SentUpTo(sent, k + 1); }
  }

  lemma SentBelow(s: State, s': State)
    requires Numbered(s) && Carried(s) && Decided(s, s')
    ensures forall b | b in s'.sent :: b.sequence < s'.sequence
  {
    hide EventsOf, RecordsOf, EventsOfAll, OneBody;
    forall b | b in s.sent ensures b.sequence <= s.sequence {
      var k :| 0 <= k < |s.sent| && s.sent[k] == b;
      SentUpTo(s.sent, k);
    }
  }
}
