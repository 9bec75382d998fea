/** What the steps of the sender do, read off its fields: which events are taken, what a failed attempt leaves, what
    is reported after a delivery, and when the sender counts as recovered. */
module SenderSteps {
  import opened Prelude
  import opened Sender
  import opened SenderInvariants
  import opened SenderHealth

  /** The latest whole millisecond at or before an instant, and the first one at or after it. */
  lemma MillisecondsAround(t: int)
    ensures CutTime(t) % MILLISECOND == 0 && CutTime(t) <= t < CutTime(t) + MILLISECOND
    ensures StartTime(t) % MILLISECOND == 0 && StartTime(t) - MILLISECOND < t <= StartTime(t)
  {
  }

  /** A fresh sender has nothing but the report of an unclean predecessor, and is degraded exactly then. */
  lemma InitMeans(c: Config, now: int, restartOf: Option<string>)
    ensures var s := Init(c, now, restartOf);
      && s.pending == [] && s.flight.None? && s.sequence == 1 && s.degraded == restartOf.Some?
      && !s.closed && !s.halted && !s.cancelled && !s.finished && !s.clean
      && |s.queue| == (if restartOf.Some? then 1 else 0)
      && (restartOf.Some? ==>
            s.queue[0].HealthRecord? && s.queue[0].health.cause == UncleanRestart
            && s.queue[0].health.epoch == restartOf.value && s.queue[0].health.occurredAt == now)
      && s.coverageStart - MILLISECOND < now <= s.coverageStart && s.previous.None? && s.markers == []
  {
    MillisecondsAround(now);
  }

  /** An event is taken to the end of the queue exactly when the sender is open, running and has room; a full queue
      counts a drop, and the first instant of the loss is kept. Nothing else of what waits or flies changes. */
  lemma EnqueueMeans(c: Config, s: State, e: Event, now: int)
    requires Enabled(c, s, Enqueue(e, now)) && s.overflowCount <= MAX_SAFE_INTEGER
    ensures var t := Next(c, s, Enqueue(e, now));
      var open, room := !s.closed && !s.halted, |s.queue| < c.capacity;
      && t.pending == s.pending && t.flight == s.flight && t.halted == s.halted && t.sequence == s.sequence
      && t.queue == s.queue + (if open && room then [EventRecord(e)] else [])
      && t.accepted == s.accepted + (if open && room then [Accepted(e, now)] else [])
      && t.drops == s.drops + (if open && !room then 1 else 0)
      && (open && !room ==>
            t.degraded && t.overflowCount == Min(s.overflowCount + 1, MAX_SAFE_INTEGER)
            && t.overflowStart == (if s.overflowStart == 0 then now else s.overflowStart))
      && (!open || room ==>
            t.degraded == s.degraded && t.overflowCount == s.overflowCount && t.overflowStart == s.overflowStart)
  {
  }

  /** An attempt without verdict keeps the batch and everything that waits, and remembers when the outage began. */
  lemma RetryMeans(c: Config, s: State, now: int, transmitted: bool)
    requires Enabled(c, s, Retry(now, transmitted))
    ensures var t := Next(c, s, Retry(now, transmitted));
      && t.flight == s.flight && t.pending == s.pending && t.queue == s.queue && t.sequence == s.sequence
      && t.degraded && t.outageStart == (if s.outageStart == 0 then now else s.outageStart)
      && t.sent == s.sent + (if transmitted then [s.flight.value.batch] else [])
      && t.disposed == s.disposed && t.markers == s.markers
  {
  }

  /** The reports made of unreported loss: overflow with its count, the outage, and last the recovery over both,
      all up to the acknowledgement. */
  lemma ReportsMean(c: Config, s: State, ended: int, dates: Dates)
    ensures var r := HealthRecords(c, s, ended, dates);
      var overflow, outage := s.overflowCount > 0, s.outageStart != 0;
      && |r| == (if overflow then 1 else 0) + (if outage then 1 else 0) + (if overflow || outage then 1 else 0)
      && (forall k | 0 <= k < |r| ::
            r[k].HealthRecord? && r[k].health.epoch == c.epoch && r[k].health.interval.Some?
            && r[k].health.interval.value.end == ended && r[k].health.sequence.None?)
      && (overflow ==>
            && r[0].health.cause == QueueOverflow && r[0].health.dropped == s.overflowCount
            && r[0].health.interval.value.start == (if s.overflowStart == 0 then ended else s.overflowStart)
            && r[0].health.occurredAt == dates.overflow)
      && (outage ==>
            var h := r[|r| - 2].health;
            h.cause == DeliveryOutage && h.interval.value.start == s.outageStart && h.dropped == 0
            && h.occurredAt == dates.outage)
      && (overflow || outage ==>
            var h := r[|r| - 1].health;
            && h.cause == Recovered && h.dropped == 0 && h.occurredAt == dates.recovered
            && h.interval.value.start <= ended
            && (overflow && s.overflowStart != 0 ==> h.interval.value.start <= s.overflowStart)
            && (outage ==> h.interval.value.start <= s.outageStart)
            && h.interval.value.start in {ended, s.overflowStart, s.outageStart})
  {
  }

  /** A delivered batch leaves the list, its number is used up, and what was unreported goes to the front. The sender
      recovers exactly when the batch told the last of its health and nothing new is to be told. */
  lemma AcceptMeans(c: Config, s: State, now: int, dates: Dates)
    requires Enabled(c, s, Accept(now, dates)) && Carried(s)
    ensures var t := Next(c, s, Accept(now, dates));
      var f, reports := s.flight.value, HealthRecords(c, s, now, dates);
      && t.flight.None? && t.queue == s.queue && t.sequence == s.sequence + 1 && t.halted == s.halted
      && t.pending == reports + s.pending[f.count..]
      && t.overflowCount == 0 && t.overflowStart == 0 && t.outageStart == 0
      && t.disposed == s.disposed + [Disposal(f.batch, f.count, true)] && t.sent == s.sent + [f.batch]
      && (t.degraded <==> s.degraded && (reports != [] || !ContainsHealth(f.batch.records)
                                         || ContainsHealth(s.pending[f.count..])))
      && t.markers == s.markers + (if f.marker.Some? then [Commit(f.marker.value, |s.disposed|, f.cut)] else [])
  {
    hide RecoveryBoundary, StartTime, ContainsHealth, HealthRecords, EventsOf, RecordsOf, EventsOfAll;
  }

  /** A rejected batch leaves the list too; a report with its number and its count of events takes its place. */
  lemma RejectMeans(c: Config, s: State, now: int, occurred: int)
    requires Enabled(c, s, Reject(now, occurred)) && Carried(s)
    ensures var t := Next(c, s, Reject(now, occurred));
      var f := s.flight.value;
      && t.flight.None? && t.queue == s.queue && t.sequence == s.sequence + 1 && t.degraded && t.halted == s.halted
      && |t.pending| == 1 + |s.pending| - f.count && t.pending[1..] == s.pending[f.count..]
      && t.pending[0].HealthRecord? && t.pending[0].health.cause == RejectedBatch
      && t.pending[0].health.epoch == c.epoch && t.pending[0].health.sequence == Some(s.sequence)
      && t.pending[0].health.dropped == f.count && t.pending[0].health.occurredAt == occurred
      && t.outageStart == (if s.outageStart == 0 then now else s.outageStart)
      && t.disposed == s.disposed + [Disposal(f.batch, f.count, false)] && t.markers == s.markers
      && t.coverageStart == s.coverageStart && t.segment == s.segment && t.previous == s.previous
  {
    hide ContainsHealth, EventsOf, RecordsOf, EventsOfAll;
  }

  /** A cut takes what it takes from the front of everything that waits, under the next number and at a whole
      millisecond; with a marker it takes everything, and the marker continues the coverage up to that instant. */
  lemma CutMeans(c: Config, s: State, a: Action)
    requires Enabled(c, s, a) && (a.CutPlain? || a.CutCoverage?)
    ensures var t := Next(c, s, a);
      && t.queue == [] && t.pending == s.pending + s.queue && t.flight.Some? && t.sequence == s.sequence
      && t.degraded == s.degraded && t.halted == s.halted && t.accepted == s.accepted && t.drops == s.drops
      && var f := t.flight.value;
         && f.batch.id == a.id && a.id !in s.ids && a.id in t.ids && f.batch.sequence == s.sequence
         && f.batch.sentAt % MILLISECOND == 0 && f.batch.sentAt <= a.now < f.batch.sentAt + MILLISECOND
         && f.count <= |t.pending| && f.batch.records[..f.count] == t.pending[..f.count]
         && (a.CutPlain? ==> f.marker.None? && |f.batch.records| == f.count == a.count)
         && (a.CutCoverage? ==>
               && f.count == |t.pending| && |f.batch.records| == f.count + 1 && f.marker.Some?
               && f.batch.records[f.count] == CoverageRecord(f.marker.value)
               && f.marker.value.segment == s.segment && f.marker.value.previous == s.previous
               && f.marker.value.start == s.coverageStart && f.marker.value.end == f.batch.sentAt
               && f.marker.value.batchID == a.id && f.marker.value.sequence == s.sequence)
  {
    hide CanAttachCoverage, Fits, Unbuildable, Supplied;
    MillisecondsAround(a.now);
    if a.CutPlain? {
      var draws := Draws(a.plan, a.now, a.id);
      assert draws[|draws| - 1] == Draw(a.id, a.now);
    }
  }

  /** How a sender ends: closing only stops acceptance, cancelling only forbids attempts, giving up and failing leave
      everything pending, and an answer that cannot be reported halts with the batch finished. */
  lemma EndingsMean(c: Config, s: State, a: Action)
    requires Enabled(c, s, a)
    ensures a.Close? ==> Next(c, s, a) == s.(closed := true)
    ensures a.Cancel? ==> Next(c, s, a) == s.(cancelled := true)
    ensures a.GiveUp? ==> Next(c, s, a) == s.(flight := None)
    ensures a.Fatal? ==> Next(c, s, a) == s.(flight := None, degraded := true, halted := true)
    ensures a.CutFail? ==> var t := Next(c, s, a);
      t.halted && t.degraded && t.flight.None? && t.pending == s.pending + s.queue && t.queue == []
    ensures a.AcceptUnreported? || a.RejectUnreported? ==> var t, f := Next(c, s, a), s.flight.value;
      && t.halted && t.degraded && t.flight.None? && t.sequence == s.sequence + 1 && t.queue == s.queue
      && t.disposed == s.disposed + [Disposal(f.batch, f.count, a.AcceptUnreported?)]
      && t.pending == if f.count <= |s.pending| then s.pending[f.count..] else []
    ensures a.Finish? ==>
      var clean := a.stored && s.pending == [] && !s.degraded && !s.halted && !s.cancelled;
      Next(c, s, a) == s.(finished := true, clean := clean)
  {
    hide CanAttachCoverage, Chosen, Fits, Unbuildable, Supplied, RecoveryBoundary, StartTime, CutTime, ContainsHealth,
      DrawnIDs;
  }
}
