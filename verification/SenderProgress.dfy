/** What the sender can always still do. From every state that a run reaches without a halt or a cancellation,
    everything that waits can be delivered, the sender recovers, and a clean checkpoint follows; and a healthy
    sender with nothing to tell attests its silence once a heartbeat has passed. */
module SenderProgress {
  import opened Prelude
  import opened Sender
  import opened SenderInvariants
  import opened SenderHealth
  import opened SenderCoverage
  import opened SenderClaims
  import opened SenderRuns
  import opened SenderOverlap

  /** Every batch of one record fits; larger ones may or may not. */
  ghost predicate OneFits(c: Config) { forall b: Batch | |b.records| == 1 :: Fits(c, b) }

  // ---- unreported loss never waits alone ----

  predicate Unreported(s: State) { s.overflowCount > 0 || s.outageStart != 0 }

  /** Something that will be delivered follows every unreported loss, so its report is made in time. */
  ghost predicate Loaded(s: State) {
    Unreported(s) && !s.halted && !s.cancelled ==> s.flight.Some? || Drained(s) != []
  }

  lemma LoadedKept(c: Config, s: State, a: Action)
    requires ValidConfig(c) && Enabled(c, s, a) && Loaded(s)
    ensures Loaded(Next(c, s, a))
  {
    hide CanAttachCoverage, Chosen, CutTime, RecoveryBoundary, StartTime, ContainsHealth, HealthRecords, Unbuildable,
      Supplied, CoverageBatch, PlainBatch, DrawnIDs, Draws, Fits;
  }

  lemma {:induction false} RunLoaded(c: Config, s: State, actions: seq<Action>, t: State)
    requires ValidConfig(c) && Loaded(s) && Runs(c, s, actions, t)
    ensures Loaded(t)
    decreases actions
  {
    hide Enabled, Next, Loaded;
    if actions != [] {
      LoadedKept(c, s, actions[0]);
      RunLoaded(c, Next(c, s, actions[0]), actions[1..], t);
    }
  }

  // ---- a cut is always possible ----

  lemma FreshSlice(s: State, decided: int, draws: seq<Draw>, i: nat, j: nat)
    requires FreshDraws(s, decided, draws) && i <= j <= |draws|
    ensures FreshDraws(s, decided, draws[i..j])
  {
  }

  /** The first attempt that fits. */
  lemma {:induction false} FirstFit(c: Config, s: State, draws: seq<Draw>, k: nat) returns (m: nat)
    requires OneFits(c) && k < Min(|Drained(s)|, c.batchSize) == |draws|
    ensures k <= m < |draws| && Fits(c, PlainBatch(s, draws[m], |draws| - m))
    ensures forall i | k <= i < m :: !Fits(c, PlainBatch(s, draws[i], |draws| - i))
    decreases |draws| - k
  {
    hide Fits;
    var b := PlainBatch(s, draws[k], |draws| - k);
    if Fits(c, b) {
      m := k;
    } else {
      assert |b.records| == |draws| - k;
      m := FirstFit(c, s, draws, k + 1);
    }
  }

  lemma DrawsAreSlice(draws: seq<Draw>, want: bool, m: nat, now: int)
    requires m + 1 < |draws| && draws[m + 1].at == now
    ensures Draws(Plan(now, if want then Some(draws[0]) else None, draws[1..][..m]), now, draws[1..][m].id)
         == draws[if want then 0 else 1..m + 2]
  {
    var plan := Plan(now, if want then Some(draws[0]) else None, draws[1..][..m]);
    var all := Draws(plan, now, draws[1..][m].id);
    assert draws[1..][..m] + [draws[m + 1]] == draws[1..m + 2];
    assert [draws[0]] + draws[1..m + 2] == draws[0..m + 2];
    assert Draw(draws[1..][m].id, now) == draws[m + 1];
  }

  /** Whatever waits, some batch of it can be cut. */
  lemma Cuttable(c: Config, s: State) returns (a: Action)
    requires OneFits(c) && 1 <= c.batchSize && Idle(s) && s.sequence <= MAX_SAFE_INTEGER && Drained(s) != []
    ensures (a.CutPlain? || a.CutCoverage?) && a.now == s.clock && Enabled(c, s, a)
  {
    hide CanAttachCoverage, FreshDraws, Fits, Unbuildable, Supplied, Chosen, OneFits;
    var first := Min(|Drained(s)|, c.batchSize);
    var draws := FreshNames(s, first + 1);
    var want := CanAttachCoverage(c, s, Drained(s), s.clock);
    if want && Fits(c, CoverageBatch(s, draws[0])) {
      FirstFresh(s, draws);
      a := CutCoverage(s.clock, s.clock, draws[0].id);
    } else {
      var rest := draws[1..];
      var m := FirstFit(c, s, rest, 0);
      var plan := Plan(s.clock, if want then Some(draws[0]) else None, rest[..m]);
      assert rest[m].at == s.clock;
      FreshSlice(s, s.clock, draws, if want then 0 else 1, m + 2);
      DrawsAreSlice(draws, want, m, s.clock);
      FittingChosen(c, s, rest[m].id, first - m, plan);
      a := CutPlain(s.clock, rest[m].id, first - m, plan);
    }
  }

  lemma FittingChosen(c: Config, s: State, id: string, count: nat, plan: Plan)
    requires 1 <= count <= Min(|Drained(s)|, c.batchSize) && |plan.misses| == Min(|Drained(s)|, c.batchSize) - count
    requires FreshDraws(s, plan.decided, Draws(plan, s.clock, id))
    requires plan.cover.Some? <==> CanAttachCoverage(c, s, Drained(s), plan.decided)
    requires plan.cover.Some? ==> !Fits(c, CoverageBatch(s, plan.cover.value))
    requires forall k | 0 <= k < |plan.misses| ::
      !Fits(c, PlainBatch(s, plan.misses[k], Min(|Drained(s)|, c.batchSize) - k))
    requires Fits(c, PlainBatch(s, Draw(id, s.clock), count))
    ensures Chosen(c, s, s.clock, id, count, plan)
  {
    hide CanAttachCoverage, FreshDraws, Fits, CoverageBatch, PlainBatch;
  }

  // ---- delivering ----

  /** What an acknowledgement at once does to the lists and flags. */
  lemma AcceptFields(c: Config, s: State)
    requires Delivering(s) && Carried(s)
    ensures var a := Accept(s.clock, At(s.clock));
      && Enabled(c, s, a)
      && var t := Next(c, s, a);
         && t.queue == s.queue && t.flight.None? && !Unreported(t) && t.sequence == s.sequence + 1
         && t.halted == s.halted && t.cancelled == s.cancelled && t.finished == s.finished
         && |t.pending| <= |s.pending| - s.flight.value.count + 3
         && (!Unreported(s) ==> |t.pending| == |s.pending| - s.flight.value.count)
  {
    hide RecoveryBoundary, StartTime, ContainsHealth, EventsOf, RecordsOf, EventsOfAll;
  }

  /** What a cut leaves for the delivery. */
  lemma CutFields(c: Config, s: State, a: Action)
    requires (a.CutPlain? || a.CutCoverage?) && Enabled(c, s, a) && Drained(s) != []
    ensures var t := Next(c, s, a);
      && t.pending == Drained(s) && t.queue == [] && t.flight.Some? && 1 <= t.flight.value.count <= |t.pending|
      && Unreported(t) == Unreported(s) && t.sequence == s.sequence && t.clock == a.now
      && t.halted == s.halted && t.cancelled == s.cancelled && t.finished == s.finished
  {
    hide CanAttachCoverage, Chosen, CutTime, DrawnIDs, Draws, Fits;
  }

  /** The worker is free, nothing was cancelled, and the invariant holds. */
  ghost predicate Free(c: Config, s: State) { Inv(c, s) && Idle(s) && !s.cancelled }

  /** The batch in flight is delivered. */
  lemma DeliverFlight(c: Config, s: State) returns (t: State)
    requires Inv(c, s) && Delivering(s)
    ensures Leads(c, s, t) && Free(c, t) && !Unreported(t) && t.sequence == s.sequence + 1
    ensures |Drained(t)| <= |Drained(s)| + 3
    ensures !Unreported(s) ==> |Drained(t)| == |Drained(s)| - s.flight.value.count
  {
    assert Carried(s);
    hide Leads, Inv, Enabled, Next, Carried;
    var a := Accept(s.clock, At(s.clock));
    AcceptFields(c, s);
    t := Next(c, s, a);
    StepInv(c, s, a);
    LeadsStep(c, s, a);
  }

  /** One batch of what waits is cut and delivered. */
  lemma DeliverNext(c: Config, s: State) returns (t: State)
    requires OneFits(c) && 1 <= c.batchSize && Free(c, s) && s.sequence <= MAX_SAFE_INTEGER && Drained(s) != []
    ensures Leads(c, s, t) && Free(c, t) && !Unreported(t) && t.sequence == s.sequence + 1
    ensures |Drained(t)| <= |Drained(s)| + 3
    ensures !Unreported(s) ==> |Drained(t)| < |Drained(s)|
  {
    hide Leads, Inv, Enabled, Next, OneFits;
    var a := Cuttable(c, s);
    var cut := Next(c, s, a);
    CutFields(c, s, a);
    assert Drained(cut) == Drained(s);
    StepInv(c, s, a);
    LeadsStep(c, s, a);
    t := DeliverFlight(c, cut);
    LeadsOn(c, s, cut, t);
  }

  lemma {:induction false} DeliverAll(c: Config, s: State) returns (t: State)
    requires OneFits(c) && 1 <= c.batchSize && Free(c, s) && !Unreported(s)
    requires s.sequence + |Drained(s)| <= MAX_SAFE_INTEGER + 1
    ensures Leads(c, s, t) && Free(c, t) && !Unreported(t) && Drained(t) == []
    decreases |Drained(s)|
  {
    hide Leads, Free, OneFits, Unreported;
    if Drained(s) == [] {
      t := s;
      LeadsNowhere(c, s);
    } else {
      var u := DeliverNext(c, s);
      t := DeliverAll(c, u);
      LeadsOn(c, s, u, t);
    }
  }

  /** Whatever is in flight or unreported is delivered or reported first. */
  lemma Settle(c: Config, s: State) returns (t: State)
    requires OneFits(c) && 1 <= c.batchSize && Inv(c, s) && Loaded(s)
    requires !s.halted && !s.cancelled && !s.finished && s.sequence + |Drained(s)| + 3 <= MAX_SAFE_INTEGER
    ensures Leads(c, s, t) && Free(c, t) && !Unreported(t)
    ensures t.sequence + |Drained(t)| <= s.sequence + |Drained(s)| + 4
  {
    hide Leads, Inv, OneFits;
    if s.flight.Some? {
      t := DeliverFlight(c, s);
    } else if Unreported(s) {
      t := DeliverNext(c, s);
    } else {
      t := s;
      LeadsNowhere(c, s);
    }
  }

  lemma NothingToTell(c: Config, s: State)
    requires Inv(c, s) && !s.halted && !Unreported(s) && Drained(s) == []
    ensures !s.degraded && s.pending == [] && s.queue == []
  {
    hide Conserved, Carried, Numbered, Accounted, Answered, Chained, Segmented, Dated, Covering, Clean, ContainsHealth;
    assert |Drained(s)| == |s.pending| + |s.queue|;
    NoHealthInNothing();
    assert Flagged(s);
  }

  /** With nothing left to tell the sender closes and stores a clean checkpoint. */
  lemma FinishClean(c: Config, s: State) returns (t: State)
    requires Free(c, s) && !Unreported(s) && Drained(s) == []
    ensures Leads(c, s, t) && t.finished && t.clean
  {
    hide Leads, Inv;
    NothingToTell(c, s);
    var closed := Next(c, s, Close);
    LeadsStep(c, s, Close);
    t := Next(c, closed, Finish(true));
    LeadsStep(c, closed, Finish(true));
    LeadsOn(c, s, closed, t);
  }

  /** From every reachable state without a halt or a cancellation a clean shutdown can be reached, as long as single
      records fit and the sequence is not exhausted on the way. */
  lemma CleanShutdownReachable(c: Config, now: int, restartOf: Option<string>, actions: seq<Action>, s: State)
    returns (t: State)
    requires ValidConfig(c) && OneFits(c) && Reached(c, now, restartOf, actions, s)
    requires !s.halted && !s.cancelled && !s.finished && s.sequence + |Drained(s)| + 3 <= MAX_SAFE_INTEGER
    ensures Leads(c, s, t) && t.finished && t.clean
  {
    hide Leads, Inv, OneFits, Runs, Loaded;
    ReachedInv(c, now, restartOf, actions, s);
    assert Loaded(Init(c, now, restartOf)) by { InitLoaded(c, now, restartOf); }
    RunLoaded(c, Init(c, now, restartOf), actions, s);
    var u := Settle(c, s);
    var v := DeliverAll(c, u);
    t := FinishClean(c, v);
    LeadsOn(c, s, u, v);
    LeadsOn(c, s, v, t);
  }

  lemma InitLoaded(c: Config, now: int, restartOf: Option<string>)
    ensures Loaded(Init(c, now, restartOf))
  {
  }

  // ---- attesting silence ----

  /** A healthy sender with nothing waiting commits a marker over all the time since coverage stood, at every
      instant a heartbeat later. */
  lemma SilenceIsAttested(c: Config, s: State, now: int) returns (t: State)
    requires OneFits(c) && 1 <= c.batchSize && Free(c, s) && !s.degraded && Drained(s) == []
    requires s.sequence <= MAX_SAFE_INTEGER && s.clock <= now
    requires s.coverageStart + 1000 * MILLISECOND <= CutTime(now)
    ensures Leads(c, s, t) && |t.markers| == |s.markers| + 1 && s.markers <= t.markers
    ensures var m := t.markers[|s.markers|].marker; m.start == s.coverageStart && m.end == CutTime(now)
  {
    hide Leads, Inv, RecoveryBoundary, FreshDraws, Fits, CutTime;
    var draws := FreshNames(s, 1);
    FirstFresh(s, draws);
    var id := draws[0].id;
    assert |CoverageBatch(s, Draw(id, now)).records| == 1;
    var a := CutCoverage(now, now, id);
    var cut := Next(c, s, a);
    t := Next(c, cut, Accept(now, At(now)));
    LeadsStep(c, s, a);
    LeadsStep(c, cut, Accept(now, At(now)));
    LeadsOn(c, s, cut, t);
  }
}
