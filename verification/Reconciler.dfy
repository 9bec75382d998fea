/** The auth-binding reconciler (`internal/authbinding/reconciler.go`, `sql.go`): a decision made in Go, carried
    out by guarded UPDATE statements that read a clock which has moved on. */
module Reconciler {
  import opened Prelude

  const DEMO_SERVICE := "demo-app"

  datatype Binding = Pending | Verified(gateway: string) | Untrusted(reason: string)

  datatype AuthEvent = AuthEvent(
    id: string, request: string, trace: string, source: string, service: string, route: string,
    trustState: string, trustReason: string, deadline: int, binding: Binding)

  datatype Gateway = Gateway(
    id: string, request: string, trace: string, source: string, service: string, route: string,
    trustState: string, trustReason: string)

  datatype Disposition = StillPending | NowVerified | NowUntrusted | NowExpired

  datatype Outcome = Ok(disposition: Disposition) | Rejected

  datatype Counts = Counts(examined: nat, verified: nat, untrusted: nat, expired: nat, pending: nat)

  predicate Trusted(state: string, reason: string) { state == "trusted" && reason == "none" }

  /** The five binding dimensions. */
  predicate Agrees(a: AuthEvent, g: Gateway) {
    g.request == a.request && g.trace == a.trace && g.source == a.source
    && g.service == a.service == DEMO_SERVICE && g.route == a.route
  }

  // ---- the statements ----

  function ByRequest(gs: seq<Gateway>, request: string): (r: Option<Gateway>)
    ensures r.Some? ==> r.value in gs && r.value.request == request
    ensures r.None? ==> forall g | g in gs :: g.request != request
  {
    if gs == [] then None
    else if gs[0].request == request then Some(gs[0])
    else ByRequest(gs[1..], request)
  }

  function WithTrace(gs: seq<Gateway>, trace: string): (r: seq<Gateway>)
    ensures forall g :: g in r <==> g in gs && g.trace == trace && Trusted(g.trustState, g.trustReason)
  {
    if gs == [] then []
    else
      (if gs[0].trace == trace && Trusted(gs[0].trustState, gs[0].trustReason) then [gs[0]] else [])
      + WithTrace(gs[1..], trace)
  }

  /** A candidate only when exactly one trusted row carries the trace. */
  function ByTrace(gs: seq<Gateway>, trace: string): (r: Option<Gateway>) {
    var found := WithTrace(gs, trace);
    if |found| == 1 then Some(found[0]) else None
  }

  ghost predicate TracedRow(g: Gateway, trace: string) { g.trace == trace && Trusted(g.trustState, g.trustReason) }

  /** Of all rows exactly one is trusted and carries the trace. */
  ghost predicate OnlyTraced(gs: seq<Gateway>, trace: string, g: Gateway) {
    exists k :: 0 <= k < |gs| && gs[k] == g && TracedRow(g, trace)
      && forall j | 0 <= j < |gs| && j != k :: !TracedRow(gs[j], trace)
  }

  lemma {:induction false} NoTraced(gs: seq<Gateway>, trace: string)
    ensures WithTrace(gs, trace) == [] <==> forall j | 0 <= j < |gs| :: !TracedRow(gs[j], trace)
  {
    assert WithTrace(gs, trace) != [] ==> WithTrace(gs, trace)[0] in WithTrace(gs, trace);
    if !forall j | 0 <= j < |gs| :: !TracedRow(gs[j], trace) {
      var j :| 0 <= j < |gs| && TracedRow(gs[j], trace);
      assert gs[j] in WithTrace(gs, trace);
    }
  }

  /** The lookup by trace finds that one row, and nothing when there is none or more than one. */
  lemma {:induction false} ByTraceMeans(gs: seq<Gateway>, trace: string, g: Gateway)
    ensures ByTrace(gs, trace) == Some(g) <==> OnlyTraced(gs, trace, g)
  {
    if gs != [] {
      var rest := gs[1..];
      ByTraceMeans(rest, trace, g);
      NoTraced(rest, trace);
      hide WithTrace;
      OnlyTracedSplit(gs, trace, g);
      assert WithTrace(gs, trace) == (if TracedRow(gs[0], trace) then [gs[0]] else []) + WithTrace(rest, trace) by {
        TraceUnfold(gs, trace);
      }
    }
  }

  lemma TraceUnfold(gs: seq<Gateway>, trace: string)
    requires gs != []
    ensures WithTrace(gs, trace) == (if TracedRow(gs[0], trace) then [gs[0]] else []) + WithTrace(gs[1..], trace)
  {
  }

  lemma OnlyTracedSplit(gs: seq<Gateway>, trace: string, g: Gateway)
    requires gs != []
    ensures OnlyTraced(gs, trace, g) <==>
      if TracedRow(gs[0], trace) then g == gs[0] && forall j | 0 <= j < |gs| - 1 :: !TracedRow(gs[1..][j], trace)
      else OnlyTraced(gs[1..], trace, g)
  {
    hide TracedRow;
    var rest := gs[1..];
    if OnlyTraced(gs, trace, g) {
      var k :| 0 <= k < |gs| && gs[k] == g && TracedRow(g, trace)
        && forall j | 0 <= j < |gs| && j != k :: !TracedRow(gs[j], trace);
      assert k > 0 ==> rest[k - 1] == g;
    }
    if OnlyTraced(rest, trace, g) && !TracedRow(gs[0], trace) {
      var k :| 0 <= k < |rest| && rest[k] == g && TracedRow(g, trace)
        && forall j | 0 <= j < |rest| && j != k :: !TracedRow(rest[j], trace);
      assert gs[k + 1] == g;
      forall j | 0 <= j < |gs| && j != k + 1 ensures !TracedRow(gs[j], trace) {
        assert j > 0 ==> gs[j] == rest[j - 1];
      }
    }
    if TracedRow(gs[0], trace) && g == gs[0] && forall j | 0 <= j < |rest| :: !TracedRow(rest[j], trace) {
      forall j | 0 < j < |gs| ensures !TracedRow(gs[j], trace) { assert gs[j] == rest[j - 1]; }
      assert gs[0] == g;
    }
  }

  const MISMATCHES := {"request_mismatch", "trace_mismatch", "source_mismatch", "service_mismatch", "route_mismatch"}

  /** `verifyBindingSQL` at instant `t`: the changed row, or none. */
  function VerifyRow(a: AuthEvent, gateway: string, gs: seq<Gateway>, t: int): (r: Option<AuthEvent>) {
    if a.binding.Pending? && t <= a.deadline && Trusted(a.trustState, a.trustReason) && a.service == DEMO_SERVICE
       && (exists k | 0 <= k < |gs| ::
             gs[k].id == gateway && Agrees(a, gs[k]) && Trusted(gs[k].trustState, gs[k].trustReason))
    then Some(a.(binding := Verified(gateway))) else None
  }

  function MarkRow(a: AuthEvent, reason: string, t: int): (r: Option<AuthEvent>) {
    if a.binding.Pending? && t <= a.deadline && reason in MISMATCHES then Some(a.(binding := Untrusted(reason)))
    else None
  }

  function ExpireRow(a: AuthEvent, t: int): (r: Option<AuthEvent>) {
    if a.binding.Pending? && a.deadline < t then Some(a.(binding := Untrusted("expired"))) else None
  }

  // ---- the decision ----

  function MismatchReason(a: AuthEvent, g: Gateway, requestKnown: bool): (r: string) {
    if !requestKnown && g.request != a.request then
      if g.trace == a.trace && g.source == a.source && a.service == DEMO_SERVICE && g.service == DEMO_SERVICE
        && g.route == a.route
      then "request_mismatch" else ""
    else if g.trace != a.trace then "trace_mismatch"
    else if g.source != a.source then "source_mismatch"
    else if a.service != DEMO_SERVICE || g.service != DEMO_SERVICE || g.service != a.service then "service_mismatch"
    else if g.route != a.route then "route_mismatch"
    else ""
  }

  /** What the statements of one row meet: the Gateway table at the two lookups and at the update, and the
      clock at the update and at the fallback. */
  datatype Env = Env(first: seq<Gateway>, second: seq<Gateway>, third: seq<Gateway>, update: int, fallback: int)

  /** The clock only advances after `now`; Gateway rows are only added, and never changed. */
  ghost predicate Fits(now: int, e: Env) {
    now <= e.update <= e.fallback && e.first <= e.second <= e.third
  }

  method TransitionBeforeDeadline(a: AuthEvent, updated: Option<AuthEvent>, success: Disposition, fallback: int)
    returns (r: Outcome, b: AuthEvent)
    ensures r.Rejected? <==> updated.None? && ExpireRow(a, fallback).None?
    ensures updated.Some? ==> r == Ok(success) && b == updated.value
    ensures updated.None? && !r.Rejected? ==> r == Ok(NowExpired) && b == ExpireRow(a, fallback).value
    ensures r.Rejected? ==> b == a
  {
    if updated.Some? {
      return Ok(success), updated.value;
    }
    var expired := ExpireRow(a, fallback);
    if expired.Some? {
      return Ok(NowExpired), expired.value;
    }
    return Rejected, a;
  }

  /** A Gateway row that justifies what became of a row. */
  ghost predicate Justified(a: AuthEvent, b: AuthEvent, gs: seq<Gateway>) {
    match b.binding
    case Pending => true
    case Verified(gateway) =>
      Trusted(a.trustState, a.trustReason)
      && exists g :: g in gs && g.id == gateway && Agrees(a, g) && Trusted(g.trustState, g.trustReason)
    case Untrusted(reason) =>
      reason == "expired"
      || (Trusted(a.trustState, a.trustReason)
          && exists g :: g in gs && Trusted(g.trustState, g.trustReason) && Contradicts(a, g, reason))
  }

  /** How a Gateway row contradicts an event: the first dimension that differs once the request is the same,
      or only the request. */
  ghost predicate Contradicts(a: AuthEvent, g: Gateway, reason: string) {
    || (reason == "request_mismatch" && g.request != a.request && Agrees(a.(request := g.request), g))
    || (reason == "trace_mismatch" && g.request == a.request && g.trace != a.trace)
    || (reason == "source_mismatch" && g.request == a.request && g.trace == a.trace && g.source != a.source)
    || (reason == "service_mismatch" && g.request == a.request && g.trace == a.trace && g.source == a.source
        && !(g.service == a.service == DEMO_SERVICE))
    || (reason == "route_mismatch" && g.request == a.request && g.trace == a.trace && g.source == a.source
        && g.service == a.service == DEMO_SERVICE && g.route != a.route)
  }

  /** A trusted Gateway row decides: agreement verifies, the first difference contradicts, both in time. */
  ghost predicate Concluded(a: AuthEvent, g: Gateway, b: Binding, update: int) {
    if update > a.deadline then b == Untrusted("expired")
    else if Agrees(a, g) then b == Verified(g.id)
    else b.Untrusted? && Contradicts(a, g, b.reason)
  }

  /** Some row of another request is the only trusted one with the trace and agrees in everything else. */
  ghost predicate Misrouted(a: AuthEvent, gs: seq<Gateway>) {
    exists g :: OnlyTraced(gs, a.trace, g) && g.request != a.request && Agrees(a.(request := g.request), g)
  }

  /** What becomes of a pending event, in every case. */
  ghost predicate Decision(a: AuthEvent, b: AuthEvent, now: int, e: Env) {
    var found := ByRequest(e.first, a.request);
    && b == a.(binding := b.binding)
    && (a.deadline < now ==> b.binding == Untrusted("expired"))
    && (now <= a.deadline ==>
          if !Trusted(a.trustState, a.trustReason) then b.binding.Pending?
          else if found.Some? then
            if Trusted(found.value.trustState, found.value.trustReason)
            then Concluded(a, found.value, b.binding, e.update) else b.binding.Pending?
          else if Misrouted(a, e.second)
            then b.binding == Untrusted(if e.update <= a.deadline then "request_mismatch" else "expired")
          else b.binding.Pending?)
  }

  /** The second lookup contradicts the request exactly when the event was misrouted. */
  lemma MisroutedMeans(a: AuthEvent, gs: seq<Gateway>)
    ensures Misrouted(a, gs) <==>
      var found := ByTrace(gs, a.trace);
      found.Some? && Trusted(found.value.trustState, found.value.trustReason)
      && MismatchReason(a, found.value, false) == "request_mismatch"
  {
    hide WithTrace, ByTrace;
    var found := ByTrace(gs, a.trace);
    if found.Some? {
      ByTraceMeans(gs, a.trace, found.value);
    }
    if Misrouted(a, gs) {
      var g :| OnlyTraced(gs, a.trace, g) && g.request != a.request && Agrees(a.(request := g.request), g);
      ByTraceMeans(gs, a.trace, g);
    }
  }

  /** The reason is empty exactly when all five dimensions agree. */
  lemma ReasonMeans(a: AuthEvent, g: Gateway)
    requires g.request == a.request
    ensures MismatchReason(a, g, true) == "" <==> Agrees(a, g)
    ensures MismatchReason(a, g, true) != "" ==>
      MismatchReason(a, g, true) in MISMATCHES && Contradicts(a, g, MismatchReason(a, g, true))
  {
  }

  /** `reconcileOne`: neither rejection error can happen, and the outcome is justified by the tables. */
  method ReconcileOne(a: AuthEvent, now: int, e: Env) returns (r: Outcome, b: AuthEvent)
    requires a.binding.Pending? && Fits(now, e)
    ensures !r.Rejected?
    ensures b == a.(binding := b.binding) && Justified(a, b, e.third)
    ensures r == Ok(StillPending) <==> b.binding.Pending?
    ensures r == Ok(NowVerified) <==> b.binding.Verified?
    ensures r == Ok(NowExpired) <==> b.binding == Untrusted("expired")
    ensures b.binding.Verified? ==> e.update <= a.deadline
    ensures b.binding == Untrusted("expired") ==> a.deadline < e.fallback
    ensures a.deadline < now ==> r == Ok(NowExpired)
    ensures Decision(a, b, now, e)
  {
    hide ByRequest, ByTrace, Misrouted;
    if a.deadline < now {
      var expired := ExpireRow(a, e.update);
      return Ok(NowExpired), expired.value;
    }
    if !Trusted(a.trustState, a.trustReason) {
      return Ok(StillPending), a;
    }
    var found := ByRequest(e.first, a.request);
    if found.Some? {
      var g := found.value;
      if !Trusted(g.trustState, g.trustReason) {
        return Ok(StillPending), a;
      }
      assert g in e.third;
      ReasonMeans(a, g);
      var reason := MismatchReason(a, g, true);
      if reason != "" {
        r, b := TransitionBeforeDeadline(a, MarkRow(a, reason, e.update), NowUntrusted, e.fallback);
      } else {
        r, b := TransitionBeforeDeadline(a, VerifyRow(a, g.id, e.third, e.update), NowVerified, e.fallback);
      }
      return;
    }
    found := ByTrace(e.second, a.trace);
    MisroutedMeans(a, e.second);
    if found.Some? && Trusted(found.value.trustState, found.value.trustReason)
       && MismatchReason(a, found.value, false) == "request_mismatch"
    {
      TracedIsThere(e.second, a.trace, found.value);
      assert found.value in e.third;
      r, b := TransitionBeforeDeadline(a, MarkRow(a, "request_mismatch", e.update), NowUntrusted, e.fallback);
      return;
    }
    return Ok(StillPending), a;
  }

  lemma TracedIsThere(gs: seq<Gateway>, trace: string, g: Gateway)
    requires ByTrace(gs, trace) == Some(g)
    ensures g in gs
  {
    assert g in WithTrace(gs, trace);
  }

  // ---- one transaction and whole runs ----

  ghost function PendingIDs(auths: map<string, AuthEvent>): (ids: set<string>) {
    set x | x in auths && auths[x].binding.Pending?
  }

  /** Rows that `lockPendingSQL` may return: pending, each once, at most `limit`; fewer only when no other
      pending row is free. */
  ghost predicate Locked(auths: map<string, AuthEvent>, batch: seq<string>, limit: nat, busy: set<string>) {
    && |batch| <= limit && (forall i, j | 0 <= i < j < |batch| :: batch[i] != batch[j])
    && (forall x | x in batch :: x in PendingIDs(auths) && x !in busy)
    && (|batch| < limit ==> forall x | x in PendingIDs(auths) && x !in busy :: x in batch)
  }

  /** What one row may become in a transaction that started at `now`. */
  ghost predicate Becomes(a: AuthEvent, b: AuthEvent, gs: seq<Gateway>, now: int) {
    b == a.(binding := b.binding) && Justified(a, b, gs) && (b.binding.Verified? ==> now <= a.deadline)
    && (a.deadline < now ==> !b.binding.Pending?)
  }

  /** The effect of one committed transaction. */
  ghost predicate Reconciled(before: map<string, AuthEvent>, after: map<string, AuthEvent>, batch: seq<string>,
      gs: seq<Gateway>, now: int) {
    && after.Keys == before.Keys
    && (forall x | x in before && x !in batch :: after[x] == before[x])
    && (forall x | x in before && x in batch :: Becomes(before[x], after[x], gs, now))
  }

  lemma JustifiedGrows(a: AuthEvent, b: AuthEvent, gs: seq<Gateway>, more: seq<Gateway>)
    requires Justified(a, b, gs) && gs <= more
    ensures Justified(a, b, more)
  {
    hide Contradicts, Agrees, Trusted;
    assert forall g | g in gs :: g in more;
  }

  function Class(b: Binding): (d: Disposition) {
    match b
    case Pending => StillPending
    case Verified(_) => NowVerified
    case Untrusted(reason) => if reason == "expired" then NowExpired else NowUntrusted
  }

  /** How many rows of a batch ended in one way. */
  ghost function Tally(auths: map<string, AuthEvent>, batch: seq<string>, d: Disposition): (n: nat) {
    if batch == [] then 0
    else
      var x := batch[|batch| - 1];
      Tally(auths, batch[..|batch| - 1], d) + (if x in auths && Class(auths[x].binding) == d then 1 else 0)
  }

  lemma {:induction false} TallyStep(auths: map<string, AuthEvent>, batch: seq<string>, b: AuthEvent, x: string,
      d: Disposition)
    requires x !in batch
    ensures Tally(auths[x := b], batch, d) == Tally(auths, batch, d)
    ensures Tally(auths[x := b], batch + [x], d) == Tally(auths, batch, d) + (if Class(b.binding) == d then 1 else 0)
  {
    assert (batch + [x])[..|batch|] == batch;
    if batch != [] {
      TallyStep(auths, batch[..|batch| - 1], b, x, d);
    }
  }

  ghost predicate Counted(auths: map<string, AuthEvent>, batch: seq<string>, c: Counts) {
    && c.verified == Tally(auths, batch, NowVerified) && c.pending == Tally(auths, batch, StillPending)
    && c.expired == Tally(auths, batch, NowExpired)
    && c.untrusted == Tally(auths, batch, NowUntrusted) + Tally(auths, batch, NowExpired)
    && |batch| == c.verified + c.untrusted + c.pending
  }

  lemma CountedStep(auths: map<string, AuthEvent>, batch: seq<string>, c: Counts, b: AuthEvent, x: string)
    requires Counted(auths, batch, c) && x !in batch
    ensures Counted(auths[x := b], batch + [x],
      match Class(b.binding)
      case StillPending => c.(pending := c.pending + 1)
      case NowVerified => c.(verified := c.verified + 1)
      case NowUntrusted => c.(untrusted := c.untrusted + 1)
      case NowExpired => c.(untrusted := c.untrusted + 1, expired := c.expired + 1))
  {
    hide Tally;
    TallyStep(auths, batch, b, x, StillPending);
    TallyStep(auths, batch, b, x, NowVerified);
    TallyStep(auths, batch, b, x, NowUntrusted);
    TallyStep(auths, batch, b, x, NowExpired);
  }

  lemma ReconciledStep(before: map<string, AuthEvent>, auths: map<string, AuthEvent>, batch: seq<string>,
      b: AuthEvent, x: string, gs: seq<Gateway>, now: int)
    requires Reconciled(before, auths, batch, gs, now) && x in before && x !in batch && Becomes(before[x], b, gs, now)
    ensures Reconciled(before, auths[x := b], batch + [x], gs, now)
  {
    hide Becomes;
  }

  class Database {
    var auths: map<string, AuthEvent>

    /** `Reconcile`: a transaction over the locked rows, which always commits; the counters are exact. */
    method Reconcile(limit: nat, busy: set<string>, batch: seq<string>, now: int, envs: seq<Env>,
        ghost gs: seq<Gateway>)
      returns (c: Counts)
      requires 1 <= limit <= 100 && Locked(auths, batch, limit, busy) && |envs| == |batch|
      requires forall k | 0 <= k < |envs| :: Fits(now, envs[k]) && envs[k].third <= gs
      modifies this
      ensures Reconciled(old(auths), auths, batch, gs, now)
      ensures c.examined == |batch| && Counted(auths, batch, c)
      ensures forall k | 0 <= k < |batch| ::
        batch[k] in old(auths) && batch[k] in auths && Decision(old(auths)[batch[k]], auths[batch[k]], now, envs[k])
    {
      hide Fits, Justified, Counted, Reconciled, Decision;
      c := Counts(|batch|, 0, 0, 0, 0);
      Unchanged(auths, gs, now);
      for k := 0 to |batch|
        invariant Reconciled(old(auths), auths, batch[..k], gs, now)
        invariant c.examined == |batch| && Counted(auths, batch[..k], c)
        invariant forall j | 0 <= j < k ::
          batch[j] in old(auths) && batch[j] in auths && Decision(old(auths)[batch[j]], auths[batch[j]], now, envs[j])
      {
        var x := batch[k];
        assert x !in batch[..k] && x in PendingIDs(old(auths));
        Untouched(old(auths), auths, batch[..k], x, gs, now);
        assert batch[..k + 1] == batch[..k] + [x];
        var r, b := ReconcileOne(auths[x], now, envs[k]);
        JustifiedGrows(auths[x], b, envs[k].third, gs);
        assert Becomes(auths[x], b, gs, now) by { Later(now, envs[k]); }
        ReconciledStep(old(auths), auths, batch[..k], b, x, gs, now);
        CountedStep(auths, batch[..k], c, b, x);
        auths := auths[x := b];
        match r.disposition {
          case StillPending => c := c.(pending := c.pending + 1);
          case NowVerified => c := c.(verified := c.verified + 1);
          case NowUntrusted => c := c.(untrusted := c.untrusted + 1);
          case NowExpired => c := c.(untrusted := c.untrusted + 1, expired := c.expired + 1);
        }
      }
      assert batch[..|batch|] == batch;
    }
  }

  lemma Later(now: int, e: Env)
    requires Fits(now, e)
    ensures now <= e.update
  {
  }

  lemma Unchanged(auths: map<string, AuthEvent>, gs: seq<Gateway>, now: int)
    ensures Reconciled(auths, auths, [], gs, now) && Counted(auths, [], Counts(0, 0, 0, 0, 0))
    ensures forall n: nat :: Counted(auths, [], Counts(n, 0, 0, 0, 0))
  {
  }

  lemma Untouched(before: map<string, AuthEvent>, auths: map<string, AuthEvent>, batch: seq<string>, x: string,
      gs: seq<Gateway>, now: int)
    requires Reconciled(before, auths, batch, gs, now) && x in before && x !in batch
    ensures x in auths && auths[x] == before[x]
  {
    hide Becomes;
  }

  // ---- runs of transactions ----

  /** One transaction, and the auth events ingested between it and the next. */
  datatype Transaction = Transaction(
    batch: seq<string>, busy: set<string>, now: int, gateways: seq<Gateway>, arrived: map<string, AuthEvent>)

  /** Newly ingested events are pending. */
  ghost predicate Arrivals(rows: map<string, AuthEvent>) { forall x | x in rows :: rows[x].binding.Pending? }

  ghost predicate Follows(before: map<string, AuthEvent>, after: map<string, AuthEvent>, t: Transaction, limit: nat) {
    && Locked(before, t.batch, limit, t.busy) && before.Keys !! t.arrived.Keys && Arrivals(t.arrived)
    && exists committed :: Reconciled(before, committed, t.batch, t.gateways, t.now) && after == committed + t.arrived
  }

  /** Successive transactions under an advancing clock, a growing Gateway table and new auth events. */
  ghost predicate History(states: seq<map<string, AuthEvent>>, runs: seq<Transaction>, limit: nat) {
    && 1 <= limit && |states| == |runs| + 1
    && (forall k | 0 <= k < |runs| :: Follows(states[k], states[k + 1], runs[k], limit))
    && (forall i, j | 0 <= i <= j < |runs| :: runs[i].now <= runs[j].now && runs[i].gateways <= runs[j].gateways)
  }

  /** What a transaction and the arrivals after it make of one row. */
  lemma FollowsRow(before: map<string, AuthEvent>, after: map<string, AuthEvent>, t: Transaction, limit: nat, x: string)
    requires Follows(before, after, t, limit)
    ensures after.Keys == before.Keys + t.arrived.Keys
    ensures x in before && !before[x].binding.Pending? ==> after[x] == before[x]
    ensures x in before && after[x].binding.Pending? ==> after[x] == before[x]
    ensures x in before && before[x].binding.Pending? && !after[x].binding.Pending? ==>
      Becomes(before[x], after[x], t.gateways, t.now)
    ensures x in after && x !in before ==> after[x].binding.Pending?
  {
    hide Justified;
    var committed :| Reconciled(before, committed, t.batch, t.gateways, t.now) && after == committed + t.arrived;
    assert x in before ==> after[x] == committed[x];
  }

  /** A decided row never changes again. */
  lemma {:induction false} DecidedStays(states: seq<map<string, AuthEvent>>, runs: seq<Transaction>, limit: nat,
      x: string, i: nat, j: nat)
    requires History(states, runs, limit) && i <= j < |states| && x in states[i] && !states[i][x].binding.Pending?
    ensures x in states[j] && states[j][x] == states[i][x]
    decreases j
  {
    hide Follows, Becomes;
    if i < j {
      DecidedStays(states, runs, limit, x, i, j - 1);
      FollowsRow(states[j - 1], states[j], runs[j - 1], limit, x);
    }
  }

  /** No row is ever lost, and a row still pending is as it was ingested. */
  lemma {:induction false} StillOriginal(states: seq<map<string, AuthEvent>>, runs: seq<Transaction>, limit: nat,
      x: string, i: nat, j: nat)
    requires History(states, runs, limit) && i <= j < |states| && x in states[i]
    ensures x in states[j] && (states[j][x].binding.Pending? ==> states[j][x] == states[i][x])
    decreases j
  {
    hide Follows, Becomes;
    if i < j {
      StillOriginal(states, runs, limit, x, i, j - 1);
      FollowsRow(states[j - 1], states[j], runs[j - 1], limit, x);
    }
  }

  /** Over every run, a row decided on the way was decided once, by a transaction that had it pending as it was
      ingested, on Gateway rows that justify it; a verified row in time for its deadline. */
  lemma {:induction false} DecisionsAreJustified(states: seq<map<string, AuthEvent>>, runs: seq<Transaction>,
      limit: nat, x: string, j: nat)
    returns (i: nat)
    requires History(states, runs, limit) && j < |states| && x in states[j] && !states[j][x].binding.Pending?
    requires x in states[0] ==> states[0][x].binding.Pending?
    ensures i < j && x in states[i] && states[i][x].binding.Pending?
    ensures Becomes(states[i][x], states[j][x], runs[i].gateways, runs[i].now)
    ensures forall f | 0 <= f <= i && x in states[f] :: states[f][x] == states[i][x]
    decreases j
  {
    hide Follows, Becomes;
    var k := j - 1;
    FollowsRow(states[k], states[j], runs[k], limit, x);
    if states[k][x].binding.Pending? {
      forall f | 0 <= f <= k && x in states[f] ensures states[f][x] == states[k][x] {
        StillOriginal(states, runs, limit, x, f, k);
      }
      i := k;
    } else {
      i := DecisionsAreJustified(states, runs, limit, x, k);
    }
  }

  lemma {:induction false} DistinctCount(s: seq<string>)
    requires forall i, j | 0 <= i < j < |s| :: s[i] != s[j]
    ensures |Elements(s)| == |s|
  {
    if s != [] {
      var front, x := s[..|s| - 1], s[|s| - 1];
      DistinctCount(front);
      assert Elements(s) == Elements(front) + {x};
    } else {
      assert Elements(s) == {};
    }
  }

  ghost function Elements(s: seq<string>): (r: set<string>) { set x | x in s }

  /** Every pending row is past its deadline. */
  ghost predicate Overdue(auths: map<string, AuthEvent>, now: int) {
    forall x | x in PendingIDs(auths) :: auths[x].deadline < now
  }

  /** Every locked row that is overdue is decided, and no other row changes. */
  lemma LockedAreDecided(before: map<string, AuthEvent>, after: map<string, AuthEvent>, t: Transaction, limit: nat)
    requires Follows(before, after, t, limit) && t.arrived == map[] && Overdue(before, t.now)
    ensures PendingIDs(after) == PendingIDs(before) - Elements(t.batch)
  {
    hide Justified;
    var committed :| Reconciled(before, committed, t.batch, t.gateways, t.now) && after == committed + t.arrived;
    assert after == committed;
  }

  lemma OneDrain(before: map<string, AuthEvent>, after: map<string, AuthEvent>, t: Transaction, limit: nat)
    requires Follows(before, after, t, limit) && t.busy == {} && t.arrived == map[] && Overdue(before, t.now)
    ensures |PendingIDs(after)| == if |PendingIDs(before)| <= limit then 0 else |PendingIDs(before)| - limit
  {
    hide Reconciled, Overdue, Arrivals, PendingIDs;
    LockedAreDecided(before, after, t, limit);
    DistinctCount(t.batch);
    var p, b := PendingIDs(before), Elements(t.batch);
    assert b <= p;
    assert |p - b| == |p| - |b|;
    assert |t.batch| < limit ==> b == p;
  }

  /** Once every deadline has passed, nobody else holds rows and no new ones arrive, k transactions clear k times
      the limit: nothing is pending after ⌈n / limit⌉ of them. */
  lemma {:induction false} PendingDrains(states: seq<map<string, AuthEvent>>, runs: seq<Transaction>, limit: nat,
      k: nat)
    requires History(states, runs, limit) && k < |states|
    requires forall i | 0 <= i < |runs| :: runs[i].busy == {} && runs[i].arrived == map[]
    requires |runs| > 0 ==> Overdue(states[0], runs[0].now)
    ensures var n := |PendingIDs(states[0])|;
      |PendingIDs(states[k])| == if n <= k * limit then 0 else n - k * limit
  {
    hide Follows, Overdue, PendingIDs;
    if k > 0 {
      PendingDrains(states, runs, limit, k - 1);
      OverdueStays(states, runs, limit, k - 1);
      OneDrain(states[k - 1], states[k], runs[k - 1], limit);
      assert k * limit == (k - 1) * limit + limit;
    }
  }

  lemma {:induction false} SameRows(states: seq<map<string, AuthEvent>>, runs: seq<Transaction>, limit: nat, k: nat)
    requires History(states, runs, limit) && k < |states| && forall i | 0 <= i < |runs| :: runs[i].arrived == map[]
    ensures states[k].Keys == states[0].Keys
  {
    hide Follows, Becomes;
    if k > 0 {
      SameRows(states, runs, limit, k - 1);
      FollowsRow(states[k - 1], states[k], runs[k - 1], limit, "");
    }
  }

  lemma OverdueStays(states: seq<map<string, AuthEvent>>, runs: seq<Transaction>, limit: nat, k: nat)
    requires History(states, runs, limit) && k < |runs| && Overdue(states[0], runs[0].now)
    requires forall i | 0 <= i < |runs| :: runs[i].arrived == map[]
    ensures Overdue(states[k], runs[k].now)
  {
    hide Follows;
    SameRows(states, runs, limit, k);
    forall x | x in PendingIDs(states[k]) ensures states[k][x].deadline < runs[k].now {
      assert x in states[0].Keys;
      StillOriginal(states, runs, limit, x, 0, k);
    }
  }
}
