/** The AI budget (`internal/ai/budget_postgres.go`) and the settlement discipline of the client
    (`internal/ai/client.go`). Money is in millionths of a dollar, rates per million units. */
module Budget {
  import opened Prelude

  const MILLION := 1_000_000
  const MAX_INT64 := 9_223_372_036_854_775_807
  const MAX_INPUT := 12 * 1024
  const MAX_OUTPUT := 2048

  datatype Term = Term(units: int, rate: int)

  datatype Rates = Rates(input: int, cached: int, output: int)

  datatype Usage = Usage(input: int, cached: int, output: int, trusted: bool)

  // ---- arithmetic ----

  function Sum(terms: seq<Term>): (n: int) {
    if terms == [] then 0 else Sum(terms[..|terms| - 1]) + terms[|terms| - 1].units * terms[|terms| - 1].rate
  }

  /** Rounded up to whole millionths. */
  function Ceiling(total: int): (r: int) { (total + MILLION - 1) / MILLION }

  function Cost(terms: seq<Term>): (r: Option<int>) {
    if (exists k | 0 <= k < |terms| :: terms[k].units < 0 || terms[k].rate <= 0) || Sum(terms) <= 0
      || Ceiling(Sum(terms)) > MAX_INT64
    then None else Some(Ceiling(Sum(terms)))
  }

  /** `roundedMicroUSDCost`. */
  method RoundedMicroUSDCost(terms: seq<Term>) returns (r: Option<int>)
    ensures r == Cost(terms)
  {
    var total := 0;
    for k := 0 to |terms|
      invariant total == Sum(terms[..k]) && forall i | 0 <= i < k :: terms[i].units >= 0 && terms[i].rate > 0
    {
      assert terms[..k + 1][..k] == terms[..k];
      if terms[k].units < 0 || terms[k].rate <= 0 {
        return None;
      }
      total := total + terms[k].units * terms[k].rate;
    }
    assert terms[..|terms|] == terms;
    if total <= 0 {
      return None;
    }
    total := (total + MILLION - 1) / MILLION;
    return if total > MAX_INT64 then None else Some(total);
  }

  predicate ValidRates(r: Rates) { r.input > 0 && r.cached > 0 && r.output > 0 }

  predicate InBounds(u: Usage) {
    u.trusted && 0 < u.input <= MAX_INPUT && 0 < u.output <= MAX_OUTPUT && 0 <= u.cached <= u.input
  }

  function Dearer(r: Rates): (m: int) { if r.cached > r.input then r.cached else r.input }

  function WorstTerms(r: Rates): (t: seq<Term>) { [Term(MAX_INPUT, Dearer(r)), Term(MAX_OUTPUT, r.output)] }

  function UsageTerms(r: Rates, u: Usage): (t: seq<Term>) {
    [Term(u.input - u.cached, r.input), Term(u.cached, r.cached), Term(u.output, r.output)]
  }

  lemma WorstSum(r: Rates)
    ensures Sum(WorstTerms(r)) == 12_288 * Dearer(r) + 2_048 * r.output
  {
    var t := WorstTerms(r);
    assert t[..1] == [t[0]] && t[..1][..0] == [];
    assert Sum(t[..1]) == MAX_INPUT * Dearer(r);
  }

  lemma UsageSum(r: Rates, u: Usage)
    ensures Sum(UsageTerms(r, u)) == (u.input - u.cached) * r.input + u.cached * r.cached + u.output * r.output
  {
    var t := UsageTerms(r, u);
    assert t[..2] == [t[0], t[1]] && t[..2][..1] == [t[0]] && [t[0]][..0] == [];
    assert Sum([t[0]]) == (u.input - u.cached) * r.input;
    assert Sum(t[..2]) == Sum([t[0]]) + u.cached * r.cached;
  }

  lemma ScaleUp(a: int, b: int, x: int, y: int)
    requires 0 <= a <= b && 0 <= x <= y
    ensures a * x <= b * y
  {
    assert a * x <= b * x;
    assert b * x <= b * y;
  }

  lemma SpentAtMostWorst(r: Rates, u: Usage)
    requires ValidRates(r) && InBounds(u)
    ensures 0 < (u.input - u.cached) * r.input + u.cached * r.cached + u.output * r.output
         <= MAX_INPUT * Dearer(r) + MAX_OUTPUT * r.output
  {
    var m := Dearer(r);
    ScaleUp(u.input - u.cached, u.input - u.cached, r.input, m);
    ScaleUp(u.cached, u.cached, r.cached, m);
    assert (u.input - u.cached) * m + u.cached * m == u.input * m;
    ScaleUp(u.input, MAX_INPUT, m, m);
    ScaleUp(u.output, MAX_OUTPUT, r.output, r.output);
    ScaleUp(1, u.output, 1, r.output);
    ScaleUp(0, u.input - u.cached, 0, r.input);
    ScaleUp(0, u.cached, 0, r.cached);
  }

  /** Rounded up: the least number of whole millionths that covers the total. */
  lemma CeilingMeans(total: int)
    ensures MILLION * (Ceiling(total) - 1) < total <= MILLION * Ceiling(total)
  {
  }

  /** A cost exists exactly for nonnegative units at positive rates that come to something, within 64 bits; it is
      then the least whole number of millionths that covers them. */
  lemma CostMeans(terms: seq<Term>)
    ensures Cost(terms).Some? <==>
      (forall k | 0 <= k < |terms| :: terms[k].units >= 0 && terms[k].rate > 0)
      && 0 < Sum(terms) <= MILLION * MAX_INT64
    ensures Cost(terms).Some? ==> MILLION * (Cost(terms).value - 1) < Sum(terms) <= MILLION * Cost(terms).value
  {
    CeilingMeans(Sum(terms));
  }

  lemma CeilingGrows(a: int, b: int)
    requires 0 < a <= b
    ensures 0 < Ceiling(a) <= Ceiling(b)
  {
  }

  /** For all positive rates and every usage within bounds the charge is positive and at most the reservation. */
  lemma ChargeWithinReservation(r: Rates, u: Usage, reserved: int)
    requires ValidRates(r) && InBounds(u) && Cost(WorstTerms(r)) == Some(reserved)
    ensures Cost(UsageTerms(r, u)).Some? && 0 < Cost(UsageTerms(r, u)).value <= reserved
  {
    WorstSum(r);
    UsageSum(r, u);
    SpentAtMostWorst(r, u);
    hide Sum;
    CeilingGrows(Sum(UsageTerms(r, u)), Sum(WorstTerms(r)));
  }

  /** The reservation is no larger than it must be: some usage within bounds costs all of it. */
  lemma ReservationIsTight(r: Rates, reserved: int) returns (u: Usage)
    requires ValidRates(r) && Cost(WorstTerms(r)) == Some(reserved)
    ensures InBounds(u) && Cost(UsageTerms(r, u)) == Some(reserved)
  {
    u := Usage(MAX_INPUT, if r.cached > r.input then MAX_INPUT else 0, MAX_OUTPUT, true);
    WorstSum(r);
    UsageSum(r, u);
    hide Sum;
    assert Sum(UsageTerms(r, u)) == Sum(WorstTerms(r));
  }

  // ---- settling ----

  /** What `Settle` charges, and whether it then reports success. */
  function Charge(r: Rates, reserved: int, u: Usage, full: bool): (c: (int, bool)) {
    if full then (reserved, true)
    else if !InBounds(u) then (reserved, false)
    else
      var cost := Cost(UsageTerms(r, u));
      if cost.None? || cost.value <= 0 || cost.value > reserved then (reserved, false) else (cost.value, true)
  }

  /** The over-charge guard never fires: usage within bounds is charged at its own cost. */
  lemma GuardUnreachable(r: Rates, reserved: int, u: Usage)
    requires ValidRates(r) && InBounds(u) && Cost(WorstTerms(r)) == Some(reserved)
    ensures Cost(UsageTerms(r, u)).Some? && Charge(r, reserved, u, false) == (Cost(UsageTerms(r, u)).value, true)
  {
    hide Cost;
    ChargeWithinReservation(r, u, reserved);
  }

  /** What is charged: the usage at its own cost where it is trusted and in bounds, and the whole reservation
      otherwise, which is an error unless it was asked for. */
  lemma ChargeMeans(r: Rates, reserved: int, u: Usage, full: bool)
    requires ValidRates(r) && Cost(WorstTerms(r)) == Some(reserved)
    ensures full ==> Charge(r, reserved, u, full) == (reserved, true)
    ensures !full && InBounds(u) ==> Cost(UsageTerms(r, u)) == Some(Charge(r, reserved, u, full).0)
    ensures !full ==> (Charge(r, reserved, u, full).1 <==> InBounds(u))
    ensures !full && !InBounds(u) ==> Charge(r, reserved, u, full).0 == reserved
  {
    hide Cost;
    if InBounds(u) { GuardUnreachable(r, reserved, u); }
  }

  datatype Grant = Grant(id: string, amount: int)

  datatype Settlement = Settlement(id: string, charged: int)

  /** The body of a response: unreadable, longer than allowed, or parsed with whatever usage it names. */
  datatype Body = ReadFailed | TooLarge | Parsed(failed: bool, usage: Usage)

  /** What follows a granted reservation: no body or no request could be made, the transport failed, it returned
      nothing, or a response came. */
  datatype Reply = BodyFailed | RequestFailed | TransportFailed | NoResponse | Response(code: int, body: Body)

  /** What one attempt meets: the identifier of a grant or none, the reply, and the answer to settling. */
  datatype Turn = Turn(grant: Option<string>, reply: Reply, settles: bool, sleeps: bool)

  datatype Verdict = Success(usage: Usage) | Failure(status: int)

  predicate Retryable(status: int) { status == 408 || status == 409 || status == 429 || 500 <= status <= 599 }

  /** `statusFailure`: the reason kept with an incident whose analysis failed. */
  function StatusReason(status: int): (r: string) {
    if status == 408 then "http_408" else if status == 409 then "http_409" else if status == 429 then "rate_limited"
    else if 500 <= status <= 599 then "server_error" else "configuration_error"
  }

  /** Every grant is settled once, in order, with a charge in range. */
  ghost predicate Settled(granted: seq<Grant>, settled: seq<Settlement>) {
    |granted| == |settled|
    && forall k | 0 <= k < |granted| :: settled[k].id == granted[k].id && 0 < settled[k].charged <= granted[k].amount
  }

  ghost function Total(s: seq<Settlement>): (n: int) {
    if s == [] then 0 else Total(s[..|s| - 1]) + s[|s| - 1].charged
  }

  lemma {:induction false} TotalBounded(granted: seq<Grant>, s: seq<Settlement>, worst: int)
    requires Settled(granted, s) && forall k | 0 <= k < |granted| :: granted[k].amount == worst
    ensures Total(s) <= |s| * worst
  {
    if s != [] {
      var n := |s| - 1;
      TotalBounded(granted[..n], s[..n], worst);
      assert |s| * worst == n * worst + worst;
    }
  }

  class Client {
    const rates: Rates
    const dailyLimit: int
    const maxAttempts: nat
    var granted: seq<Grant>
    var settled: seq<Settlement>

    constructor (rates: Rates, dailyLimit: int, maxAttempts: nat)
      requires ValidRates(rates) && 1 <= maxAttempts <= 2
      ensures Valid() && granted == [] && settled == []
      ensures this.rates == rates && this.dailyLimit == dailyLimit && this.maxAttempts == maxAttempts
    {
      this.rates, this.dailyLimit, this.maxAttempts := rates, dailyLimit, maxAttempts;
      granted, settled := [], [];
    }

    ghost predicate Valid()
      reads this
    {
      && ValidRates(rates) && 1 <= maxAttempts <= 2 && Settled(granted, settled)
      && forall k | 0 <= k < |granted| :: Cost(WorstTerms(rates)) == Some(granted[k].amount)
    }

    /** The worst case has a price within the daily limit. */
    ghost predicate Affordable() {
      Cost(WorstTerms(rates)).Some? && Cost(WorstTerms(rates)).value <= dailyLimit
    }

    /** The turn ends with a retryable status of a settled request, and the wait after it is not interrupted. */
    ghost predicate CallsForRetry(t: Turn) {
      && t.grant.Some? && Affordable() && t.settles && t.sleeps
      && t.reply.Response? && t.reply.code != 200 && Retryable(t.reply.code)
    }

    /** `Reserve`: the worst case, unless it exceeds the daily limit or the ledger refuses. */
    method Reserve(answer: Option<string>) returns (g: Option<Grant>)
      modifies this`granted
      ensures g.Some? <==> answer.Some? && Cost(WorstTerms(rates)).Some? && Cost(WorstTerms(rates)).value <= dailyLimit
      ensures g.Some? ==> g.value == Grant(answer.value, Cost(WorstTerms(rates)).value)
      ensures granted == old(granted) + if g.Some? then [g.value] else []
    {
      var reserved := RoundedMicroUSDCost(WorstTerms(rates));
      if reserved.None? || reserved.value > dailyLimit || answer.None? {
        return None;
      }
      g := Some(Grant(answer.value, reserved.value));
      granted := granted + [g.value];
    }

    /** `Settle`: exactly one charge, whatever the usage says. */
    method Settle(g: Grant, usage: Usage, full: bool, answered: bool) returns (ok: bool)
      modifies this`settled
      ensures settled == old(settled) + [Settlement(g.id, Charge(rates, g.amount, usage, full).0)]
      ensures ok == (answered && Charge(rates, g.amount, usage, full).1)
    {
      var charged, valid := g.amount, true;
      if !full {
        if !InBounds(usage) {
          valid := false;
        } else {
          var cost := RoundedMicroUSDCost(UsageTerms(rates, usage));
          if cost.None? || cost.value <= 0 || cost.value > g.amount {
            valid := false;
          } else {
            charged := cost.value;
          }
        }
      }
      settled := settled + [Settlement(g.id, charged)];
      ok := answered && valid;
    }

    /** `attempt`: on each of its nine ways out a granted reservation is settled once and nothing else is. */
    method Attempt(t: Turn) returns (v: Verdict)
      requires Valid()
      modifies this`granted, this`settled
      ensures Valid()
      ensures |granted| <= |old(granted)| + 1 && old(granted) <= granted && old(settled) <= settled
      ensures v.Success? ==>
        t.settles && t.reply == Response(200, Parsed(false, v.usage)) && |granted| == |old(granted)| + 1
      ensures v.Success? ==>
        Some(settled[|settled| - 1].charged) ==
          Cost(if v.usage.trusted then UsageTerms(rates, v.usage) else WorstTerms(rates))
      ensures v.Failure? && |granted| > |old(granted)| ==>
        settled[|settled| - 1].charged == granted[|granted| - 1].amount
          || (t.reply.Response? && t.reply.body.Parsed? && !t.settles)
      ensures v.Failure? && Retryable(v.status) ==>
        t.grant.Some? && Affordable() && t.reply.Response? && t.reply.code == v.status && t.settles
      ensures |granted| == |old(granted)| + (if t.grant.Some? && Affordable() then 1 else 0)
      ensures t.grant.Some? && Affordable() && t.settles && t.reply.Response? ==>
        && (t.reply.code != 200 ==> v == Failure(t.reply.code))
        && (t.reply.code == 200 && t.reply.body.Parsed? && !t.reply.body.failed ==>
              ((t.reply.body.usage.trusted ==> InBounds(t.reply.body.usage)) ==> v == Success(t.reply.body.usage)))
    {
      hide Cost;
      var g := Reserve(t.grant);
      if g.None? {
        return Failure(0);
      }
      hide Charge, InBounds;
      ReservedPositive(rates, g.value.amount);
      ChargeMeans(rates, g.value.amount, Usage(0, 0, 0, false), true);
      var nothing, ok := Usage(0, 0, 0, false), false;
      if t.reply.BodyFailed? {
        ok := Settle(g.value, nothing, true, t.settles);
        return Failure(0);
      }
      if t.reply.RequestFailed? {
        ok := Settle(g.value, nothing, true, t.settles);
        return Failure(0);
      }
      if t.reply.TransportFailed? {
        ok := Settle(g.value, nothing, true, t.settles);
        return Failure(0);
      }
      if t.reply.NoResponse? {
        ok := Settle(g.value, nothing, true, t.settles);
        return Failure(0);
      }
      if t.reply.code != 200 {
        ok := Settle(g.value, nothing, true, t.settles);
        return if ok then Failure(t.reply.code) else Failure(0);
      }
      var body := t.reply.body;
      if body.ReadFailed? {
        ok := Settle(g.value, nothing, true, t.settles);
        return Failure(0);
      }
      if body.TooLarge? {
        ok := Settle(g.value, nothing, true, t.settles);
        return Failure(0);
      }
      var full := body.failed || !body.usage.trusted;
      ChargeInRange(rates, g.value.amount, body.usage, full);
      ChargeMeans(rates, g.value.amount, body.usage, full);
      ok := Settle(g.value, body.usage, full, t.settles);
      return if ok && !body.failed then Success(body.usage) else Failure(0);
    }

    /** `Analyze`: at most `maxAttempts` reservations, all settled, and a retry only after a retryable status. */
    method Analyze(turns: seq<Turn>) returns (v: Verdict, used: nat)
      requires Valid() && |turns| == maxAttempts
      modifies this`granted, this`settled
      ensures Valid() && old(granted) <= granted && old(settled) <= settled
      ensures 1 <= used <= maxAttempts && |granted| <= |old(granted)| + used
      ensures forall k | 0 <= k < used - 1 :: CallsForRetry(turns[k])
      ensures used < maxAttempts ==> !CallsForRetry(turns[used - 1])
      ensures v.Success? ==> turns[used - 1].reply == Response(200, Parsed(false, v.usage))
      ensures Cost(WorstTerms(rates)).Some? ==> Total(settled[|old(settled)|..]) <= used * Cost(WorstTerms(rates)).value
    {
      v, used := Try(turns);
      ghost var n := |old(granted)|;
      assert |old(settled)| == n;
      if Cost(WorstTerms(rates)).Some? {
        ghost var worst := Cost(WorstTerms(rates)).value;
        hide Cost;
        TotalBounded(granted[n..], settled[n..], worst);
        ReservedPositive(rates, worst);
        ScaleUp(|settled[n..]|, used, worst, worst);
      }
    }

    method Try(turns: seq<Turn>) returns (v: Verdict, used: nat)
      requires Valid() && |turns| == maxAttempts
      modifies this`granted, this`settled
      ensures Valid() && old(granted) <= granted && old(settled) <= settled
      ensures 1 <= used <= maxAttempts && |granted| <= |old(granted)| + used
      ensures forall k | 0 <= k < used - 1 :: CallsForRetry(turns[k])
      ensures used < maxAttempts ==> !CallsForRetry(turns[used - 1])
      ensures v.Success? ==> turns[used - 1].reply == Response(200, Parsed(false, v.usage))
    {
      hide Cost;
      used := 0;
      v := Failure(0);
      while used < maxAttempts
        invariant 0 <= used <= maxAttempts && Valid() && old(granted) <= granted && old(settled) <= settled
        invariant |granted| <= |old(granted)| + used && v.Failure?
        invariant forall k | 0 <= k < used :: CallsForRetry(turns[k])
        decreases maxAttempts - used
      {
        var t := turns[used];
        v := Attempt(t);
        used := used + 1;
        if v.Success? || used == maxAttempts || !Retryable(v.status) {
          return;
        }
        if !t.sleeps {
          v := Failure(0);
          return;
        }
      }
    }
  }

  lemma ReservedPositive(r: Rates, reserved: int)
    requires Cost(WorstTerms(r)) == Some(reserved)
    ensures reserved > 0
  {
    CeilingGrows(Sum(WorstTerms(r)), Sum(WorstTerms(r)));
  }

  lemma ChargeInRange(r: Rates, reserved: int, u: Usage, full: bool)
    requires ValidRates(r) && reserved > 0 && Cost(WorstTerms(r)) == Some(reserved)
    ensures 0 < Charge(r, reserved, u, full).0 <= reserved
    ensures !full && Charge(r, reserved, u, full).1 ==>
      Cost(UsageTerms(r, u)).Some? && Charge(r, reserved, u, full).0 == Cost(UsageTerms(r, u)).value
  {
    hide Cost;
  }
}
