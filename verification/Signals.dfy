/** Detector signals, their validation and their normal form (`internal/correlation/validate.go`).
    Time is an integer number of nanoseconds since Go's zero instant, so `IsZero` is `== 0`. */
module Signals {
  import opened Prelude
  import opened Order
  import opened Encoding

  /** The error codes of `internal/correlation/types.go`. */
  datatype ErrorCode =
    | InvalidInput | ConflictingSignal | StaleRevision | IdempotencyConflict
    | InvalidTransition | RetryNotAllowed | IdleDeadlineNotReached | TimeRegression

  datatype Result<+T> = Ok(value: T) | Err(error: ErrorCode)

  datatype Metrics = Metrics(eventCount: int, distinctPathCount: int, distinctAccountCount: int)

  datatype Signal = Signal(
    id: string, rule: string, classification: string,
    configVersion: string, configDigest: string,
    source: string, service: string,
    start: int, end: int,
    metrics: Metrics, evidenceIDs: seq<string>,
    evidenceDigest: string, digest: string, health: string)

  // ---- syntax ----

  predicate LowerHex(c: char) { '0' <= c <= '9' || 'a' <= c <= 'f' }

  predicate UUIDShaped(s: string) {
    |s| == 36 && forall i | 0 <= i < 36 :: if i in {8, 13, 18, 23} then s[i] == '-' else LowerHex(s[i])
  }

  predicate DigestShaped(s: string) {
    |s| == 71 && s[..7] == "sha256:" && forall i | 7 <= i < 71 :: LowerHex(s[i])
  }

  predicate Label(s: string, dots: bool) {
    1 <= |s| <= 64 && 'a' <= s[0] <= 'z'
    && forall i | 1 <= i < |s| ::
         'a' <= s[i] <= 'z' || '0' <= s[i] <= '9' || s[i] in {'_', '-'} || (dots && s[i] == '.')
  }

  function Dotted(a: nat, b: nat, c: nat, d: nat): (r: string) {
    Itoa(a) + "." + Itoa(b) + "." + Itoa(c) + "." + Itoa(d)
  }

  predicate CanonicalIPv4(s: string) {
    exists a, b, c, d | 0 <= a < 256 && 0 <= b < 256 && 0 <= c < 256 && 0 <= d < 256 ::
      s == Dotted(a, b, c, d)
  }

  predicate ValidRule(rule: string, classification: string, m: Metrics) {
    match rule
    case "path_scan.v1" =>
      classification == "path_scan" && m.eventCount >= 8 && m.distinctPathCount == 8 && m.distinctAccountCount == 0
    case "request_burst.v1" =>
      classification == "request_burst" && m.eventCount >= 120 && m.distinctAccountCount == 0
        && m.distinctPathCount == 0
    case "login_bruteforce.v1" =>
      classification == "brute_force" && m.eventCount >= 10 && m.distinctAccountCount == 0 && m.distinctPathCount == 0
    case "credential_stuffing.v1" =>
      classification == "credential_stuffing" && m.eventCount >= 20 && m.distinctAccountCount >= 8
        && m.distinctPathCount == 0
    case _ => false
  }

  predicate ValidMetrics(m: Metrics) {
    1 <= m.eventCount <= 1_000_000 && 0 <= m.distinctAccountCount <= 1_000_000 && 0 <= m.distinctPathCount <= 8
  }

  predicate ValidWindow(s: Signal) { s.start != 0 && s.end != 0 && s.start <= s.end }

  predicate ValidEvidence(s: Signal) {
    |s.evidenceIDs| == s.metrics.eventCount && |s.evidenceIDs| != 0
    && (forall i | 0 <= i < |s.evidenceIDs| :: UUIDShaped(s.evidenceIDs[i]))
    && (forall i | 1 <= i < |s.evidenceIDs| :: StrLess(s.evidenceIDs[i - 1], s.evidenceIDs[i]))
  }

  /** `validateSignal`: every violation is reported as invalid input. */
  predicate ValidSignal(s: Signal) {
    UUIDShaped(s.id) && ValidRule(s.rule, s.classification, s.metrics)
    && Label(s.configVersion, true) && DigestShaped(s.configDigest)
    && CanonicalIPv4(s.source) && Label(s.service, false)
    && ValidWindow(s) && ValidMetrics(s.metrics)
    && s.health == "complete" && ValidEvidence(s)
    && DigestShaped(s.evidenceDigest) && DigestShaped(s.digest)
  }

  /** The four rules: each with its classification, its least number of events and what it counts besides. */
  ghost predicate Matches(s: Signal, rule: string, classification: string, events: int, accounts: int, paths: int) {
    s.rule == rule && s.classification == classification && s.metrics.eventCount >= events
    && s.metrics.distinctAccountCount >= accounts && (accounts == 0 ==> s.metrics.distinctAccountCount == 0)
    && s.metrics.distinctPathCount == paths
  }

  /** What a valid signal says: it matches one of the four rules, and lists as many pieces of evidence as it counts
      events, each once and in order. */
  lemma ValidSignalMeans(s: Signal)
    requires ValidSignal(s)
    ensures
      || Matches(s, "path_scan.v1", "path_scan", 8, 0, 8)
      || Matches(s, "request_burst.v1", "request_burst", 120, 0, 0)
      || Matches(s, "login_bruteforce.v1", "brute_force", 10, 0, 0)
      || Matches(s, "credential_stuffing.v1", "credential_stuffing", 20, 8, 0)
    ensures |s.evidenceIDs| == s.metrics.eventCount >= 8 && Increasing(StrLess, s.evidenceIDs)
    ensures s.start != 0 && s.end != 0 && s.start <= s.end && s.health == "complete"
  {
    hide UUIDShaped, DigestShaped, CanonicalIPv4, Label, StrLess;
    assert ValidWindow(s);
    StrLessOrder();
    EvidenceIncreases(s.evidenceIDs);
  }

  lemma {:induction false} EvidenceIncreases(ids: seq<string>)
    requires forall i | 1 <= i < |ids| :: StrLess(ids[i - 1], ids[i])
    ensures Increasing(StrLess, ids)
  {
    hide StrLess;
    StrLessOrder();
    if ids != [] {
      var front := ids[..|ids| - 1];
      EvidenceIncreases(front);
      forall i | 0 <= i < |ids| - 1 ensures StrLess(ids[i], ids[|ids| - 1]) {
        assert i < |front| - 1 ==> StrLess(front[i], front[|front| - 1]);
        assert StrLess(ids[|ids| - 2], ids[|ids| - 1]);
      }
    }
  }

  // ---- order ----

  /** `sortSignals`: source, window start, window end, signal ID. */
  predicate SignalLess(a: Signal, b: Signal) {
    if a.source != b.source then StrLess(a.source, b.source)
    else if a.start != b.start then a.start < b.start
    else if a.end != b.end then a.end < b.end
    else StrLess(a.id, b.id)
  }

  lemma SignalLessOrder()
    ensures Transitive(SignalLess) && Irreflexive(SignalLess)
    ensures forall a: Signal, b: Signal {:trigger SignalLess(a, b)} ::
      a.id != b.id ==> SignalLess(a, b) || SignalLess(b, a)
  {
    StrLessOrder();
  }

  ghost predicate UniqueIDs(s: seq<Signal>) {
    forall i, j | 0 <= i < j < |s| :: s[i].id != s[j].id
  }

  /** Equal IDs carry equal signals: no two entries conflict. */
  ghost predicate Consistent(s: seq<Signal>) {
    forall i, j | 0 <= i < |s| && 0 <= j < |s| && s[i].id == s[j].id :: s[i] == s[j]
  }

  ghost predicate AllValid(s: seq<Signal>) { forall i | 0 <= i < |s| :: ValidSignal(s[i]) }

  /** The input `normalizeSignals` accepts. */
  ghost predicate Acceptable(s: seq<Signal>) { AllValid(s) && Consistent(s) }

  /** The same signals, each once, in sweep order. */
  ghost predicate NormalForm(values: seq<Signal>, n: seq<Signal>) {
    Increasing(SignalLess, n) && SameElements(n, values)
  }

  // ---- normalizeSignals as a function ----

  function Lookup(acc: seq<Signal>, id: string): (r: Option<Signal>)
    ensures r.Some? ==> r.value in acc && r.value.id == id
    ensures r.None? ==> forall s | s in acc :: s.id != id
  {
    if acc == [] then None
    else if acc[0].id == id then Some(acc[0])
    else Lookup(acc[1..], id)
  }

  function Collect(values: seq<Signal>, acc: seq<Signal>): (r: Result<seq<Signal>>)
    decreases values
  {
    if values == [] then Ok(acc)
    else if !ValidSignal(values[0]) then Err(InvalidInput)
    else match Lookup(acc, values[0].id)
      case Some(previous) =>
        if previous == values[0] then Collect(values[1..], acc) else Err(ConflictingSignal)
      case None => Collect(values[1..], acc + [values[0]])
  }

  function Normalize(values: seq<Signal>): (r: Result<seq<Signal>>) {
    match Collect(values, [])
    case Ok(kept) => Ok(Sort(SignalLess, kept))
    case Err(e) => Err(e)
  }

  /** What `Collect` has gathered so far: valid signals under distinct IDs. */
  ghost predicate Gathered(acc: seq<Signal>) { AllValid(acc) && UniqueIDs(acc) }

  lemma GatheredConsistent(acc: seq<Signal>)
    requires Gathered(acc)
    ensures Acceptable(acc)
  {
    forall i, j | 0 <= i < |acc| && 0 <= j < |acc| && acc[i].id == acc[j].id ensures acc[i] == acc[j] {
      assert i == j;
    }
  }

  lemma ConsistentMembers(s: seq<Signal>, a: Signal, b: Signal)
    requires Consistent(s) && a in s && b in s && a.id == b.id
    ensures a == b
  {
  }

  lemma ConsistentFromMembers(s: seq<Signal>)
    requires forall a, b | a in s && b in s && a.id == b.id :: a == b
    ensures Consistent(s)
  {
    forall i, j | 0 <= i < |s| && 0 <= j < |s| && s[i].id == s[j].id ensures s[i] == s[j] {
      assert s[i] in s && s[j] in s;
    }
  }

  lemma AcceptableSameElements(s: seq<Signal>, t: seq<Signal>)
    requires SameElements(s, t) && Acceptable(s)
    ensures Acceptable(t)
  {
    forall i | 0 <= i < |t| ensures ValidSignal(t[i]) {
      assert t[i] in t;
      assert t[i] in s;
    }
    forall a, b | a in t && b in t && a.id == b.id ensures a == b { ConsistentMembers(s, a, b); }
    ConsistentFromMembers(t);
  }

  /** `Collect` succeeds exactly on acceptable input and then keeps every signal once. */
  lemma {:induction false} CollectKeeps(values: seq<Signal>, acc: seq<Signal>)
    requires Gathered(acc)
    ensures Collect(values, acc).Ok? <==> Acceptable(acc + values)
    ensures Collect(values, acc).Ok? ==>
      Gathered(Collect(values, acc).value) && SameElements(Collect(values, acc).value, acc + values)
    decreases values
  {
    hide ValidSignal, Lookup;
    if values == [] {
      assert acc + values == acc;
      GatheredConsistent(acc);
    } else {
      var v, rest := values[0], values[1..];
      assert (acc + values)[|acc|] == v;
      assert v in acc + values;
      if ValidSignal(v) {
        match Lookup(acc, v.id)
        case None =>
          assert acc + values == (acc + [v]) + rest;
          CollectKeeps(rest, acc + [v]);
        case Some(previous) =>
          assert previous in acc + values;
          if previous == v {
            CollectKeeps(rest, acc);
            assert SameElements(acc + rest, acc + values);
            if Acceptable(acc + rest) { AcceptableSameElements(acc + rest, acc + values); }
            if Acceptable(acc + values) { AcceptableSameElements(acc + values, acc + rest); }
          } else {
            assert !Consistent(acc + values) by {
              if Consistent(acc + values) { ConsistentMembers(acc + values, previous, v); }
            }
          }
      }
    }
  }

  lemma UniqueIDsSortable(s: seq<Signal>)
    requires UniqueIDs(s)
    ensures Distinct(s) && TotalOn(SignalLess, s)
  {
    SignalLessOrder();
    forall i, j | 0 <= i < |s| && 0 <= j < |s| && s[i] != s[j]
      ensures SignalLess(s[i], s[j]) || SignalLess(s[j], s[i])
    {
      assert i < j || j < i;
    }
  }

  /** Normalisation accepts exactly the acceptable lists, and its result is the normal form. */
  lemma NormalizeSpec(values: seq<Signal>)
    ensures Normalize(values).Ok? <==> Acceptable(values)
    ensures Normalize(values).Ok? ==> NormalForm(values, Normalize(values).value)
  {
    assert [] + values == values;
    CollectKeeps(values, []);
    if Acceptable(values) {
      var kept := Collect(values, []).value;
      SignalLessOrder();
      UniqueIDsSortable(kept);
      SortIncreasing(SignalLess, kept);
    }
  }

  /** The normal form depends on the set of signals only: order and repetition are immaterial. */
  lemma NormalizeOrderFree(xs: seq<Signal>, ys: seq<Signal>)
    requires Acceptable(xs) && SameElements(xs, ys)
    ensures Normalize(ys).Ok? && Normalize(ys) == Normalize(xs)
  {
    AcceptableSameElements(xs, ys);
    NormalizeSpec(xs);
    NormalizeSpec(ys);
    SignalLessOrder();
    IncreasingUnique(SignalLess, Normalize(xs).value, Normalize(ys).value);
  }

  /** A valid list already in sweep order is its own normal form. */
  lemma NormalizeFixed(values: seq<Signal>)
    requires Acceptable(values) && Increasing(SignalLess, values)
    ensures Normalize(values) == Ok(values)
  {
    NormalizeSpec(values);
    SignalLessOrder();
    IncreasingUnique(SignalLess, Normalize(values).value, values);
  }

  // ---- normalizeSignals as the source runs it ----

  /** The map holds the gathered signals, each under its own ID. */
  ghost predicate Indexes(byID: map<string, Signal>, acc: seq<Signal>) {
    (forall id | id in byID :: byID[id].id == id && byID[id] in acc)
    && (forall s | s in acc :: s.id in byID && byID[s.id] == s)
  }

  lemma {:induction false} IndexFinds(byID: map<string, Signal>, acc: seq<Signal>, id: string)
    requires Indexes(byID, acc)
    ensures Lookup(acc, id) == if id in byID then Some(byID[id]) else None
  {
  }

  lemma {:induction false} IndexGrows(byID: map<string, Signal>, acc: seq<Signal>, v: Signal)
    requires Indexes(byID, acc) && UniqueIDs(acc) && v.id !in byID
    ensures Indexes(byID[v.id := v], acc + [v]) && UniqueIDs(acc + [v])
  {
    assert forall i | 0 <= i < |acc| :: acc[i] in acc;
  }

  method Gather(values: seq<Signal>) returns (r: Result<map<string, Signal>>)
    ensures r.Err? ==> Collect(values, []) == Err(r.error)
    ensures r.Ok? ==> Collect(values, []).Ok? && Gathered(Collect(values, []).value)
    ensures r.Ok? ==> Indexes(r.value, Collect(values, []).value)
  {
    hide ValidSignal, Lookup;
    var byID: map<string, Signal> := map[];
    ghost var acc: seq<Signal> := [];
    for k := 0 to |values|
      invariant Gathered(acc) && Indexes(byID, acc)
      invariant Collect(values, []) == Collect(values[k..], acc)
    {
      var value := values[k];
      assert values[k..][0] == value && values[k..][1..] == values[k + 1..];
      if !ValidSignal(value) {
        return Err(InvalidInput);
      }
      IndexFinds(byID, acc, value.id);
      if value.id in byID {
        if byID[value.id] != value {
          return Err(ConflictingSignal);
        }
      } else {
        IndexGrows(byID, acc, value);
        byID := byID[value.id := value];
        acc := acc + [value];
      }
    }
    return Ok(byID);
  }

  /** Reads a map out in whatever order it comes. */
  method Drain(byID: map<string, Signal>) returns (result: seq<Signal>)
    requires forall id | id in byID :: byID[id].id == id
    ensures UniqueIDs(result)
    ensures forall s :: s in result <==> s.id in byID && s == byID[s.id]
  {
    var rest := byID.Keys;
    result := [];
    while rest != {}
      invariant rest <= byID.Keys
      invariant forall s :: s in result <==> s.id in byID && s.id !in rest && s == byID[s.id]
      invariant UniqueIDs(result)
      decreases rest
    {
      var id :| id in rest;
      assert forall i | 0 <= i < |result| :: result[i] in result;
      result := result + [byID[id]];
      rest := rest - {id};
    }
  }

  /** The source gathers into a map keyed by ID, drains it in any order and sorts. */
  method NormalizeSignals(values: seq<Signal>) returns (r: Result<seq<Signal>>)
    ensures r == Normalize(values)
  {
    var gathered := Gather(values);
    if gathered.Err? {
      return Err(gathered.error);
    }
    var result := Drain(gathered.value);
    ghost var acc := Collect(values, []).value;
    SignalLessOrder();
    UniqueIDsSortable(acc);
    UniqueIDsSortable(result);
    SortIncreasing(SignalLess, acc);
    SortIncreasing(SignalLess, result);
    assert SameElements(result, acc);
    IncreasingUnique(SignalLess, Sort(SignalLess, result), Sort(SignalLess, acc));
    return Ok(Sort(SignalLess, result));
  }
}
