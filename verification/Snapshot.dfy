/** The minimized evidence snapshot of a group (`internal/correlation/snapshot.go`). */
module Snapshot {
  import opened Prelude
  import opened Order
  import opened Encoding
  import opened Signals
  import Json

  datatype SignalRef = SignalRef(
    id: string, rule: string, classification: string, configVersion: string, configDigest: string,
    start: int, end: int, eventCount: nat, distinctAccountCount: nat, distinctPathCount: nat,
    evidenceDigest: string, signalDigest: string)

  datatype Snapshot = Snapshot(
    source: string, start: int, end: int,
    services: seq<string>, signalIDs: seq<string>, evidenceIDs: seq<string>, refs: seq<SignalRef>)

  // ---- sortedUnique ----

  function Compact(s: seq<string>): (r: seq<string>) {
    if |s| <= 1 then s
    else if s[0] == s[1] then Compact(s[1..])
    else [s[0]] + Compact(s[1..])
  }

  function SortedUnique(values: seq<string>): (r: seq<string>) { Compact(Sort(StrLess, values)) }

  lemma {:induction false} CompactIncreasing(s: seq<string>)
    requires NonDecreasing(StrLess, s)
    ensures Increasing(StrLess, Compact(s)) && SameElements(Compact(s), s)
    ensures s != [] ==> Compact(s) != [] && Compact(s)[0] == s[0]
  {
    if |s| > 1 {
      StrLessOrder();
      CompactIncreasing(s[1..]);
      var rest := Compact(s[1..]);
      assert s == [s[0]] + s[1..];
      if s[0] != s[1] {
        forall j | 0 <= j < |rest| ensures StrLess(s[0], rest[j]) {
          assert StrLess(s[0], rest[0]);
        }
      }
    }
  }

  /** The result is the strictly increasing list of exactly the given strings. */
  lemma SortedUniqueSpec(values: seq<string>)
    ensures Increasing(StrLess, SortedUnique(values)) && SameElements(SortedUnique(values), values)
  {
    StrLessOrder();
    SortSorts(StrLess, values);
    SortKeepsElements(StrLess, values);
    CompactIncreasing(Sort(StrLess, values));
  }

  lemma {:induction false} CompactSnoc(s: seq<string>, v: string)
    ensures Compact(s + [v]) == if s != [] && s[|s| - 1] == v then Compact(s) else Compact(s) + [v]
    ensures s != [] ==> Compact(s) != [] && Compact(s)[|Compact(s)| - 1] == s[|s| - 1]
  {
    var all := s + [v];
    if |s| == 1 {
      assert all[1..] == [v] && s[1..] == [];
    } else if |s| > 1 {
      assert all[0] == s[0] && all[1] == s[1] && all[1..] == s[1..] + [v];
      CompactSnoc(s[1..], v);
    }
  }

  /** The in-place compaction of the source: one array, a read position and a write position. */
  method CompactInPlace(result: array<string>) returns (write: nat)
    modifies result
    ensures write <= result.Length && result[..write] == Compact(old(result[..]))
  {
    ghost var before := result[..];
    write := 0;
    for k := 0 to result.Length
      invariant write <= k
      invariant forall j | k <= j < result.Length :: result[j] == before[j]
      invariant result[..write] == Compact(before[..k])
    {
      var value := result[k];
      CompactSnoc(before[..k], value);
      assert before[..k + 1] == before[..k] + [value];
      if write > 0 && result[write - 1] == value {
        assert result[write - 1] == result[..write][write - 1];
        continue;
      }
      ghost var kept := result[..write];
      result[write] := value;
      write := write + 1;
      assert result[..write] == kept + [value];
    }
    assert before[..result.Length] == before;
  }

  method SortedUniqueList(values: seq<string>) returns (r: seq<string>)
    ensures r == SortedUnique(values)
  {
    var sorted := Sort(StrLess, values);
    var result := new string[|sorted|](i requires 0 <= i < |sorted| => sorted[i]);
    assert result[..] == sorted;
    var write := CompactInPlace(result);
    r := result[..write];
  }

  // ---- buildEvidenceSnapshot ----

  function RefOf(s: Signal): (r: SignalRef)
    requires ValidMetrics(s.metrics)
  {
    SignalRef(s.id, s.rule, s.classification, s.configVersion, s.configDigest, s.start, s.end,
              s.metrics.eventCount, s.metrics.distinctAccountCount, s.metrics.distinctPathCount,
              s.evidenceDigest, s.digest)
  }

  ghost predicate Countable(values: seq<Signal>) { forall i | 0 <= i < |values| :: ValidMetrics(values[i].metrics) }

  predicate RefLess(a: SignalRef, b: SignalRef) { StrLess(a.id, b.id) }

  function MinStart(values: seq<Signal>): (r: int)
    requires values != []
    ensures forall s | s in values :: r <= s.start
    ensures exists s | s in values :: s.start == r
  {
    if |values| == 1 then values[0].start
    else
      var m := MinStart(values[..|values| - 1]);
      var last := values[|values| - 1];
      assert values == values[..|values| - 1] + [last];
      if last.start < m then last.start else m
  }

  function MaxEnd(values: seq<Signal>): (r: int)
    requires values != []
    ensures forall s | s in values :: s.end <= r
    ensures exists s | s in values :: s.end == r
  {
    if |values| == 1 then values[0].end
    else
      var m := MaxEnd(values[..|values| - 1]);
      var last := values[|values| - 1];
      assert values == values[..|values| - 1] + [last];
      if last.end > m then last.end else m
  }

  function Services(values: seq<Signal>): (r: seq<string>) {
    seq(|values|, i requires 0 <= i < |values| => values[i].service)
  }

  function IDs(values: seq<Signal>): (r: seq<string>) { seq(|values|, i requires 0 <= i < |values| => values[i].id) }

  function Refs(values: seq<Signal>): (r: seq<SignalRef>)
    requires Countable(values)
  {
    seq(|values|, i requires 0 <= i < |values| => RefOf(values[i]))
  }

  function Evidence(values: seq<Signal>): (r: seq<string>) {
    if values == [] then [] else Evidence(values[..|values| - 1]) + values[|values| - 1].evidenceIDs
  }

  predicate OneSource(values: seq<Signal>) {
    forall i | 0 <= i < |values| :: values[i].source == values[0].source
  }

  /** The snapshot of normalized signals of one source. */
  function SnapshotOf(values: seq<Signal>): (r: Snapshot)
    requires values != [] && Countable(values)
  {
    Snapshot(values[0].source, MinStart(values), MaxEnd(values),
             SortedUnique(Services(values)), SortedUnique(IDs(values)), SortedUnique(Evidence(values)),
             Sort(RefLess, Refs(values)))
  }

  lemma NormalizedCountable(signals: seq<Signal>)
    requires Normalize(signals).Ok?
    ensures Countable(Normalize(signals).value) && (signals != [] ==> Normalize(signals).value != [])
  {
    NormalizeSpec(signals);
    var values := Normalize(signals).value;
    assert forall i | 0 <= i < |values| :: values[i] in values;
    assert signals != [] ==> signals[0] in signals;
  }

  function BuildSnapshot(signals: seq<Signal>): (r: Result<Snapshot>) {
    if signals == [] then Err(InvalidInput)
    else match Normalize(signals)
      case Err(e) => Err(e)
      case Ok(values) =>
        NormalizedCountable(signals);
        if OneSource(values) then Ok(SnapshotOf(values)) else Err(InvalidInput)
  }

  datatype Tally = Tally(
    start: int, end: int, services: seq<string>, ids: seq<string>, evidence: seq<string>, refs: seq<SignalRef>)

  ghost predicate Tallies(t: Tally, values: seq<Signal>) {
    values != [] && Countable(values)
    && t.start == MinStart(values) && t.end == MaxEnd(values)
    && t.services == Services(values) && t.ids == IDs(values)
    && t.evidence == Evidence(values) && t.refs == Refs(values)
  }

  function Add(t: Tally, s: Signal): (r: Tally)
    requires ValidMetrics(s.metrics)
  {
    Tally(if s.start < t.start then s.start else t.start, if s.end > t.end then s.end else t.end,
          t.services + [s.service], t.ids + [s.id], t.evidence + s.evidenceIDs, t.refs + [RefOf(s)])
  }

  function One(s: Signal): (r: Tally)
    requires ValidMetrics(s.metrics)
  {
    Tally(s.start, s.end, [s.service], [s.id], s.evidenceIDs, [RefOf(s)])
  }

  lemma {:induction false} TallyOne(s: Signal)
    requires ValidMetrics(s.metrics)
    ensures Tallies(One(s), [s])
  {
    assert Evidence([s]) == Evidence([]) + s.evidenceIDs;
  }

  lemma {:induction false} TallyGrows(t: Tally, values: seq<Signal>, s: Signal)
    requires Tallies(t, values) && ValidMetrics(s.metrics)
    ensures Tallies(Add(t, s), values + [s])
  {
    var all := values + [s];
    assert all[..|values|] == values && all[|values|] == s;
    assert Services(all) == Services(values) + [s.service] && IDs(all) == IDs(values) + [s.id];
    assert Refs(all) == Refs(values) + [RefOf(s)];
  }

  /** The loop of the source: window bounds and lists grow together, signal by signal. */
  method Accumulate(values: seq<Signal>) returns (r: Option<Tally>)
    requires values != [] && Countable(values)
    ensures r.Some? <==> OneSource(values)
    ensures r.Some? ==> Tallies(r.value, values)
  {
    hide Tallies, MinStart, MaxEnd, Add, One;
    var first := values[0];
    var t := One(first);
    TallyOne(first);
    assert values[..1] == [first];
    for k := 1 to |values|
      invariant forall i | 0 <= i < k :: values[i].source == first.source
      invariant Tallies(t, values[..k])
    {
      if values[k].source != first.source {
        return None;
      }
      TallyGrows(t, values[..k], values[k]);
      assert values[..k + 1] == values[..k] + [values[k]];
      t := Add(t, values[k]);
    }
    assert values[..|values|] == values;
    return Some(t);
  }

  method BuildEvidenceSnapshot(signals: seq<Signal>) returns (r: Result<Snapshot>)
    ensures r == BuildSnapshot(signals)
  {
    if signals == [] {
      return Err(InvalidInput);
    }
    var normalized := NormalizeSignals(signals);
    if normalized.Err? {
      return Err(normalized.error);
    }
    NormalizedCountable(signals);
    var tally := Accumulate(normalized.value);
    if tally.None? {
      return Err(InvalidInput);
    }
    var services := SortedUniqueList(tally.value.services);
    var ids := SortedUniqueList(tally.value.ids);
    var evidence := SortedUniqueList(tally.value.evidence);
    return Ok(Snapshot(normalized.value[0].source, tally.value.start, tally.value.end,
                       services, ids, evidence, Sort(RefLess, tally.value.refs)));
  }

  /** The snapshot is a function of the set of signals. */
  lemma SnapshotOrderFree(xs: seq<Signal>, ys: seq<Signal>)
    requires Acceptable(xs) && SameElements(xs, ys)
    ensures BuildSnapshot(xs) == BuildSnapshot(ys)
  {
    NormalizeOrderFree(xs, ys);
    assert xs != [] ==> xs[0] in xs;
    assert ys != [] ==> ys[0] in ys;
  }

  /** On acceptable signals the only failures are the empty list and mixed sources. */
  lemma SnapshotSucceeds(signals: seq<Signal>)
    requires Acceptable(signals) && signals != [] && OneSource(signals)
    ensures BuildSnapshot(signals).Ok?
    ensures BuildSnapshot(signals).value.source == signals[0].source
    ensures forall s | s in signals ::
      BuildSnapshot(signals).value.start <= s.start && s.end <= BuildSnapshot(signals).value.end
    ensures exists s | s in signals :: s.end == BuildSnapshot(signals).value.end
    ensures exists s | s in signals :: s.start == BuildSnapshot(signals).value.start
  {
    NormalizeSpec(signals);
    NormalizedCountable(signals);
    var values := Normalize(signals).value;
    forall i | 0 <= i < |values| ensures values[i] in signals { assert values[i] in values; }
    assert OneSource(values);
  }

  // ---- what the snapshot lists ----

  ghost predicate IsEvidence(signals: seq<Signal>, e: string) { exists s :: s in signals && e in s.evidenceIDs }

  ghost predicate IsService(signals: seq<Signal>, e: string) { exists s :: s in signals && s.service == e }

  ghost predicate IsSignalID(signals: seq<Signal>, e: string) { exists s :: s in signals && s.id == e }

  /** The reference repeats the signal it stands for, field by field. */
  ghost predicate Describes(r: SignalRef, s: Signal) {
    && r.id == s.id && r.rule == s.rule && r.classification == s.classification
    && r.configVersion == s.configVersion && r.configDigest == s.configDigest
    && r.start == s.start && r.end == s.end
    && r.eventCount == s.metrics.eventCount && r.distinctAccountCount == s.metrics.distinctAccountCount
    && r.distinctPathCount == s.metrics.distinctPathCount
    && r.evidenceDigest == s.evidenceDigest && r.signalDigest == s.digest
  }

  lemma {:induction false} EvidenceHas(values: seq<Signal>, e: string)
    ensures e in Evidence(values) <==> IsEvidence(values, e)
  {
    if values != [] {
      var front, last := values[..|values| - 1], values[|values| - 1];
      assert values == front + [last];
      EvidenceHas(front, e);
      if IsEvidence(values, e) {
        var s :| s in values && e in s.evidenceIDs;
        assert s == last || s in front;
      }
      if IsEvidence(front, e) {
        var s :| s in front && e in s.evidenceIDs;
        assert s in values;
      }
    }
  }

  lemma ServicesHave(values: seq<Signal>, e: string)
    ensures e in Services(values) <==> IsService(values, e)
  {
    if e in Services(values) {
      var i :| 0 <= i < |values| && Services(values)[i] == e;
      assert values[i] in values;
    }
    if IsService(values, e) {
      var s :| s in values && s.service == e;
      var i :| 0 <= i < |values| && values[i] == s;
      assert Services(values)[i] == e;
    }
  }

  lemma IDsHave(values: seq<Signal>, e: string)
    ensures e in IDs(values) <==> IsSignalID(values, e)
  {
    if e in IDs(values) {
      var i :| 0 <= i < |values| && IDs(values)[i] == e;
      assert values[i] in values;
    }
    if IsSignalID(values, e) {
      var s :| s in values && s.id == e;
      var i :| 0 <= i < |values| && values[i] == s;
      assert IDs(values)[i] == e;
    }
  }

  lemma SameListed(xs: seq<Signal>, ys: seq<Signal>, e: string)
    requires SameElements(xs, ys)
    ensures IsEvidence(xs, e) == IsEvidence(ys, e) && IsService(xs, e) == IsService(ys, e)
    ensures IsSignalID(xs, e) == IsSignalID(ys, e)
  {
  }

  /** The snapshot lists, in strict order, exactly the evidence, the services and the identifiers of its signals. */
  lemma SnapshotLists(signals: seq<Signal>, e: string)
    requires Acceptable(signals) && signals != [] && OneSource(signals)
    ensures BuildSnapshot(signals).Ok?
    ensures var x := BuildSnapshot(signals).value;
      && Increasing(StrLess, x.evidenceIDs) && Increasing(StrLess, x.services) && Increasing(StrLess, x.signalIDs)
      && (e in x.evidenceIDs <==> IsEvidence(signals, e))
      && (e in x.services <==> IsService(signals, e))
      && (e in x.signalIDs <==> IsSignalID(signals, e))
  {
    hide Evidence, Services, IDs, Refs, MinStart, MaxEnd, SortedUnique, Sort, StrLess, ValidSignal, SignalLess;
    SnapshotSucceeds(signals);
    NormalizeSpec(signals);
    var values := Normalize(signals).value;
    SortedUniqueSpec(Evidence(values));
    SortedUniqueSpec(Services(values));
    SortedUniqueSpec(IDs(values));
    EvidenceHas(values, e);
    ServicesHave(values, e);
    IDsHave(values, e);
    SameListed(values, signals, e);
  }

  ghost predicate HasRef(refs: seq<SignalRef>, s: Signal) { exists r :: r in refs && Describes(r, s) }

  ghost predicate StandsFor(signals: seq<Signal>, r: SignalRef) { exists s :: s in signals && Describes(r, s) }

  /** It holds one reference for each signal and no other, in strict order of their identifiers. */
  lemma SnapshotRefs(signals: seq<Signal>)
    requires Acceptable(signals) && signals != [] && OneSource(signals)
    ensures BuildSnapshot(signals).Ok?
    ensures var refs := BuildSnapshot(signals).value.refs;
      && (forall i, j | 0 <= i < j < |refs| :: StrLess(refs[i].id, refs[j].id))
      && (forall s | s in signals :: HasRef(refs, s))
      && (forall r | r in refs :: StandsFor(signals, r))
  {
    hide Evidence, Services, IDs, MinStart, MaxEnd, SortedUnique, StrLess, ValidSignal, SignalLess, Refs, Sort, HasRef,
      Describes, Countable;
    SnapshotSucceeds(signals);
    NormalizeSpec(signals);
    NormalizedCountable(signals);
    var values := Normalize(signals).value;
    NormalConsistent(signals, values);
    SortedRefs(values);
    forall r | StandsFor(values, r) ensures StandsFor(signals, r) {
      var s :| s in values && Describes(r, s);
      assert s in signals;
    }
  }

  lemma NormalConsistent(signals: seq<Signal>, values: seq<Signal>)
    requires Acceptable(signals) && NormalForm(signals, values)
    ensures Consistent(values)
  {
    hide ValidSignal, SignalLess;
    AcceptableSameElements(signals, values);
  }

  lemma SortedRefs(values: seq<Signal>)
    requires Countable(values) && Increasing(SignalLess, values) && Consistent(values)
    ensures var refs := Sort(RefLess, Refs(values));
      && (forall i, j | 0 <= i < j < |refs| :: StrLess(refs[i].id, refs[j].id))
      && (forall s | s in values :: HasRef(refs, s))
      && (forall r | r in refs :: StandsFor(values, r))
  {
    hide StrLess, SignalLess, Sort;
    var refs, sorted := Refs(values), Sort(RefLess, Refs(values));
    RefsSortable(values);
    SortIncreasing(RefLess, refs);
    forall i, j | 0 <= i < j < |sorted| ensures StrLess(sorted[i].id, sorted[j].id) {
      assert RefLess(sorted[i], sorted[j]);
    }
    forall s | s in values ensures HasRef(sorted, s) {
      var k :| 0 <= k < |values| && values[k] == s;
      assert refs[k] in refs;
      assert refs[k] in sorted && Describes(refs[k], s);
    }
    forall r | r in sorted ensures StandsFor(values, r) {
      assert r in refs;
      var k :| 0 <= k < |refs| && refs[k] == r;
      assert values[k] in values && Describes(r, values[k]);
    }
  }

  lemma RefsSortable(values: seq<Signal>)
    requires Countable(values) && Increasing(SignalLess, values) && Consistent(values)
    ensures Transitive(RefLess) && Irreflexive(RefLess)
    ensures Distinct(Refs(values)) && TotalOn(RefLess, Refs(values))
  {
    hide StrLess;
    StrLessOrder();
    SignalLessOrder();
    var refs := Refs(values);
    forall i, j | 0 <= i < j < |values| ensures values[i].id != values[j].id {
      assert SignalLess(values[i], values[j]) && !SignalLess(values[i], values[i]);
    }
    forall i, j | 0 <= i < |refs| && 0 <= j < |refs| && refs[i] != refs[j]
      ensures RefLess(refs[i], refs[j]) || RefLess(refs[j], refs[i])
    {
      assert i < j || j < i;
    }
  }

  // ---- marshalSnapshotJCS ----

  function Texts(xs: seq<string>): (v: Json.Value) {
    Json.Arr(seq(|xs|, i requires 0 <= i < |xs| => Json.Str(xs[i])))
  }

  function RefTree(r: SignalRef): (v: Json.Value) { Json.Obj(RefMembers(r)) }

  function RefMembers(r: SignalRef): (members: seq<Json.Member>)
    ensures |members| == 12
  {
    [
      Json.Member("classification", Json.Str(r.classification)),
      Json.Member("configuration_digest", Json.Str(r.configDigest)),
      Json.Member("configuration_version", Json.Str(r.configVersion)),
      Json.Member("distinct_account_count", Json.Num(r.distinctAccountCount)),
      Json.Member("distinct_suspicious_path_count", Json.Num(r.distinctPathCount)),
      Json.Member("event_count", Json.Num(r.eventCount)),
      Json.Member("evidence_digest", Json.Str(r.evidenceDigest)),
      Json.Member("rule_id", Json.Str(r.rule)),
      Json.Member("signal_digest", Json.Str(r.signalDigest)),
      Json.Member("signal_id", Json.Str(r.id)),
      Json.Member("window_end", Json.Str(FormatTime(r.end))),
      Json.Member("window_start", Json.Str(FormatTime(r.start)))]
  }

  function RefItems(refs: seq<SignalRef>): (items: seq<Json.Value>) {
    seq(|refs|, i requires 0 <= i < |refs| => RefTree(refs[i]))
  }

  function Tree(s: Snapshot): (v: Json.Value) { Json.Obj(SnapshotMembers(s)) }

  function SnapshotMembers(s: Snapshot): (members: seq<Json.Member>)
    ensures |members| == 9
  {
    [
      Json.Member("evidence_event_ids", Texts(s.evidenceIDs)),
      Json.Member("schema_version", Json.Str("correlation-evidence-v1")),
      Json.Member("service_labels", Texts(s.services)),
      Json.Member("signal_ids", Texts(s.signalIDs)),
      Json.Member("signal_refs", Json.Arr(RefItems(s.refs))),
      Json.Member("source_health_status", Json.Str("complete")),
      Json.Member("source_ip", Json.Str(s.source)),
      Json.Member("window_end", Json.Str(FormatTime(s.end))),
      Json.Member("window_start", Json.Str(FormatTime(s.start)))]
  }

  /** The canonical bytes. SHA-256 is taken as one-to-one, so they also stand for the digest. */
  function Canonical(s: Snapshot): (r: string) { Json.Print(Tree(s)) }

  lemma TextsInjective(xs: seq<string>, ys: seq<string>)
    requires Texts(xs) == Texts(ys)
    ensures xs == ys
  {
    assert |Texts(xs).items| == |xs| && |Texts(ys).items| == |ys|;
    forall i | 0 <= i < |xs| ensures xs[i] == ys[i] {
      assert Texts(xs).items[i] == Json.Str(xs[i]) && Texts(ys).items[i] == Json.Str(ys[i]);
    }
  }

  lemma RefTreeInjective(a: SignalRef, b: SignalRef)
    requires RefTree(a) == RefTree(b)
    ensures a == b
  {
    hide FormatTime;
    var x, y := RefTree(a).members, RefTree(b).members;
    assert x[0] == y[0] && x[1] == y[1] && x[2] == y[2] && x[3] == y[3];
    assert x[4] == y[4] && x[5] == y[5] && x[6] == y[6] && x[7] == y[7];
    assert x[8] == y[8] && x[9] == y[9] && x[10] == y[10] && x[11] == y[11];
    FormatTimeInjective(a.end, b.end);
    FormatTimeInjective(a.start, b.start);
  }

  lemma TreeInjective(a: Snapshot, b: Snapshot)
    requires Tree(a) == Tree(b)
    ensures a == b
  {
    hide FormatTime, RefTree, Texts;
    var x, y := Tree(a).members, Tree(b).members;
    assert x[0].value == y[0].value && x[2].value == y[2].value && x[3].value == y[3].value;
    TextsInjective(a.evidenceIDs, b.evidenceIDs);
    TextsInjective(a.services, b.services);
    TextsInjective(a.signalIDs, b.signalIDs);
    assert x[4].value == y[4].value && x[6].value == y[6].value;
    assert x[7].value == y[7].value && x[8].value == y[8].value;
    FormatTimeInjective(a.end, b.end);
    FormatTimeInjective(a.start, b.start);
    assert |x[4].value.items| == |a.refs| && |y[4].value.items| == |b.refs|;
    forall i | 0 <= i < |a.refs| ensures a.refs[i] == b.refs[i] {
      assert x[4].value.items[i] == RefTree(a.refs[i]) && y[4].value.items[i] == RefTree(b.refs[i]);
      RefTreeInjective(a.refs[i], b.refs[i]);
    }
  }

  /** Canonical bytes determine the whole snapshot. */
  lemma CanonicalInjective(a: Snapshot, b: Snapshot)
    requires Canonical(a) == Canonical(b)
    ensures a == b
  {
    Json.PrintInjective(Tree(a), Tree(b));
    TreeInjective(a, b);
  }
}
