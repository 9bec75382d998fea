/** The one-pass sweep of `internal/correlation/correlate.go`, proved against the graph it stands for. */
module Correlate {
  import opened Prelude
  import opened Order
  import opened Signals
  import opened Components
  import opened Relations
  import opened Snapshot

  datatype Group = Group(
    source: string, start: int, end: int, snapshot: Snapshot, signals: seq<Signal>, relations: seq<Relation>)

  function BuildGroup(signals: seq<Signal>): (r: Result<Group>) {
    match BuildSnapshot(signals)
    case Err(e) => Err(e)
    case Ok(snapshot) =>
      var values := Sort(SignalLess, signals);
      Ok(Group(snapshot.source, snapshot.start, snapshot.end, snapshot, values, BuildRelations(values)))
  }

  method MakeGroup(signals: seq<Signal>) returns (r: Result<Group>)
    ensures r == BuildGroup(signals)
  {
    var snapshot := BuildEvidenceSnapshot(signals);
    if snapshot.Err? {
      return Err(snapshot.error);
    }
    var values := Sort(SignalLess, signals);
    var relations := BuildRelationList(values);
    var s := snapshot.value;
    return Ok(Group(s.source, s.start, s.end, s, values, relations));
  }

  /** The final sort: source, window start, then the snapshot digest as the tie-break. */
  predicate GroupLess(a: Group, b: Group) {
    if a.source != b.source then StrLess(a.source, b.source)
    else if a.start != b.start then a.start < b.start
    else StrLess(Canonical(a.snapshot), Canonical(b.snapshot))
  }

  /** The same order without its tie-break. */
  predicate GroupBefore(a: Group, b: Group) {
    StrLess(a.source, b.source) || (a.source == b.source && a.start < b.start)
  }

  lemma GroupOrders()
    ensures Transitive(GroupLess) && Irreflexive(GroupLess)
    ensures Transitive(GroupBefore) && Irreflexive(GroupBefore)
    ensures forall a, b | GroupBefore(a, b) :: GroupLess(a, b)
  {
    StrLessOrder();
  }

  ghost function Parts(groups: seq<Group>): (r: seq<seq<Signal>>) {
    seq(|groups|, k requires 0 <= k < |groups| => groups[k].signals)
  }

  /** The meaning of a correlation: its groups are the connected components of the signals, each
      group is built from its own signals in sweep order, and the groups are ordered strictly by
      source and window start. */
  ghost predicate IsCorrelation(signals: seq<Signal>, groups: seq<Group>) {
    AreComponents(Elements(signals), Parts(groups))
    && (forall k | 0 <= k < |groups| ::
          Increasing(SignalLess, groups[k].signals) && BuildGroup(groups[k].signals) == Ok(groups[k]))
    && Increasing(GroupBefore, groups)
  }

  // ---- segments of the sweep ----

  /** No later signal can be joined to an earlier one: another source, or too late to reach. */
  ghost predicate Apart(x: Signal, y: Signal) {
    StrLess(x.source, y.source) || (x.source == y.source && x.end + MAXIMUM_SIGNAL_GAP < y.start)
  }

  ghost predicate AllApart(xs: seq<Signal>, ys: seq<Signal>) { forall x, y | x in xs && y in ys :: Apart(x, y) }

  lemma ApartUnjoined(x: Signal, y: Signal)
    requires Apart(x, y) && ValidWindow(x) && ValidWindow(y)
    ensures x != y && !Edge(x, y) && !Edge(y, x)
  {
    StrLessIrreflexive(x.source);
  }

  /** Some earlier signal ended at most five minutes before this one starts. */
  ghost predicate Reached(c: seq<Signal>, t: nat)
    requires t < |c|
  {
    exists i | 0 <= i < t :: c[t].start <= c[i].end + MAXIMUM_SIGNAL_GAP
  }

  /** A run of the sweep: one source, and every signal after the first is reached by an earlier one. */
  ghost predicate Segment(c: seq<Signal>) {
    c != [] && Increasing(SignalLess, c) && OneSource(c) && Windows(c)
    && forall t | 1 <= t < |c| :: Reached(c, t)
  }

  lemma ReachedPrefix(c: seq<Signal>, d: seq<Signal>, t: nat)
    requires t < |c| <= |d| && c == d[..|c|]
    ensures Reached(c, t) <==> Reached(d, t)
  {
    assert forall i | 0 <= i <= t :: c[i] == d[i];
  }

  lemma SegmentGrows(c: seq<Signal>, s: Signal, i: nat)
    requires Segment(c) && Increasing(SignalLess, c + [s]) && ValidWindow(s)
    requires i < |c| && s.source == c[0].source && s.start <= c[i].end + MAXIMUM_SIGNAL_GAP
    ensures Segment(c + [s])
  {
    var d := c + [s];
    assert d[..|c|] == c;
    forall t | 1 <= t < |d| ensures Reached(d, t) {
      if t < |c| { ReachedPrefix(c, d, t); } else { assert d[i] == c[i]; }
    }
  }

  lemma SegmentPrefix(c: seq<Signal>, n: nat)
    requires Segment(c) && 1 <= n <= |c|
    ensures Segment(c[..n])
  {
    forall t | 1 <= t < n ensures Reached(c[..n], t) { ReachedPrefix(c[..n], c, t); }
  }

  lemma ReachedJoined(c: seq<Signal>, t: nat) returns (i: nat)
    requires Segment(c) && 1 <= t < |c|
    ensures i < t && Edge(c[i], c[t])
  {
    assert Reached(c, t);
    i :| 0 <= i < t && c[t].start <= c[i].end + MAXIMUM_SIGNAL_GAP;
    assert SignalLess(c[i], c[t]) && c[i] in c && c[t] in c;
    assert c[i].source == c[t].source;
  }

  /** Every segment is connected. */
  lemma {:induction false} SegmentConnected(c: seq<Signal>)
    requires Segment(c)
    ensures Connected(Elements(c))
    decreases |c|
  {
    var n := |c| - 1;
    if n == 0 {
      assert Elements(c) == {c[0]};
      LinkedSelf(Elements(c), c[0]);
    } else {
      SegmentPrefix(c, n);
      SegmentConnected(c[..n]);
      var i := ReachedJoined(c, n);
      assert c == c[..n] + [c[n]];
      assert Elements(c) == Elements(c[..n]) + {c[n]};
      assert c[i] in c[..n];
      ConnectedGrows(Elements(c[..n]), c[i], c[n]);
    }
  }

  lemma BehindCut(x: Signal, r: Signal, y: Signal)
    requires SignalLess(x, r) && (r == y || SignalLess(r, y))
    requires r.source != x.source || x.end + MAXIMUM_SIGNAL_GAP < r.start
    ensures Apart(x, y)
  {
    if x.source != r.source && r.source != y.source { StrLessTransitive(x.source, r.source, y.source); }
  }

  /** Where the sweep cuts, nothing behind the cut can reach anything ahead of it. */
  lemma CutSeparates(c: seq<Signal>, rest: seq<Signal>)
    requires rest != [] && Increasing(SignalLess, c + rest)
    requires forall x | x in c :: rest[0].source != x.source || x.end + MAXIMUM_SIGNAL_GAP < rest[0].start
    ensures AllApart(c, rest)
  {
    var all := c + rest;
    forall x, y | x in c && y in rest ensures Apart(x, y) {
      var i :| 0 <= i < |c| && c[i] == x;
      var j :| 0 <= j < |rest| && rest[j] == y;
      assert all[i] == x && all[|c|] == rest[0] && all[|c| + j] == y;
      BehindCut(x, rest[0], y);
    }
  }

  // ---- from segments to components ----

  /** Finished segments, pairwise apart. */
  ghost predicate Segmented(parts: seq<seq<Signal>>) {
    (forall k | 0 <= k < |parts| :: Segment(parts[k]))
    && (forall i, j | 0 <= i < j < |parts| :: AllApart(parts[i], parts[j]))
  }

  ghost predicate Covered(parts: seq<seq<Signal>>, values: seq<Signal>) {
    (forall k, x | 0 <= k < |parts| && x in parts[k] :: x in values)
    && (forall x | x in values :: exists k :: 0 <= k < |parts| && x in parts[k])
  }

  lemma PartsUnjoined(parts: seq<seq<Signal>>, i: nat, j: nat, x: Signal, y: Signal)
    requires Segmented(parts) && i < |parts| && j < |parts| && i != j && x in parts[i] && y in parts[j]
    ensures x != y && !Edge(x, y)
  {
    assert Segment(parts[i]) && Segment(parts[j]);
    if i < j {
      assert AllApart(parts[i], parts[j]);
      ApartUnjoined(x, y);
    } else {
      assert AllApart(parts[j], parts[i]);
      ApartUnjoined(y, x);
    }
  }

  lemma PartClosed(values: seq<Signal>, parts: seq<seq<Signal>>, i: nat)
    requires Segmented(parts) && Covered(parts, values) && i < |parts|
    ensures Closed(Elements(values), Elements(parts[i]))
  {
    forall x, y | x in Elements(parts[i]) && y in Elements(values) && Edge(x, y) ensures y in Elements(parts[i]) {
      var j :| 0 <= j < |parts| && y in parts[j];
      if i != j { PartsUnjoined(parts, i, j, x, y); }
    }
  }

  /** Segments that are pairwise apart are exactly the connected components. */
  lemma SegmentsAreComponents(values: seq<Signal>, parts: seq<seq<Signal>>)
    requires Segmented(parts) && Covered(parts, values)
    ensures AreComponents(Elements(values), parts)
  {
    var nodes := Elements(values);
    forall i, j, x, y | 0 <= i < |parts| && 0 <= j < |parts| && x in parts[i] && y in parts[j]
      ensures Linked(nodes, x, y) <==> i == j
    {
      assert Segment(parts[i]);
      if i == j {
        SegmentConnected(parts[i]);
        LinkedMonotone(Elements(parts[i]), nodes, x, y);
      } else {
        PartClosed(values, parts, i);
        NotShared(parts, i, j, y);
        if Linked(nodes, x, y) { LinkedStays(nodes, Elements(parts[i]), x, y); }
      }
    }
    assert forall k | 0 <= k < |parts| :: Segment(parts[k]);
  }

  lemma NotShared(parts: seq<seq<Signal>>, i: nat, j: nat, y: Signal)
    requires Segmented(parts) && i < |parts| && j < |parts| && i != j && y in parts[j]
    ensures y !in parts[i]
  {
    if y in parts[i] { PartsUnjoined(parts, i, j, y, y); }
  }

  // ---- the sweep itself ----

  lemma AcceptableSubset(c: seq<Signal>, values: seq<Signal>)
    requires Acceptable(values) && forall x | x in c :: x in values
    ensures Acceptable(c)
  {
    forall i | 0 <= i < |c| ensures ValidSignal(c[i]) { assert c[i] in c; }
    forall a, b | a in c && b in c && a.id == b.id ensures a == b { ConsistentMembers(values, a, b); }
    ConsistentFromMembers(c);
  }

  lemma SegmentGroup(c: seq<Signal>)
    requires Segment(c) && Acceptable(c)
    ensures BuildGroup(c).Ok?
    ensures BuildGroup(c).value.signals == c
    ensures BuildGroup(c).value.source == c[0].source && BuildGroup(c).value.start == c[0].start
    ensures exists s | s in c :: s.end == BuildGroup(c).value.end
  {
    SnapshotSucceeds(c);
    SignalLessOrder();
    SortFixed(SignalLess, c);
    var snapshot := BuildSnapshot(c).value;
    var s :| s in c && s.start == snapshot.start;
    var i :| 0 <= i < |c| && c[i] == s;
    assert i == 0 || SignalLess(c[0], c[i]);
    assert c[0] in c;
  }

  /** The segments finished so far: they cover the signals before `lo` and are apart from the rest. */
  ghost predicate Swept(values: seq<Signal>, lo: nat, parts: seq<seq<Signal>>) {
    lo <= |values| && Segmented(parts) && Covered(parts, values[..lo])
    && (forall k | 0 <= k < |parts| :: AllApart(parts[k], values[lo..]))
  }

  /** The latest end in a component. */
  ghost predicate Latest(c: seq<Signal>, end: int) {
    (forall x | x in c :: x.end <= end) && (exists x | x in c :: x.end == end)
  }

  lemma SliceIncreasing(values: seq<Signal>, lo: nat, hi: nat)
    requires lo <= hi <= |values| && Increasing(SignalLess, values)
    ensures Increasing(SignalLess, values[lo..hi])
  {
  }

  lemma ApartFromSlices(xs: seq<Signal>, values: seq<Signal>, lo: nat, k: nat)
    requires lo <= k <= |values| && AllApart(xs, values[lo..])
    ensures AllApart(xs, values[lo..k]) && AllApart(xs, values[k..])
  {
    assert values[lo..] == values[lo..k] + values[k..];
  }

  lemma CutCovers(values: seq<Signal>, lo: nat, k: nat, parts: seq<seq<Signal>>)
    requires lo <= k <= |values| && Covered(parts, values[..lo])
    ensures Covered(parts + [values[lo..k]], values[..k])
  {
    var c := values[lo..k];
    var all := parts + [c];
    assert values[..k] == values[..lo] + c;
    assert all[|parts|] == c;
    forall x | x in values[..k] ensures exists g :: 0 <= g < |all| && x in all[g] {
      if x in values[..lo] {
        var g :| 0 <= g < |parts| && x in parts[g];
        assert x in all[g];
      }
    }
  }

  lemma SegmentedSnoc(parts: seq<seq<Signal>>, c: seq<Signal>)
    requires Segmented(parts) && Segment(c)
    requires forall g | 0 <= g < |parts| :: AllApart(parts[g], c)
    ensures Segmented(parts + [c])
  {
  }

  /** Closing a segment extends the swept prefix up to the cut. */
  lemma CutStep(values: seq<Signal>, lo: nat, k: nat, parts: seq<seq<Signal>>)
    requires Swept(values, lo, parts) && lo <= k <= |values|
    requires Segment(values[lo..k]) && AllApart(values[lo..k], values[k..])
    ensures Swept(values, k, parts + [values[lo..k]])
  {
    forall g | 0 <= g < |parts|
      ensures AllApart(parts[g], values[lo..k]) && AllApart(parts[g], values[k..])
    {
      ApartFromSlices(parts[g], values, lo, k);
    }
    CutCovers(values, lo, k, parts);
    SegmentedSnoc(parts, values[lo..k]);
  }

  lemma LatestGrows(c: seq<Signal>, end: int, s: Signal)
    requires Latest(c, end)
    ensures Latest(c + [s], if s.end > end then s.end else end)
  {
    var x :| x in c && x.end == end;
    assert x in c + [s] && s in c + [s];
  }

  lemma SliceSnoc(values: seq<Signal>, lo: nat, k: nat)
    requires lo <= k < |values|
    ensures values[lo..k + 1] == values[lo..k] + [values[k]]
  {
  }

  lemma PartsSnoc(groups: seq<Group>, g: Group)
    ensures Parts(groups + [g]) == Parts(groups) + [g.signals]
  {
  }

  ghost predicate AllBuilt(groups: seq<Group>) {
    forall g | 0 <= g < |groups| :: BuildGroup(groups[g].signals) == Ok(groups[g])
  }

  /** The component being collected is a segment that ends where the sweep stands. */
  ghost predicate Running(values: seq<Signal>, lo: nat, k: nat, c: seq<Signal>, end: int) {
    lo < k <= |values| && c == values[lo..k] && Segment(c) && Latest(c, end)
  }

  /** The finished groups: built from segments that cover the signals before `lo` and are apart from the rest. */
  ghost predicate Finished(values: seq<Signal>, lo: nat, groups: seq<Group>) {
    Swept(values, lo, Parts(groups)) && AllBuilt(groups)
  }

  lemma FinishedGrows(values: seq<Signal>, lo: nat, k: nat, groups: seq<Group>, c: seq<Signal>, g: Group)
    requires Finished(values, lo, groups) && lo <= k <= |values| && c == values[lo..k]
    requires Segment(c) && AllApart(c, values[k..])
    requires BuildGroup(c) == Ok(g) && g.signals == c
    ensures Finished(values, k, groups + [g])
  {
    CutStep(values, lo, k, Parts(groups));
    PartsSnoc(groups, g);
  }

  lemma RunStarts(values: seq<Signal>, k: nat)
    requires k < |values| && ValidWindow(values[k])
    ensures Running(values, k, k + 1, [values[k]], values[k].end)
  {
    assert values[k..k + 1] == [values[k]];
  }

  /** Within five minutes of the latest end, the signal joins the running segment. */
  lemma RunGrows(values: seq<Signal>, lo: nat, k: nat, c: seq<Signal>, end: int)
    requires Running(values, lo, k, c, end) && k < |values|
    requires Increasing(SignalLess, values) && ValidWindow(values[k])
    requires values[k].source == c[|c| - 1].source && values[k].start <= end + MAXIMUM_SIGNAL_GAP
    ensures Running(values, lo, k + 1, c + [values[k]], if values[k].end > end then values[k].end else end)
  {
    var s := values[k];
    SliceSnoc(values, lo, k);
    SliceIncreasing(values, lo, k + 1);
    var x :| x in c && x.end == end;
    var i :| 0 <= i < |c| && c[i] == x;
    SegmentGrows(c, s, i);
    LatestGrows(c, end, s);
  }

  /** Otherwise the running segment is complete: nothing ahead can reach it. */
  lemma CutApart(values: seq<Signal>, lo: nat, k: nat, c: seq<Signal>, end: int)
    requires Running(values, lo, k, c, end) && k < |values| && Increasing(SignalLess, values)
    requires values[k].source != c[|c| - 1].source || values[k].start > end + MAXIMUM_SIGNAL_GAP
    ensures AllApart(c, values[k..])
  {
    SliceIncreasing(values, lo, |values|);
    assert values[lo..|values|] == c + values[k..];
    assert forall x | x in c :: x.source == c[0].source;
    CutSeparates(c, values[k..]);
  }

  /** Turning a finished component into a group cannot fail. */
  method CloseComponent(ghost signals: seq<Signal>, ghost values: seq<Signal>, ghost lo: nat, ghost k: nat,
                        ghost end: int, groups: seq<Group>, component: seq<Signal>)
    returns (r: seq<Group>)
    requires Normalize(signals) == Ok(values) && Finished(values, lo, groups)
    requires Running(values, lo, k, component, end) && AllApart(component, values[k..])
    ensures Finished(values, k, r)
  {
    NormalizeSpec(signals);
    AcceptableSameElements(signals, values);
    AcceptableSubset(component, values);
    SegmentGroup(component);
    var built := MakeGroup(component);
    FinishedGrows(values, lo, k, groups, component, built.value);
    r := groups + [built.value];
  }

  /** The loop of the source: it grows a component or closes it into a group. */
  method SweepGroups(ghost signals: seq<Signal>, values: seq<Signal>) returns (groups: seq<Group>)
    requires Normalize(signals) == Ok(values) && values != [] && Increasing(SignalLess, values) && Windows(values)
    ensures Finished(values, |values|, groups)
  {
    groups := [];
    var component := [values[0]];
    var componentEnd := values[0].end;
    ghost var lo := 0;
    RunStarts(values, 0);
    for k := 1 to |values|
      invariant Finished(values, lo, groups)
      invariant Running(values, lo, k, component, componentEnd)
    {
      var signal := values[k];
      var previous := component[|component| - 1];
      if signal.source == previous.source && signal.start <= componentEnd + MAXIMUM_SIGNAL_GAP {
        RunGrows(values, lo, k, component, componentEnd);
        component := component + [signal];
        if signal.end > componentEnd {
          componentEnd := signal.end;
        }
      } else {
        CutApart(values, lo, k, component, componentEnd);
        groups := CloseComponent(signals, values, lo, k, componentEnd, groups, component);
        RunStarts(values, k);
        component := [signal];
        componentEnd := signal.end;
        lo := k;
      }
    }
    groups := CloseComponent(signals, values, lo, |values|, componentEnd, groups, component);
  }

  lemma SweptOrdered(groups: seq<Group>)
    requires Segmented(Parts(groups))
    requires forall k | 0 <= k < |groups| ::
      BuildGroup(groups[k].signals) == Ok(groups[k]) && Acceptable(groups[k].signals)
    ensures Increasing(GroupBefore, groups)
  {
    var parts := Parts(groups);
    forall i, j | 0 <= i < j < |groups| ensures GroupBefore(groups[i], groups[j]) {
      assert Segment(parts[i]) && Segment(parts[j]) && AllApart(parts[i], parts[j]);
      SegmentGroup(groups[i].signals);
      SegmentGroup(groups[j].signals);
      var x, y := groups[i].signals[0], groups[j].signals[0];
      assert x in parts[i] && y in parts[j];
      assert Apart(x, y) && ValidWindow(x);
    }
  }

  /** A complete sweep is a correlation. */
  lemma SweptIsCorrelation(signals: seq<Signal>, values: seq<Signal>, groups: seq<Group>)
    requires NormalForm(signals, values) && Acceptable(values)
    requires Finished(values, |values|, groups)
    ensures IsCorrelation(signals, groups)
  {
    assert values[..|values|] == values;
    SegmentsAreComponents(values, Parts(groups));
    assert Elements(values) == Elements(signals);
    forall k | 0 <= k < |groups| ensures Acceptable(groups[k].signals) && Increasing(SignalLess, groups[k].signals) {
      assert Segment(Parts(groups)[k]);
      AcceptableSubset(groups[k].signals, values);
    }
    SweptOrdered(groups);
  }

  /** `Correlate` fails exactly when normalisation does; otherwise it returns the correlation.
      Its final sort moves nothing, so the digest tie-break is never consulted. */
  method Correlate(signals: seq<Signal>) returns (r: Result<seq<Group>>)
    ensures r.Ok? <==> Acceptable(signals)
    ensures r.Err? ==> Normalize(signals) == Err(r.error)
    ensures r.Ok? ==> IsCorrelation(signals, r.value)
  {
    NormalizeSpec(signals);
    var normalized := NormalizeSignals(signals);
    if normalized.Err? {
      return Err(normalized.error);
    }
    var values := normalized.value;
    AcceptableSameElements(signals, values);
    if values == [] {
      NothingToCorrelate(signals);
      return Ok([]);
    }
    assert forall s | s in values :: ValidWindow(s);
    var groups := SweepGroups(signals, values);
    SweptIsCorrelation(signals, values, groups);
    FinalSortFixed(groups);
    return Ok(Sort(GroupLess, groups));
  }

  lemma NothingToCorrelate(signals: seq<Signal>)
    requires SameElements([], signals)
    ensures IsCorrelation(signals, [])
  {
    assert Elements(signals) == {};
  }

  /** Groups strictly ordered by source and start are left alone by the final sort. */
  lemma FinalSortFixed(groups: seq<Group>)
    requires Increasing(GroupBefore, groups)
    ensures Sort(GroupLess, groups) == groups
  {
    GroupOrders();
    SortFixed(GroupLess, groups);
  }

  // ---- the result is determined by the set of signals ----

  lemma SameComponent(signals: seq<Signal>, xs: seq<Group>, ys: seq<Group>, i: nat) returns (j: nat)
    requires IsCorrelation(signals, xs) && IsCorrelation(signals, ys) && i < |xs|
    ensures j < |ys| && xs[i] == ys[j]
  {
    var nodes := Elements(signals);
    var px, py := Parts(xs), Parts(ys);
    var x := xs[i].signals[0];
    assert x in px[i] && x in Elements(px[i]);
    j :| 0 <= j < |py| && x in py[j];
    forall y ensures y in px[i] <==> y in py[j] {
      if y in px[i] {
        assert y in Elements(px[i]) && Linked(nodes, x, y);
        var m :| 0 <= m < |py| && y in py[m];
      }
      if y in py[j] {
        assert y in Elements(py[j]) && Linked(nodes, x, y);
        var m :| 0 <= m < |px| && y in px[m];
      }
    }
    SignalLessOrder();
    IncreasingUnique(SignalLess, xs[i].signals, ys[j].signals);
  }

  /** Permuting or duplicating the input changes nothing: the correlation is unique. */
  lemma CorrelationUnique(signals: seq<Signal>, others: seq<Signal>, xs: seq<Group>, ys: seq<Group>)
    requires SameElements(signals, others)
    requires IsCorrelation(signals, xs) && IsCorrelation(others, ys)
    ensures xs == ys
  {
    assert Elements(signals) == Elements(others);
    forall g ensures g in xs <==> g in ys {
      if g in xs {
        var i :| 0 <= i < |xs| && xs[i] == g;
        var j := SameComponent(signals, xs, ys, i);
      }
      if g in ys {
        var i :| 0 <= i < |ys| && ys[i] == g;
        var j := SameComponent(signals, ys, xs, i);
      }
    }
    GroupOrders();
    IncreasingUnique(GroupBefore, xs, ys);
  }

  /** Every signal is in exactly one group, and there exactly once. */
  lemma CorrelationPartitions(signals: seq<Signal>, groups: seq<Group>, s: Signal)
    requires IsCorrelation(signals, groups) && s in signals
    ensures exists k :: 0 <= k < |groups| && s in groups[k].signals
    ensures forall k, m | 0 <= k < |groups| && 0 <= m < |groups| && s in groups[k].signals && s in groups[m].signals ::
      k == m
    ensures forall k | 0 <= k < |groups| :: Distinct(groups[k].signals)
  {
    assert s in Elements(signals);
    var k :| 0 <= k < |Parts(groups)| && s in Parts(groups)[k];
    assert s in groups[k].signals;
    LinkedSelf(Elements(signals), s);
    forall k, m | 0 <= k < |groups| && 0 <= m < |groups| && s in groups[k].signals && s in groups[m].signals
      ensures k == m
    {
      assert s in Parts(groups)[k] && s in Parts(groups)[m];
    }
    SignalLessOrder();
  }

  lemma OnePartIsAll(nodes: set<Signal>, parts: seq<seq<Signal>>)
    requires AreComponents(nodes, parts) && |parts| == 1
    ensures Connected(nodes) && Elements(parts[0]) == nodes
  {
    forall x | x in nodes ensures x in parts[0] { var m :| 0 <= m < |parts| && x in parts[m]; }
  }

  lemma ManyPartsSplit(nodes: set<Signal>, parts: seq<seq<Signal>>)
    requires AreComponents(nodes, parts) && |parts| > 1
    ensures !Connected(nodes)
  {
    var x, y := parts[0][0], parts[1][0];
    assert x in parts[0] && y in parts[1] && x in Elements(parts[0]) && y in Elements(parts[1]);
    assert !Linked(nodes, x, y);
  }

  /** A connected set of signals correlates into one group, and only such a set does. */
  lemma ConnectedOneGroup(signals: seq<Signal>, groups: seq<Group>)
    requires IsCorrelation(signals, groups) && signals != []
    ensures |groups| == 1 <==> Connected(Elements(signals))
    ensures |groups| == 1 ==> SameElements(groups[0].signals, signals)
  {
    var nodes, parts := Elements(signals), Parts(groups);
    assert signals[0] in nodes;
    var k :| 0 <= k < |parts| && signals[0] in parts[k];
    if |parts| == 1 {
      OnePartIsAll(nodes, parts);
      assert groups[0].signals == parts[0];
      assert forall x :: x in Elements(parts[0]) <==> x in Elements(signals);
    } else {
      ManyPartsSplit(nodes, parts);
    }
  }
}
