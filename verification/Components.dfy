/** The relation graph on signals and its connected components.
    Two signals are joined when they share the canonical source and their windows overlap or
    lie at most five minutes apart (`internal/correlation/correlate.go:98-116`). */
module Components {
  import opened Prelude
  import opened Order
  import opened Signals

  const MAXIMUM_SIGNAL_GAP := 5 * MINUTE

  datatype TemporalReason = WindowOverlap | WithinFiveMinutes | ReopenedWithinThirtyMinutes

  /** `time.Time.Sub`: the difference, cut off at the largest 64-bit duration. */
  function Sub(a: int, b: int): (d: int) {
    if a - b > 0x7fff_ffff_ffff_ffff then 0x7fff_ffff_ffff_ffff
    else if a - b < -0x8000_0000_0000_0000 then -0x8000_0000_0000_0000
    else a - b
  }

  function TemporalRelation(left: Signal, right: Signal): (r: Option<TemporalReason>) {
    if left.start <= right.end && right.start <= left.end then Some(WindowOverlap)
    else
      var gap := if left.end < right.start then Sub(right.start, left.end) else Sub(left.start, right.end);
      if gap <= MAXIMUM_SIGNAL_GAP then Some(WithinFiveMinutes) else None
  }

  /** The documented edge: same source, and neither window starts more than five minutes after the other ends. */
  ghost predicate Edge(a: Signal, b: Signal) {
    a.source == b.source
    && a.start <= b.end + 5 * MINUTE && b.start <= a.end + 5 * MINUTE
  }

  ghost predicate Covers(s: Signal, t: int) { s.start <= t <= s.end }

  /** The code's case analysis, overflow of durations included, decides exactly that edge,
      names the overlap case correctly and does not depend on the order of its arguments. */
  lemma TemporalRelationIsEdge(a: Signal, b: Signal)
    requires ValidWindow(a) && ValidWindow(b)
    ensures a.source == b.source ==> (TemporalRelation(a, b).Some? <==> Edge(a, b))
    ensures TemporalRelation(a, b) == TemporalRelation(b, a)
    ensures TemporalRelation(a, b) == Some(WindowOverlap) <==>
      exists t :: Covers(a, t) && Covers(b, t)
  {
    var t := if a.start <= b.start then b.start else a.start;
    if TemporalRelation(a, b) == Some(WindowOverlap) {
      assert Covers(a, t) && Covers(b, t);
    }
  }

  // ---- walks ----

  ghost predicate Walk(nodes: set<Signal>, p: seq<Signal>) {
    p != [] && (forall i | 0 <= i < |p| :: p[i] in nodes)
    && forall i | 0 <= i < |p| - 1 :: Edge(p[i], p[i + 1])
  }

  ghost predicate WalkFromTo(nodes: set<Signal>, p: seq<Signal>, a: Signal, b: Signal) {
    Walk(nodes, p) && p[0] == a && p[|p| - 1] == b
  }

  /** Joined by a chain of edges through the given signals. */
  ghost predicate Linked(nodes: set<Signal>, a: Signal, b: Signal) {
    exists p :: WalkFromTo(nodes, p, a, b)
  }

  lemma LinkedSelf(nodes: set<Signal>, a: Signal)
    requires a in nodes
    ensures Linked(nodes, a, a)
  {
    assert WalkFromTo(nodes, [a], a, a);
  }

  lemma LinkedEdge(nodes: set<Signal>, a: Signal, b: Signal)
    requires a in nodes && b in nodes && Edge(a, b)
    ensures Linked(nodes, a, b) && Linked(nodes, b, a)
  {
    assert WalkFromTo(nodes, [a, b], a, b);
    assert WalkFromTo(nodes, [b, a], b, a);
  }

  lemma LinkedTransitive(nodes: set<Signal>, a: Signal, b: Signal, c: Signal)
    requires Linked(nodes, a, b) && Linked(nodes, b, c)
    ensures Linked(nodes, a, c)
  {
    var p :| WalkFromTo(nodes, p, a, b);
    var q :| WalkFromTo(nodes, q, b, c);
    var w := p + q[1..];
    forall i | 0 <= i < |w| - 1 ensures Edge(w[i], w[i + 1]) {
      if i >= |p| - 1 { assert w[i] == q[i - |p| + 1] && w[i + 1] == q[i - |p| + 2]; }
    }
    assert WalkFromTo(nodes, w, a, c);
  }

  lemma {:induction false} WalkReversed(nodes: set<Signal>, p: seq<Signal>, a: Signal, b: Signal)
    requires WalkFromTo(nodes, p, a, b)
    ensures Linked(nodes, b, a)
    decreases |p|
  {
    if |p| == 1 {
      LinkedSelf(nodes, a);
    } else {
      WalkReversed(nodes, p[1..], p[1], b);
      LinkedEdge(nodes, p[0], p[1]);
      LinkedTransitive(nodes, b, p[1], a);
    }
  }

  lemma LinkedSymmetric(nodes: set<Signal>, a: Signal, b: Signal)
    requires Linked(nodes, a, b)
    ensures Linked(nodes, b, a)
  {
    var p :| WalkFromTo(nodes, p, a, b);
    WalkReversed(nodes, p, a, b);
  }

  lemma LinkedMonotone(small: set<Signal>, large: set<Signal>, a: Signal, b: Signal)
    requires small <= large && Linked(small, a, b)
    ensures Linked(large, a, b)
  {
    var p :| WalkFromTo(small, p, a, b);
    assert WalkFromTo(large, p, a, b);
  }

  /** No edge leaves `part` inside `nodes`. */
  ghost predicate Closed(nodes: set<Signal>, part: set<Signal>) {
    forall x, y | x in part && y in nodes && Edge(x, y) :: y in part
  }

  lemma {:induction false} WalkStays(nodes: set<Signal>, part: set<Signal>, p: seq<Signal>)
    requires Closed(nodes, part) && Walk(nodes, p) && p[0] in part
    ensures p[|p| - 1] in part
    decreases |p|
  {
    if |p| > 1 {
      assert Edge(p[0], p[1]);
      WalkStays(nodes, part, p[1..]);
    }
  }

  lemma LinkedStays(nodes: set<Signal>, part: set<Signal>, a: Signal, b: Signal)
    requires Closed(nodes, part) && a in part && Linked(nodes, a, b)
    ensures b in part
  {
    var p :| WalkFromTo(nodes, p, a, b);
    WalkStays(nodes, part, p);
  }

  // ---- components ----

  /** Every two signals of the set are linked inside it. */
  ghost predicate Connected(nodes: set<Signal>) {
    forall a, b | a in nodes && b in nodes :: Linked(nodes, a, b)
  }

  ghost function Elements(s: seq<Signal>): (r: set<Signal>)
    ensures forall x :: x in r <==> x in s
  {
    set x | x in s
  }

  /** `parts` lists the connected components of `nodes`: together they hold every node, and
      two nodes share a part exactly when a chain of edges joins them. */
  ghost predicate AreComponents(nodes: set<Signal>, parts: seq<seq<Signal>>) {
    (forall k | 0 <= k < |parts| :: parts[k] != [] && Elements(parts[k]) <= nodes)
    && (forall x | x in nodes :: exists k :: 0 <= k < |parts| && x in parts[k])
    && (forall i, j, x, y | 0 <= i < |parts| && 0 <= j < |parts| && x in parts[i] && y in parts[j] ::
          Linked(nodes, x, y) <==> i == j)
  }

  lemma {:induction false} WalkInside(nodes: set<Signal>, part: set<Signal>, p: seq<Signal>)
    requires Closed(nodes, part) && Walk(nodes, p) && p[0] in part
    ensures Walk(part, p)
    decreases |p|
  {
    if |p| > 1 {
      assert Edge(p[0], p[1]);
      WalkInside(nodes, part, p[1..]);
      assert forall i | 1 <= i < |p| :: p[i] == p[1..][i - 1];
    }
  }

  /** A component is connected through its own signals alone. */
  lemma PartConnected(nodes: set<Signal>, parts: seq<seq<Signal>>, k: nat)
    requires AreComponents(nodes, parts) && k < |parts|
    ensures Connected(Elements(parts[k]))
  {
    var part := Elements(parts[k]);
    forall x, y | x in part && y in nodes && Edge(x, y) ensures y in part {
      LinkedEdge(nodes, x, y);
      var m :| 0 <= m < |parts| && y in parts[m];
    }
    forall x, y | x in part && y in part ensures Linked(part, x, y) {
      assert x in parts[k] && y in parts[k];
      assert Linked(nodes, x, y);
      var p :| WalkFromTo(nodes, p, x, y);
      WalkInside(nodes, part, p);
      assert WalkFromTo(part, p, x, y);
    }
  }

  /** Growing a connected set by a signal joined to one of its members keeps it connected. */
  lemma ConnectedGrows(nodes: set<Signal>, hub: Signal, s: Signal)
    requires Connected(nodes) && hub in nodes && Edge(hub, s)
    ensures Connected(nodes + {s})
  {
    var all := nodes + {s};
    LinkedEdge(all, hub, s);
    forall a, b | a in all && b in all ensures Linked(all, a, b) {
      ConnectedVia(nodes, all, hub, a, s);
      ConnectedVia(nodes, all, hub, b, s);
      LinkedSymmetric(all, b, hub);
      LinkedTransitive(all, a, hub, b);
    }
  }

  lemma ConnectedVia(nodes: set<Signal>, all: set<Signal>, hub: Signal, a: Signal, s: Signal)
    requires Connected(nodes) && hub in nodes && all == nodes + {s} && a in all
    requires Linked(all, s, hub)
    ensures Linked(all, a, hub)
  {
    if a in nodes { LinkedMonotone(nodes, all, a, hub); }
  }

  /** Some member of the list is joined to `s`. */
  ghost predicate JoinedTo(part: seq<Signal>, s: Signal) { exists x :: x in part && Edge(x, s) }

  /** A new signal joins the components into one exactly when it is joined to a member of each. */
  lemma JoinsAllParts(nodes: set<Signal>, parts: seq<seq<Signal>>, s: Signal)
    requires AreComponents(nodes, parts) && s !in nodes
    ensures Connected(nodes + {s}) <==> forall k | 0 <= k < |parts| :: JoinedTo(parts[k], s)
  {
    hide JoinedTo, AreComponents;
    var all := nodes + {s};
    if forall k | 0 <= k < |parts| :: JoinedTo(parts[k], s) {
      forall a | a in all ensures Linked(all, a, s) {
        if a == s { LinkedSelf(all, s); } else { LinkedThroughPart(nodes, parts, a, s); }
      }
      forall a, b | a in all && b in all ensures Linked(all, a, b) {
        LinkedSymmetric(all, b, s);
        LinkedTransitive(all, a, s, b);
      }
    } else {
      var k :| 0 <= k < |parts| && !JoinedTo(parts[k], s);
      UnjoinedPartStays(nodes, parts, s, k);
    }
  }

  lemma LinkedThroughPart(nodes: set<Signal>, parts: seq<seq<Signal>>, a: Signal, s: Signal)
    requires AreComponents(nodes, parts) && a in nodes
    requires forall k | 0 <= k < |parts| :: JoinedTo(parts[k], s)
    ensures Linked(nodes + {s}, a, s)
  {
    hide Edge;
    var k :| 0 <= k < |parts| && a in parts[k];
    var x :| x in parts[k] && Edge(x, s);
    assert Linked(nodes, a, x) && x in Elements(parts[k]);
    LinkedMonotone(nodes, nodes + {s}, a, x);
    LinkedEdge(nodes + {s}, x, s);
    LinkedTransitive(nodes + {s}, a, x, s);
  }

  /** A component the new signal is not joined to stays a component of its own. */
  lemma UnjoinedPartStays(nodes: set<Signal>, parts: seq<seq<Signal>>, s: Signal, k: nat)
    requires AreComponents(nodes, parts) && s !in nodes && k < |parts|
    requires !JoinedTo(parts[k], s)
    ensures !Connected(nodes + {s})
  {
    var all, part, x := nodes + {s}, Elements(parts[k]), parts[k][0];
    forall y, z | y in part && z in all && Edge(y, z) ensures z in part {
      LinkedEdge(nodes, y, z);
      var m :| 0 <= m < |parts| && z in parts[m];
    }
    assert x in part && part <= nodes;
    if Linked(all, x, s) { LinkedStays(all, part, x, s); }
  }
}
