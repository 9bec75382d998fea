/** Pairwise relations of a group (`internal/correlation/correlate.go:78-153`). */
module Relations {
  import opened Prelude
  import opened Order
  import opened Signals
  import opened Components

  /** The identity reason is always the same canonical source, so it is left implicit. The sorted list of
      supporting reasons holds two constants and two that depend on the pair: those are the flags. */
  datatype Relation = Relation(left: string, right: string, temporal: TemporalReason, sameService: bool, sameRule: bool)

  function MakeRelation(a: Signal, b: Signal, temporal: TemporalReason): (r: Relation) {
    var (left, right) := if StrLess(b.id, a.id) then (b, a) else (a, b);
    Relation(left.id, right.id, temporal, left.service == right.service, left.rule == right.rule)
  }

  function Rank(t: TemporalReason): (r: int) {
    match t
    case WithinFiveMinutes => 0
    case ReopenedWithinThirtyMinutes => 1
    case WindowOverlap => 2
  }

  /** `sortRelations`: the two IDs, then the text of the temporal reason. */
  predicate RelationLess(a: Relation, b: Relation) {
    if a.left != b.left then StrLess(a.left, b.left)
    else if a.right != b.right then StrLess(a.right, b.right)
    else Rank(a.temporal) < Rank(b.temporal)
  }

  lemma RelationLessOrder()
    ensures Transitive(RelationLess) && Irreflexive(RelationLess)
    ensures forall a: Relation, b: Relation {:trigger RelationLess(a, b)} ::
      (a.left, a.right) != (b.left, b.right) ==> RelationLess(a, b) || RelationLess(b, a)
  {
    StrLessOrder();
  }

  function Row(left: Signal, rest: seq<Signal>): (r: seq<Relation>) {
    if rest == [] then []
    else
      var temporal := TemporalRelation(left, rest[0]);
      (if left.source == rest[0].source && temporal.Some? then [MakeRelation(left, rest[0], temporal.value)] else [])
      + Row(left, rest[1..])
  }

  function AllPairs(signals: seq<Signal>): (r: seq<Relation>) {
    if signals == [] then [] else Row(signals[0], signals[1..]) + AllPairs(signals[1..])
  }

  function BuildRelations(signals: seq<Signal>): (r: seq<Relation>) { Sort(RelationLess, AllPairs(signals)) }

  /** The inner loop of the source: one row, appended to what is there. */
  method AppendRow(result: seq<Relation>, left: Signal, rest: seq<Signal>) returns (r: seq<Relation>)
    ensures r == result + Row(left, rest)
  {
    r := result;
    for j := 0 to |rest|
      invariant r + Row(left, rest[j..]) == result + Row(left, rest)
    {
      var right := rest[j];
      assert rest[j..][0] == right && rest[j..][1..] == rest[j + 1..];
      var temporal := TemporalRelation(left, right);
      if left.source == right.source && temporal.Some? {
        r := r + [MakeRelation(left, right, temporal.value)];
      }
    }
  }

  /** The nested loops of the source, then the sort. */
  method BuildRelationList(signals: seq<Signal>) returns (r: seq<Relation>)
    ensures r == BuildRelations(signals)
  {
    hide Row, Sort;
    var result: seq<Relation> := [];
    for i := 0 to |signals|
      invariant result + AllPairs(signals[i..]) == AllPairs(signals)
    {
      assert signals[i..][0] == signals[i] && signals[i..][1..] == signals[i + 1..];
      result := AppendRow(result, signals[i], signals[i + 1..]);
    }
    assert result == AllPairs(signals);
    return Sort(RelationLess, result);
  }

  // ---- what the list means ----

  /** The entry for a pair of joined signals, named by their ordered IDs. */
  ghost predicate Joins(r: Relation, a: Signal, b: Signal) {
    StrLess(a.id, b.id) && Edge(a, b) && TemporalRelation(a, b).Some?
    && r == MakeRelation(a, b, TemporalRelation(a, b).value)
  }

  ghost predicate JoinsEither(r: Relation, a: Signal, b: Signal) { Joins(r, a, b) || Joins(r, b, a) }

  /** Some two signals of the list are joined and `r` is their entry. */
  ghost predicate Wanted(r: Relation, signals: seq<Signal>) {
    exists a, b :: a in signals && b in signals && Joins(r, a, b)
  }

  ghost predicate Windows(signals: seq<Signal>) { forall s | s in signals :: ValidWindow(s) }

  ghost predicate UniqueKeys(rs: seq<Relation>) {
    forall i, j | 0 <= i < j < |rs| :: (rs[i].left, rs[i].right) != (rs[j].left, rs[j].right)
  }

  lemma JoinsIDs(r: Relation, a: Signal, b: Signal)
    requires Joins(r, a, b)
    ensures r.left == a.id && r.right == b.id
  {
    StrLessOrder();
  }

  /** What an entry says: the two IDs in order, the reason given, and whether service and rule are the same. */
  lemma EntryMeans(a: Signal, b: Signal, temporal: TemporalReason)
    requires a.id != b.id
    ensures var r := MakeRelation(a, b, temporal);
      && {r.left, r.right} == {a.id, b.id} && StrLess(r.left, r.right) && r.temporal == temporal
      && (r.sameService <==> a.service == b.service) && (r.sameRule <==> a.rule == b.rule)
  {
    hide StrLess;
    StrLessOrder();
  }

  /** What a wanted entry says of its two signals. */
  lemma JoinsMean(r: Relation, a: Signal, b: Signal)
    requires Joins(r, a, b) && ValidWindow(a) && ValidWindow(b)
    ensures r.left == a.id && r.right == b.id && a.source == b.source
    ensures (r.sameService <==> a.service == b.service) && (r.sameRule <==> a.rule == b.rule)
    ensures r.temporal == WindowOverlap <==> a.start <= b.end && b.start <= a.end
    ensures r.temporal == WithinFiveMinutes <==> !(a.start <= b.end && b.start <= a.end)
  {
    hide StrLess;
    StrLessOrder();
    EntryMeans(a, b, TemporalRelation(a, b).value);
  }

  lemma MakeRelationJoins(a: Signal, b: Signal)
    requires ValidWindow(a) && ValidWindow(b) && a.id != b.id && a.source == b.source
    requires TemporalRelation(a, b).Some?
    ensures JoinsEither(MakeRelation(a, b, TemporalRelation(a, b).value), a, b)
  {
    TemporalRelationIsEdge(a, b);
    StrLessOrder();
    assert MakeRelation(a, b, TemporalRelation(a, b).value) == MakeRelation(b, a, TemporalRelation(b, a).value);
  }

  lemma JoinsMade(r: Relation, a: Signal, b: Signal)
    requires ValidWindow(a) && ValidWindow(b) && JoinsEither(r, a, b)
    ensures a.source == b.source && TemporalRelation(a, b).Some?
    ensures r == MakeRelation(a, b, TemporalRelation(a, b).value)
  {
    TemporalRelationIsEdge(a, b);
    StrLessOrder();
  }

  /** A row holds the entries of its signal with each later one, no two with the same far end. */
  lemma {:induction false} RowEntries(left: Signal, rest: seq<Signal>)
    requires UniqueIDs(rest) && Windows(rest) && ValidWindow(left)
    requires forall b | b in rest :: b.id != left.id
    ensures forall r :: r in Row(left, rest) <==> exists b :: b in rest && JoinsEither(r, left, b)
    ensures UniqueKeys(Row(left, rest))
  {
    hide StrLess, TemporalRelation, MakeRelation, JoinsEither;
    if rest != [] {
      var b, tail := rest[0], rest[1..];
      assert rest == [b] + tail;
      RowEntries(left, tail);
      var head := if left.source == b.source && TemporalRelation(left, b).Some?
                  then [MakeRelation(left, b, TemporalRelation(left, b).value)] else [];
      assert Row(left, rest) == head + Row(left, tail);
      forall r ensures r in head <==> JoinsEither(r, left, b) {
        if JoinsEither(r, left, b) { JoinsMade(r, left, b); }
        if r in head { MakeRelationJoins(left, b); }
      }
      forall r, q | r in head && q in Row(left, tail)
        ensures (r.left, r.right) != (q.left, q.right)
      {
        var c :| c in tail && JoinsEither(q, left, c);
        FarEndsDiffer(r, q, left, b, c);
      }
      UniqueKeysConcat(head, Row(left, tail));
    }
  }

  lemma FarEndsDiffer(r: Relation, q: Relation, left: Signal, b: Signal, c: Signal)
    requires JoinsEither(r, left, b) && JoinsEither(q, left, c) && b.id != c.id
    ensures (r.left, r.right) != (q.left, q.right)
  {
    if Joins(r, left, b) { JoinsIDs(r, left, b); } else { JoinsIDs(r, b, left); }
    if Joins(q, left, c) { JoinsIDs(q, left, c); } else { JoinsIDs(q, c, left); }
    StrLessOrder();
  }

  lemma UniqueKeysConcat(xs: seq<Relation>, ys: seq<Relation>)
    requires UniqueKeys(xs) && UniqueKeys(ys)
    requires forall r, q | r in xs && q in ys :: (r.left, r.right) != (q.left, q.right)
    ensures UniqueKeys(xs + ys)
  {
  }

  /** A wanted entry either mentions the first signal or lies among the rest. */
  lemma WantedSplit(r: Relation, x: Signal, rest: seq<Signal>)
    requires forall b | b in rest :: b.id != x.id
    ensures Wanted(r, [x] + rest) <==> Wanted(r, rest) || exists b :: b in rest && JoinsEither(r, x, b)
  {
    hide TemporalRelation, MakeRelation, Edge;
    var all := [x] + rest;
    if Wanted(r, all) {
      var a, b :| a in all && b in all && Joins(r, a, b);
      StrLessIrreflexive(a.id);
      assert a != b;
      if a == x { assert b in rest && JoinsEither(r, x, b); }
      if b == x { assert a in rest && JoinsEither(r, x, a); }
      if a != x && b != x { assert a in rest && b in rest; }
    }
    if Wanted(r, rest) {
      var a, b :| a in rest && b in rest && Joins(r, a, b);
      assert a in all && b in all;
    }
    if b :| b in rest && JoinsEither(r, x, b) {
      assert b in all && x in all;
    }
  }

  /** Entries that mention the first signal have keys unlike those of the rest. */
  lemma RowApart(r: Relation, q: Relation, x: Signal, rest: seq<Signal>)
    requires forall b | b in rest :: b.id != x.id
    requires Wanted(q, rest) && exists b :: b in rest && JoinsEither(r, x, b)
    ensures (r.left, r.right) != (q.left, q.right)
  {
    hide TemporalRelation, MakeRelation, Edge;
    var b :| b in rest && JoinsEither(r, x, b);
    var c, d :| c in rest && d in rest && Joins(q, c, d);
    JoinsIDs(q, c, d);
    if Joins(r, x, b) { JoinsIDs(r, x, b); } else { JoinsIDs(r, b, x); }
  }

  lemma {:induction false} AllPairsEntries(signals: seq<Signal>)
    requires UniqueIDs(signals) && Windows(signals)
    ensures forall r :: r in AllPairs(signals) <==> Wanted(r, signals)
    ensures UniqueKeys(AllPairs(signals))
  {
    hide StrLess, Row, Wanted, JoinsEither;
    if signals == [] {
      NothingWanted();
    } else {
      var x, rest := signals[0], signals[1..];
      assert signals == [x] + rest;
      assert forall b | b in rest :: b.id != x.id;
      RowEntries(x, rest);
      AllPairsEntries(rest);
      forall r ensures r in AllPairs(signals) <==> Wanted(r, signals) { WantedSplit(r, x, rest); }
      forall r, q | r in Row(x, rest) && q in AllPairs(rest) ensures (r.left, r.right) != (q.left, q.right) {
        RowApart(r, q, x, rest);
      }
      UniqueKeysConcat(Row(x, rest), AllPairs(rest));
    }
  }

  lemma NothingWanted()
    ensures forall r :: !Wanted(r, [])
  {
  }

  /** The list is strictly increasing and holds exactly one entry for each joined pair. */
  lemma RelationsExact(signals: seq<Signal>)
    requires UniqueIDs(signals) && Windows(signals)
    ensures Increasing(RelationLess, BuildRelations(signals))
    ensures forall r :: r in BuildRelations(signals) <==> Wanted(r, signals)
  {
    AllPairsEntries(signals);
    RelationLessOrder();
    var pairs := AllPairs(signals);
    forall i, j | 0 <= i < |pairs| && 0 <= j < |pairs| && pairs[i] != pairs[j]
      ensures RelationLess(pairs[i], pairs[j]) || RelationLess(pairs[j], pairs[i])
    {
      assert i < j || j < i;
    }
    SortIncreasing(RelationLess, pairs);
  }

  /** Relations, too, depend on the set of signals only. */
  lemma RelationsOrderFree(xs: seq<Signal>, ys: seq<Signal>)
    requires UniqueIDs(xs) && UniqueIDs(ys) && Windows(xs) && SameElements(xs, ys)
    ensures BuildRelations(xs) == BuildRelations(ys)
  {
    RelationsExact(xs);
    RelationsExact(ys);
    RelationLessOrder();
    IncreasingUnique(RelationLess, BuildRelations(xs), BuildRelations(ys));
  }
}
