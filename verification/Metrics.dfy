/** The metrics completeness check and its rendering (`internal/controlmetrics/store.go`, `handler.go`). */
module Metrics {
  import opened Prelude
  import opened Order

  const MAX_SAMPLES := 512
  const NUL := 0 as char

  datatype Value = Number(number: real) | NotANumber | Infinite

  datatype Labels = Labels(name: string, firstName: string, firstValue: string, secondName: string, secondValue: string)

  datatype Sample = Sample(labels: Labels, value: Value)

  datatype Contract = Contract(
    firstName: string, firstValues: set<string>, secondName: string, secondValues: set<string>)

  type Contracts = map<string, Contract>

  // ---- one sample ----

  predicate ValidValue(v: Value) { v.Number? && v.number >= 0.0 }

  /** The label part of `validSample`. */
  predicate Allowed(c: Contracts, l: Labels) {
    l.name in c
    && var k := c[l.name];
       if k.firstName == "" then l.firstName == "" && l.firstValue == "" && l.secondName == "" && l.secondValue == ""
       else l.firstName == k.firstName && l.firstValue in k.firstValues
            && if k.secondName == "" then l.secondName == "" && l.secondValue == ""
               else l.secondName == k.secondName && l.secondValue in k.secondValues
  }

  predicate ValidSample(c: Contracts, s: Sample) { ValidValue(s.value) && Allowed(c, s.labels) }

  /** `sampleKey`: the five fields joined by NUL. */
  function Key(l: Labels): (r: string) {
    l.name + [NUL] + (l.firstName + [NUL] + (l.firstValue + [NUL] + (l.secondName + [NUL] + l.secondValue)))
  }

  /** No metric name is empty and no string of the contract table holds a NUL. */
  ghost predicate WellNamed(c: Contracts) {
    forall n | n in c ::
      && n != ""
      && NUL !in n && NUL !in c[n].firstName && NUL !in c[n].secondName
      && (forall v | v in c[n].firstValues :: NUL !in v) && (forall v | v in c[n].secondValues :: NUL !in v)
  }

  ghost predicate Plain(l: Labels) {
    NUL !in l.name && NUL !in l.firstName && NUL !in l.firstValue && NUL !in l.secondName && NUL !in l.secondValue
  }

  lemma AllowedIsPlain(c: Contracts, l: Labels)
    requires WellNamed(c) && Allowed(c, l)
    ensures Plain(l)
  {
    assert NUL !in "";
  }

  /** A field without NUL ends at the first NUL. */
  lemma {:induction false} FieldSplit(a: string, x: string, b: string, y: string)
    requires NUL !in a && NUL !in b && a + [NUL] + x == b + [NUL] + y
    ensures a == b && x == y
  {
    var s, t := a + [NUL] + x, b + [NUL] + y;
    assert s[0] == if a == [] then NUL else a[0];
    assert t[0] == if b == [] then NUL else b[0];
    assert (a != [] ==> a[0] in a) && (b != [] ==> b[0] in b);
    assert a == [] <==> b == [];
    if a == [] {
      assert s[1..] == x && t[1..] == y;
    } else {
      assert s[1..] == a[1..] + [NUL] + x && t[1..] == b[1..] + [NUL] + y;
      FieldSplit(a[1..], x, b[1..], y);
    }
  }

  lemma KeyInjective(a: Labels, b: Labels)
    requires Plain(a) && Plain(b) && Key(a) == Key(b)
    ensures a == b
  {
    FieldSplit(a.name, a.firstName + [NUL] + (a.firstValue + [NUL] + (a.secondName + [NUL] + a.secondValue)),
               b.name, b.firstName + [NUL] + (b.firstValue + [NUL] + (b.secondName + [NUL] + b.secondValue)));
    FieldSplit(a.firstName, a.firstValue + [NUL] + (a.secondName + [NUL] + a.secondValue),
               b.firstName, b.firstValue + [NUL] + (b.secondName + [NUL] + b.secondValue));
    FieldSplit(a.firstValue, a.secondName + [NUL] + a.secondValue, b.firstValue, b.secondName + [NUL] + b.secondValue);
    FieldSplit(a.secondName, a.secondValue, b.secondName, b.secondValue);
  }

  // ---- the contract product and its size ----

  ghost function Family(n: string, k: Contract): (r: set<Labels>) {
    if k.firstName == "" then {Labels(n, "", "", "", "")}
    else if k.secondName == "" then set v | v in k.firstValues :: Labels(n, k.firstName, v, "", "")
    else Grid(n, k.firstName, k.firstValues, k.secondName, k.secondValues)
  }

  /** Every label combination the table allows. */
  ghost function Product(c: Contracts): (r: set<Labels>) { set n, l | n in c && l in Family(n, c[n]) :: l }

  lemma ProductIsAllowed(c: Contracts, l: Labels)
    ensures l in Product(c) <==> Allowed(c, l)
  {
    if Allowed(c, l) {
      assert l in Family(l.name, c[l.name]);
    }
  }

  lemma {:induction false} CountFirst(n: string, f: string, vs: set<string>)
    ensures |set v | v in vs :: Labels(n, f, v, "", "")| == |vs|
  {
    var image := set v | v in vs :: Labels(n, f, v, "", "");
    if vs == {} {
      assert image == {};
    } else {
      var x :| x in vs;
      CountFirst(n, f, vs - {x});
      assert image == (set v | v in vs - {x} :: Labels(n, f, v, "", "")) + {Labels(n, f, x, "", "")};
    }
  }

  lemma {:induction false} CountSecond(n: string, f: string, v: string, s: string, ws: set<string>)
    ensures |set w | w in ws :: Labels(n, f, v, s, w)| == |ws|
  {
    var image := set w | w in ws :: Labels(n, f, v, s, w);
    if ws == {} {
      assert image == {};
    } else {
      var x :| x in ws;
      CountSecond(n, f, v, s, ws - {x});
      assert image == (set w | w in ws - {x} :: Labels(n, f, v, s, w)) + {Labels(n, f, v, s, x)};
    }
  }

  ghost function Grid(n: string, f: string, vs: set<string>, s: string, ws: set<string>): (r: set<Labels>) {
    set v, w | v in vs && w in ws :: Labels(n, f, v, s, w)
  }

  lemma GridRow(n: string, f: string, vs: set<string>, s: string, ws: set<string>, x: string)
    requires x in vs
    ensures |Grid(n, f, vs, s, ws)| == |Grid(n, f, vs - {x}, s, ws)| + |ws|
  {
    var rest, row := Grid(n, f, vs - {x}, s, ws), set w | w in ws :: Labels(n, f, x, s, w);
    CountSecond(n, f, x, s, ws);
    assert Grid(n, f, vs, s, ws) == rest + row && rest !! row;
  }

  lemma {:induction false} CountBoth(n: string, f: string, vs: set<string>, s: string, ws: set<string>)
    ensures |Grid(n, f, vs, s, ws)| == |vs| * |ws|
  {
    if vs == {} {
      assert Grid(n, f, vs, s, ws) == {};
    } else {
      hide Grid;
      var x :| x in vs;
      CountBoth(n, f, vs - {x}, s, ws);
      GridRow(n, f, vs, s, ws, x);
      Distribute(|vs - {x}|, |ws|);
    }
  }

  lemma Distribute(a: nat, b: nat)
    ensures (a + 1) * b == a * b + b
  {
  }

  /** `contractSampleCount`: the size of the product. */
  method ContractSampleCount(c: Contracts) returns (total: nat)
    ensures total == |Product(c)|
  {
    total := 0;
    var names := c.Keys;
    ghost var done: set<Labels> := {};
    while names != {}
      invariant names <= c.Keys && total == |done|
      invariant done == set n, l | n in c && n !in names && l in Family(n, c[n]) :: l
      decreases |names|
    {
      var n :| n in names;
      var k := c[n];
      var count :=
        if k.firstName == "" then 1 else |k.firstValues| * (if k.secondName == "" then 1 else |k.secondValues|);
      FamilySize(n, k);
      assert done !! Family(n, k) by { FamilyNames(c); }
      done := done + Family(n, k);
      total := total + count;
      names := names - {n};
    }
    assert done == Product(c);
  }

  lemma FamilyNames(c: Contracts)
    ensures forall n, l | n in c && l in Family(n, c[n]) :: l.name == n
  {
  }

  lemma FamilySize(n: string, k: Contract)
    ensures |Family(n, k)| ==
      if k.firstName == "" then 1 else |k.firstValues| * (if k.secondName == "" then 1 else |k.secondValues|)
  {
    CountFirst(n, k.firstName, k.firstValues);
    CountBoth(n, k.firstName, k.firstValues, k.secondName, k.secondValues);
  }

  // ---- completeness ----

  predicate KeyLess(a: Sample, b: Sample) { StrLess(Key(a.labels), Key(b.labels)) }

  ghost function LabelsOf(samples: seq<Sample>): (r: set<Labels>) { set k | 0 <= k < |samples| :: samples[k].labels }

  ghost predicate DistinctLabels(samples: seq<Sample>) {
    forall i, j | 0 <= i < j < |samples| :: samples[i].labels != samples[j].labels
  }

  /** Every combination of the contract exactly once, each with a finite nonnegative value. */
  ghost predicate Complete(c: Contracts, samples: seq<Sample>) {
    && (forall k | 0 <= k < |samples| :: samples[k].value.Number? && samples[k].value.number >= 0.0)
    && DistinctLabels(samples) && LabelsOf(samples) == Product(c)
  }

  lemma {:induction false} DistinctSize(samples: seq<Sample>)
    ensures |LabelsOf(samples)| <= |samples|
    ensures DistinctLabels(samples) <==> |LabelsOf(samples)| == |samples|
  {
    if samples != [] {
      var front, n := samples[..|samples| - 1], |samples| - 1;
      DistinctSize(front);
      assert forall k | 0 <= k < n :: front[k] == samples[k];
      assert LabelsOf(samples) == LabelsOf(front) + {samples[n].labels};
      assert DistinctLabels(samples) <==> DistinctLabels(front) && samples[n].labels !in LabelsOf(front);
    }
  }

  lemma ReorderedDistinct(s: seq<Sample>, t: seq<Sample>)
    requires multiset(s) == multiset(t)
    ensures DistinctLabels(s) <==> DistinctLabels(t)
  {
    MultisetSameElements(s, t);
    assert forall k | 0 <= k < |s| :: s[k] in t;
    assert forall k | 0 <= k < |t| :: t[k] in s;
    assert LabelsOf(s) == LabelsOf(t);
    assert |s| == |multiset(s)| == |multiset(t)| == |t|;
    DistinctSize(s);
    DistinctSize(t);
  }

  lemma {:induction false} FullSubset(a: set<Labels>, b: set<Labels>)
    requires a <= b && |a| == |b|
    ensures a == b
  {
    if a != {} {
      var x :| x in a;
      FullSubset(a - {x}, b - {x});
    }
  }

  /** Distinct and allowed and as many as the product: then nothing is missing. */
  lemma CountingSuffices(c: Contracts, samples: seq<Sample>)
    ensures Complete(c, samples) <==>
      (forall k | 0 <= k < |samples| :: ValidSample(c, samples[k])) && DistinctLabels(samples)
        && |samples| == |Product(c)|
  {
    if DistinctLabels(samples) {
      DistinctSize(samples);
      forall l ensures l in Product(c) <==> Allowed(c, l) {
        ProductIsAllowed(c, l);
      }
      if forall k | 0 <= k < |samples| :: ValidSample(c, samples[k]) {
        assert LabelsOf(samples) <= Product(c);
        if |samples| == |Product(c)| {
          FullSubset(LabelsOf(samples), Product(c));
        }
      }
      if LabelsOf(samples) == Product(c) {
        assert forall k | 0 <= k < |samples| :: samples[k].labels in LabelsOf(samples);
      }
    }
  }

  lemma PlainSamples(c: Contracts, samples: seq<Sample>)
    requires WellNamed(c) && forall k | 0 <= k < |samples| :: ValidSample(c, samples[k])
    ensures forall k | 0 <= k < |samples| :: Plain(samples[k].labels)
  {
    forall k | 0 <= k < |samples| ensures Plain(samples[k].labels) {
      AllowedIsPlain(c, samples[k].labels);
    }
  }

  /** `validateCompleteSamples`: accepted exactly when complete and within the cap, and then only reordered. */
  method ValidateCompleteSamples(c: Contracts, samples: seq<Sample>) returns (r: Option<seq<Sample>>)
    requires WellNamed(c)
    ensures r.Some? <==> Complete(c, samples) && |samples| <= 512
    ensures r.Some? ==> multiset(r.value) == multiset(samples) && NonDecreasing(KeyLess, r.value)
  {
    hide WellNamed, Complete, Product, Key, Sort, Plain;
    CountingSuffices(c, samples);
    var expected := ContractSampleCount(c);
    if |samples| != expected || |samples| > MAX_SAMPLES {
      return None;
    }
    var seen: set<string> := {};
    for k := 0 to |samples|
      invariant forall i | 0 <= i < k :: ValidSample(c, samples[i])
      invariant forall i, j | 0 <= i < j < k :: samples[i].labels != samples[j].labels
      invariant seen == set i | 0 <= i < k :: Key(samples[i].labels)
    {
      if !ValidSample(c, samples[k]) {
        return None;
      }
      var key := Key(samples[k].labels);
      if key in seen {
        var i :| 0 <= i < k && Key(samples[i].labels) == key;
        AllowedIsPlain(c, samples[i].labels);
        AllowedIsPlain(c, samples[k].labels);
        KeyInjective(samples[i].labels, samples[k].labels);
        return None;
      }
      seen := seen + {key};
    }
    KeyOrder();
    SortSorts(KeyLess, samples);
    return Some(Sort(KeyLess, samples));
  }

  lemma KeyOrder()
    ensures Transitive(KeyLess) && Irreflexive(KeyLess)
  {
    StrLessOrder();
    hide StrLess, Key;
    forall x, y, z | KeyLess(x, y) && KeyLess(y, z) ensures KeyLess(x, z) {
      StrLessTransitive(Key(x.labels), Key(y.labels), Key(z.labels));
    }
    forall x ensures !KeyLess(x, x) {
      StrLessIrreflexive(Key(x.labels));
    }
  }

  // ---- rendering ----

  datatype Line = Header(name: string) | Row(sample: Sample) | End

  /** The strings that start with `p` are contiguous in the order. */
  lemma {:induction false} PrefixConvex(p: string, a: string, b: string, c: string)
    requires p <= a && p <= c && !StrLess(b, a) && !StrLess(c, b)
    ensures p <= b
  {
    if p != [] {
      assert b != [] && b[0] == p[0];
      assert a[1..] == a[1..] && p[1..] <= a[1..] && p[1..] <= c[1..];
      PrefixConvex(p[1..], a[1..], b[1..], c[1..]);
      assert p == [p[0]] + p[1..] && b == [b[0]] + b[1..];
    }
  }

  lemma NamePrefix(l: Labels, n: string)
    requires NUL !in l.name && NUL !in n
    ensures n + [NUL] <= Key(l) <==> l.name == n
  {
    if n + [NUL] <= Key(l) {
      var rest := Key(l)[|n| + 1..];
      assert n + [NUL] + rest == Key(l);
      FieldSplit(n, rest, l.name,
                 l.firstName + [NUL] + (l.firstValue + [NUL] + (l.secondName + [NUL] + l.secondValue)));
    }
  }

  /** Sorted by key, the samples of one family stand together. */
  lemma FamiliesContiguous(s: seq<Sample>, i: nat, j: nat, k: nat)
    requires NonDecreasing(KeyLess, s) && i <= j <= k < |s| && s[i].labels.name == s[k].labels.name
    requires NUL !in s[i].labels.name && NUL !in s[j].labels.name
    ensures s[j].labels.name == s[i].labels.name
  {
    hide Key, StrLess;
    var n := s[i].labels.name;
    NamePrefix(s[i].labels, n);
    NamePrefix(s[k].labels, n);
    NamePrefix(s[j].labels, n);
    StrLessIrreflexive(Key(s[j].labels));
    PrefixConvex(n + [NUL], Key(s[i].labels), Key(s[j].labels), Key(s[k].labels));
  }

  /** The header a sample needs after `front`. */
  ghost function Opening(front: seq<Sample>, name: string): (r: seq<Line>) {
    if front == [] || front[|front| - 1].labels.name != name then [Header(name)] else []
  }

  /** The lines of a sorted list: a header whenever the family changes. */
  ghost function Lines(s: seq<Sample>): (r: seq<Line>) {
    if s == [] then []
    else Lines(s[..|s| - 1]) + Opening(s[..|s| - 1], s[|s| - 1].labels.name) + [Row(s[|s| - 1])]
  }

  lemma HeaderCount(lines: seq<Line>, front: seq<Sample>, x: Sample, n: string)
    ensures multiset(lines + Opening(front, x.labels.name) + [Row(x)])[Header(n)] ==
      multiset(lines)[Header(n)] + if Opening(front, x.labels.name) == [Header(n)] then 1 else 0
  {
  }

  ghost predicate Occurs(s: seq<Sample>, n: string) { exists k | 0 <= k < |s| :: s[k].labels.name == n }

  ghost predicate PlainNames(s: seq<Sample>) { forall k | 0 <= k < |s| :: NUL !in s[k].labels.name }

  /** Each family has its header exactly once. */
  lemma {:induction false} OneHeader(s: seq<Sample>, n: string)
    requires NonDecreasing(KeyLess, s) && PlainNames(s)
    ensures multiset(Lines(s))[Header(n)] == if Occurs(s, n) then 1 else 0
  {
    hide KeyLess, Occurs;
    OccursStep(s, n);
    if s != [] {
      var front, m := s[..|s| - 1], |s| - 1;
      HeaderCount(Lines(front), front, s[m], n);
      hide Lines;
      OneHeader(front, n);
      OccursStep(front, n);
      if Occurs(front, n) && s[m].labels.name == n {
        SameFamily(s, n);
      }
    }
  }

  lemma OccursStep(s: seq<Sample>, n: string)
    ensures s == [] ==> !Occurs(s, n)
    ensures s != [] ==> (Occurs(s, n) <==> Occurs(s[..|s| - 1], n) || s[|s| - 1].labels.name == n)
    ensures s != [] && s[|s| - 1].labels.name == n ==> Occurs(s, n)
  {
    if s != [] {
      var front, m := s[..|s| - 1], |s| - 1;
      assert forall k | 0 <= k < m :: front[k] == s[k];
    }
  }

  lemma SameFamily(s: seq<Sample>, n: string)
    requires NonDecreasing(KeyLess, s) && PlainNames(s) && s != [] && s[|s| - 1].labels.name == n
      && Occurs(s[..|s| - 1], n)
    ensures |s| > 1 && s[|s| - 2].labels.name == n
  {
    hide KeyLess;
    var i :| 0 <= i < |s| - 1 && s[..|s| - 1][i].labels.name == n;
    FamiliesContiguous(s, i, |s| - 2, |s| - 1);
  }

  /** Every row follows the header of its family, with only rows of that family in between. */
  ghost predicate UnderHeader(lines: seq<Line>, i: int)
    requires 0 <= i < |lines|
  {
    lines[i].Row? ==>
      exists h :: 0 <= h < i && lines[h] == Header(lines[i].sample.labels.name)
        && forall m | h < m < i :: lines[m].Row? && lines[m].sample.labels.name == lines[i].sample.labels.name
  }

  lemma UnderHeaderGrows(lines: seq<Line>, more: seq<Line>, i: int)
    requires 0 <= i < |lines| && UnderHeader(lines, i)
    ensures UnderHeader(lines + more, i)
  {
    var all := lines + more;
    if lines[i].Row? {
      var name := lines[i].sample.labels.name;
      var h :| 0 <= h < i && lines[h] == Header(name)
        && forall m | h < m < i :: lines[m].Row? && lines[m].sample.labels.name == name;
      assert all[h] == Header(name) && forall m | h < m < i :: all[m] == lines[m];
    }
  }

  lemma {:induction false} RowsUnderHeaders(s: seq<Sample>)
    ensures forall i | 0 <= i < |Lines(s)| :: UnderHeader(Lines(s), i)
    ensures s != [] ==> |Lines(s)| > 0 && Lines(s)[|Lines(s)| - 1] == Row(s[|s| - 1])
  {
    if s != [] {
      var front, x := s[..|s| - 1], s[|s| - 1];
      RowsUnderHeaders(front);
      LastUnderHeader(Lines(front), front, x);
      var more := Opening(front, x.labels.name) + [Row(x)];
      var lines := Lines(front) + more;
      assert Lines(s) == lines;
      hide Lines, UnderHeader;
      forall i | 0 <= i < |lines| ensures UnderHeader(lines, i) {
        if i < |Lines(front)| {
          UnderHeaderGrows(Lines(front), more, i);
        }
      }
    }
  }

  lemma LastUnderHeader(before: seq<Line>, front: seq<Sample>, x: Sample)
    requires forall i | 0 <= i < |before| :: UnderHeader(before, i)
    requires front != [] ==> |before| > 0 && before[|before| - 1] == Row(front[|front| - 1])
    ensures var lines := before + (Opening(front, x.labels.name) + [Row(x)]);
      forall i | |before| <= i < |lines| :: UnderHeader(lines, i)
  {
    var lines := before + (Opening(front, x.labels.name) + [Row(x)]);
    var n := |before|;
    if Opening(front, x.labels.name) == [] {
      assert UnderHeader(before, n - 1);
      var h :| 0 <= h < n - 1 && before[h] == Header(x.labels.name)
        && forall m | h < m < n - 1 :: before[m].Row? && before[m].sample.labels.name == x.labels.name;
      assert lines[h] == Header(x.labels.name) && lines[n] == Row(x);
      assert forall m | h < m < n :: lines[m] == before[m];
      assert UnderHeader(lines, n);
    } else {
      assert lines[n] == Header(x.labels.name) && lines[n + 1] == Row(x);
      assert UnderHeader(lines, n + 1);
    }
  }

  ghost predicate AllValid(c: Contracts, s: seq<Sample>) { forall k | 0 <= k < |s| :: ValidSample(c, s[k]) }

  /** Every sample is a finite nonnegative number under labels that the contract lists. */
  ghost predicate Admissible(c: Contracts, s: seq<Sample>) {
    forall k | 0 <= k < |s| :: s[k].value.Number? && s[k].value.number >= 0.0 && s[k].labels in Product(c)
  }

  lemma ValidIsAdmissible(c: Contracts, s: seq<Sample>)
    ensures AllValid(c, s) <==> Admissible(c, s)
  {
    hide Allowed, Product;
    forall k | 0 <= k < |s| ensures ValidSample(c, s[k]) <==>
      s[k].value.Number? && s[k].value.number >= 0.0 && s[k].labels in Product(c)
    {
      ProductIsAllowed(c, s[k].labels);
    }
  }

  /** The samples among the lines, in order. */
  ghost function RowsOf(lines: seq<Line>): (r: seq<Sample>) {
    if lines == [] then []
    else RowsOf(lines[..|lines| - 1]) + (if lines[|lines| - 1].Row? then [lines[|lines| - 1].sample] else [])
  }

  lemma RowsSnoc(lines: seq<Line>, line: Line)
    ensures RowsOf(lines + [line]) == RowsOf(lines) + (if line.Row? then [line.sample] else [])
  {
    assert (lines + [line])[..|lines|] == lines;
  }

  /** Nothing is left out and nothing is added between the headers. */
  lemma {:induction false} RowsAreSamples(s: seq<Sample>)
    ensures RowsOf(Lines(s)) == s
  {
    if s != [] {
      var front, x := s[..|s| - 1], s[|s| - 1];
      RowsAreSamples(front);
      var headed := Lines(front) + Opening(front, x.labels.name);
      if Opening(front, x.labels.name) == [] {
        assert headed == Lines(front);
      } else {
        RowsSnoc(Lines(front), Header(x.labels.name));
      }
      RowsSnoc(headed, Row(x));
      assert front + [x] == s;
    }
  }

  /** In a sorted list equal keys stand side by side. */
  lemma EqualKeysAdjacent(s: seq<Sample>, i: nat, k: nat)
    requires NonDecreasing(KeyLess, s) && i < k < |s| && Key(s[i].labels) == Key(s[k].labels)
    ensures Key(s[k - 1].labels) == Key(s[k].labels)
  {
    hide Key, StrLess;
    StrLessTotal(Key(s[k - 1].labels), Key(s[k].labels));
    StrLessIrreflexive(Key(s[k].labels));
    assert !KeyLess(s[k], s[k - 1]);
    assert i < k - 1 ==> !KeyLess(s[k - 1], s[i]);
  }

  /** The loop of `render`. */
  method RenderOrdered(c: Contracts, s: seq<Sample>) returns (ok: bool, lines: seq<Line>)
    requires WellNamed(c) && NonDecreasing(KeyLess, s)
    ensures ok <==> AllValid(c, s) && DistinctLabels(s)
    ensures ok ==> lines == Lines(s)
  {
    hide Key, KeyLess, WellNamed, ValidSample, DistinctLabels, Lines;
    lines := [];
    var lastName, lastKey := "", "";
    assert s[..0] == [];
    NothingYet();
    for k := 0 to |s|
      invariant AllValid(c, s[..k]) && DistinctLabels(s[..k]) && lines == Lines(s[..k])
      invariant lastName == (if k == 0 then "" else s[k - 1].labels.name)
        && lastKey == (if k == 0 then "" else Key(s[k - 1].labels))
    {
      if !ValidSample(c, s[k]) {
        return false, [];
      }
      var key := Key(s[k].labels);
      KeyNonempty(s[k].labels);
      if key == lastKey {
        assert ValidSample(c, s[..k][k - 1]);
        Repeated(c, s, k);
        return false, [];
      }
      DistinctStep(s, k);
      LinesStep(s, k);
      lastKey := key;
      NamedNonempty(c, s[k]);
      if s[k].labels.name != lastName {
        lines := lines + [Header(s[k].labels.name)];
        lastName := s[k].labels.name;
      }
      lines := lines + [Row(s[k])];
    }
    assert s[..|s|] == s;
    ok := true;
  }

  lemma NothingYet()
    ensures DistinctLabels([]) && Lines([]) == []
  {
  }

  lemma LinesStep(s: seq<Sample>, k: nat)
    requires k < |s|
    ensures Lines(s[..k + 1]) == Lines(s[..k]) + Opening(s[..k], s[k].labels.name) + [Row(s[k])]
  {
    var next := s[..k + 1];
    assert next[..k] == s[..k] && next[k] == s[k];
  }

  lemma DistinctStep(s: seq<Sample>, k: nat)
    requires NonDecreasing(KeyLess, s) && k < |s| && DistinctLabels(s[..k])
    requires k > 0 ==> Key(s[k - 1].labels) != Key(s[k].labels)
    ensures DistinctLabels(s[..k + 1])
  {
    hide Key, KeyLess;
    forall i | 0 <= i < k ensures s[i].labels != s[k].labels {
      if s[i].labels == s[k].labels {
        EqualKeysAdjacent(s, i, k);
      }
    }
    assert forall i | 0 <= i < k :: s[..k][i] == s[i];
  }

  lemma Repeated(c: Contracts, s: seq<Sample>, k: nat)
    requires WellNamed(c) && 0 < k < |s| && Key(s[k - 1].labels) == Key(s[k].labels)
    requires ValidSample(c, s[k - 1]) && ValidSample(c, s[k])
    ensures !DistinctLabels(s)
  {
    SameLabels(c, s[k - 1], s[k]);
  }

  lemma KeyNonempty(l: Labels)
    ensures Key(l) != ""
  {
    assert NUL in Key(l);
  }

  lemma NamedNonempty(c: Contracts, s: Sample)
    requires WellNamed(c) && ValidSample(c, s)
    ensures s.labels.name != ""
  {
  }

  lemma SameLabels(c: Contracts, a: Sample, b: Sample)
    requires WellNamed(c) && ValidSample(c, a) && ValidSample(c, b) && Key(a.labels) == Key(b.labels)
    ensures a.labels == b.labels
  {
    hide Key;
    AllowedIsPlain(c, a.labels);
    AllowedIsPlain(c, b.labels);
    KeyInjective(a.labels, b.labels);
  }

  /** Sorting loses and adds nothing. */
  lemma Reordered(c: Contracts, samples: seq<Sample>)
    ensures var s := Sort(KeyLess, samples);
      && NonDecreasing(KeyLess, s) && (AllValid(c, s) <==> AllValid(c, samples))
      && (DistinctLabels(s) <==> DistinctLabels(samples))
      && forall n :: Occurs(s, n) <==> Occurs(samples, n)
  {
    hide KeyLess, ValidSample, DistinctLabels, Sort;
    KeyOrder();
    SortSorts(KeyLess, samples);
    SortKeepsElements(KeyLess, samples);
    var s := Sort(KeyLess, samples);
    ReorderedDistinct(s, samples);
    assert forall k | 0 <= k < |s| :: s[k] in samples;
    assert forall k | 0 <= k < |samples| :: samples[k] in s;
  }

  /** `render`: refused exactly when empty, too long, invalid or with a repeated key; otherwise the sorted
      samples, each family under one header. */
  method Render(c: Contracts, samples: seq<Sample>) returns (r: Option<seq<Line>>)
    requires WellNamed(c)
    ensures r.Some? <==> 0 < |samples| <= 512 && Admissible(c, samples) && DistinctLabels(samples)
    ensures r.Some? ==> r.value == Lines(Sort(KeyLess, samples)) + [End]
    ensures r.Some? ==> multiset(RowsOf(r.value)) == multiset(samples) && NonDecreasing(KeyLess, RowsOf(r.value))
    ensures r.Some? ==> forall n :: multiset(r.value)[Header(n)] == if Occurs(samples, n) then 1 else 0
    ensures r.Some? ==> forall i | 0 <= i < |r.value| :: UnderHeader(r.value, i)
  {
    hide KeyLess, WellNamed, ValidSample, Sort, Lines, UnderHeader, Occurs, DistinctLabels, Admissible, RowsOf;
    ValidIsAdmissible(c, samples);
    if |samples| == 0 || |samples| > MAX_SAMPLES {
      return None;
    }
    var ordered := Sort(KeyLess, samples);
    Reordered(c, samples);
    var ok, lines := RenderOrdered(c, ordered);
    if !ok {
      return None;
    }
    r := Some(lines + [End]);
    RowsAreSamples(ordered);
    RowsSnoc(lines, End);
    Finished(c, ordered);
  }

  lemma Finished(c: Contracts, s: seq<Sample>)
    requires WellNamed(c) && NonDecreasing(KeyLess, s) && AllValid(c, s)
    ensures forall n :: multiset(Lines(s) + [End])[Header(n)] == if Occurs(s, n) then 1 else 0
    ensures forall i | 0 <= i < |Lines(s) + [End]| :: UnderHeader(Lines(s) + [End], i)
  {
    hide KeyLess, Lines, Occurs;
    PlainSamples(c, s);
    var all := Lines(s) + [End];
    forall n ensures multiset(all)[Header(n)] == if Occurs(s, n) then 1 else 0 {
      OneHeader(s, n);
    }
    RowsUnderHeaders(s);
    forall i | 0 <= i < |all| ensures UnderHeader(all, i) {
      if i < |Lines(s)| {
        UnderHeaderGrows(Lines(s), [End], i);
      }
    }
  }
}
