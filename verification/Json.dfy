/** Value trees and the canonical printer of `internal/demohistory/json.go`.
    The evidence snapshot of `internal/correlation/snapshot.go` is printed by the same rules. */
module Json {
  import opened Encoding

  datatype Member = Member(key: string, value: Value)

  /** A decoded document. Numbers are the unsigned integers the contract admits. */
  datatype Value =
    | Null
    | Bool(b: bool)
    | Str(s: string)
    | Num(n: nat)
    | Arr(items: seq<Value>)
    | Obj(members: seq<Member>)

  function Print(v: Value): (r: string)
    ensures r != []
    decreases v, 1
  {
    match v
    case Null => "null"
    case Bool(b) => if b then "true" else "false"
    case Str(s) => Quote(s)
    case Num(n) => Itoa(n)
    case Arr(items) => "[" + PrintItems(items, true) + "]"
    case Obj(members) => "{" + PrintMembers(members, true) + "}"
  }

  function PrintItems(items: seq<Value>, first: bool): (r: string)
    decreases items, 0
  {
    if items == [] then ""
    else (if first then "" else ",") + Print(items[0]) + PrintItems(items[1..], false)
  }

  function PrintMembers(members: seq<Member>, first: bool): (r: string)
    decreases members, 0
  {
    if members == [] then ""
    else (if first then "" else ",") + Quote(members[0].key) + ":" + Print(members[0].value)
         + PrintMembers(members[1..], false)
  }

  /** Text that can follow a value inside a document: it never continues a number. */
  ghost predicate Stops(u: string) { u == [] || u[0] in {',', ']', '}'} }

  /** The first character of a printed value tells its kind. */
  lemma PrintHead(v: Value)
    ensures v.Null? <==> Print(v)[0] == 'n'
    ensures v.Bool? && v.b <==> Print(v)[0] == 't'
    ensures v.Bool? && !v.b <==> Print(v)[0] == 'f'
    ensures v.Str? <==> Print(v)[0] == '"'
    ensures v.Num? <==> IsDigit(Print(v)[0])
    ensures v.Arr? <==> Print(v)[0] == '['
    ensures v.Obj? <==> Print(v)[0] == '{'
  {
  }

  lemma SameKind(a: Value, b: Value, u: string, v: string)
    requires Print(a) + u == Print(b) + v
    ensures a.Null? == b.Null? && a.Bool? == b.Bool? && a.Str? == b.Str?
    ensures a.Num? == b.Num? && a.Arr? == b.Arr? && a.Obj? == b.Obj?
    ensures a.Bool? ==> a == b
  {
    PrintHead(a);
    PrintHead(b);
    assert (Print(a) + u)[0] == Print(a)[0];
    assert (Print(b) + v)[0] == Print(b)[0];
  }

  /** Printed trees split uniquely: the text fixes the tree and where it ends. */
  lemma {:induction false} PrintSplit(a: Value, b: Value, u: string, v: string)
    requires Stops(u) && Stops(v)
    requires Print(a) + u == Print(b) + v
    ensures a == b && u == v
    decreases a, 1
  {
    SameKind(a, b, u, v);
    if a.Arr? {
      ArrBody(a.items, u);
      ArrBody(b.items, v);
      ItemsSplit(a.items, b.items, true, u, v);
    } else if a.Obj? {
      ObjBody(a.members, u);
      ObjBody(b.members, v);
      MembersSplit(a.members, b.members, true, u, v);
    } else {
      LeafSplit(a, b, u, v);
    }
  }

  lemma ArrBody(items: seq<Value>, u: string)
    ensures (Print(Arr(items)) + u)[1..] == PrintItems(items, true) + ("]" + u)
  {
    assert Print(Arr(items)) == "[" + PrintItems(items, true) + "]";
  }

  lemma ObjBody(members: seq<Member>, u: string)
    ensures (Print(Obj(members)) + u)[1..] == PrintMembers(members, true) + ("}" + u)
  {
    assert Print(Obj(members)) == "{" + PrintMembers(members, true) + "}";
  }

  lemma LeafSplit(a: Value, b: Value, u: string, v: string)
    requires !a.Arr? && !a.Obj?
    requires Stops(u) && Stops(v)
    requires Print(a) + u == Print(b) + v
    ensures a == b && u == v
  {
    SameKind(a, b, u, v);
    if a.Str? {
      QuoteSplit(a.s, b.s, u, v);
    } else if a.Num? {
      DigitsSplit(Itoa(a.n), Itoa(b.n), u, v);
      ItoaInjective(a.n, b.n);
    } else {
      var n := |Print(a)|;
      assert (Print(a) + u)[n..] == u && (Print(b) + v)[n..] == v;
    }
  }

  lemma {:induction false} ItemsUnfold(items: seq<Value>, first: bool, u: string)
    requires items != []
    ensures PrintItems(items, first) + ("]" + u)
         == (if first then "" else ",") + (Print(items[0]) + (PrintItems(items[1..], false) + ("]" + u)))
  {
    var sep, value, rest := if first then "" else ",", Print(items[0]), PrintItems(items[1..], false);
    assert PrintItems(items, first) == sep + value + rest;
    hide *;
    Regroup(sep, value, rest, "", "", "]" + u);
    assert sep + value + rest + "" + "" + ("]" + u) == sep + value + rest + ("]" + u);
    assert rest + ("" + ("" + ("]" + u))) == rest + ("]" + u);
  }

  lemma ItemsStop(items: seq<Value>, u: string)
    ensures Stops(PrintItems(items, false) + ("]" + u))
  {
    assert items != [] ==> PrintItems(items, false)[0] == ',';
  }

  lemma ItemsEmpty(items: seq<Value>, first: bool, u: string)
    ensures items == [] <==> (PrintItems(items, first) + ("]" + u))[0] == ']'
  {
    if items != [] {
      PrintHead(items[0]);
      assert PrintItems(items, first)[0] == if first then Print(items[0])[0] else ',';
    }
  }

  lemma {:induction false} ItemsSplit(xs: seq<Value>, ys: seq<Value>, first: bool, u: string, v: string)
    requires PrintItems(xs, first) + ("]" + u) == PrintItems(ys, first) + ("]" + v)
    ensures xs == ys && u == v
    decreases xs, 0
  {
    var x, y := PrintItems(xs, first) + ("]" + u), PrintItems(ys, first) + ("]" + v);
    ItemsEmpty(xs, first, u);
    ItemsEmpty(ys, first, v);
    if xs == [] {
      assert x[1..] == u && y[1..] == v;
    } else {
      ItemsUnfold(xs, first, u);
      ItemsUnfold(ys, first, v);
      ItemsStop(xs[1..], u);
      ItemsStop(ys[1..], v);
      var tx := PrintItems(xs[1..], false) + ("]" + u);
      var ty := PrintItems(ys[1..], false) + ("]" + v);
      var k := if first then 0 else 1;
      assert x[k..] == Print(xs[0]) + tx && y[k..] == Print(ys[0]) + ty;
      PrintSplit(xs[0], ys[0], tx, ty);
      ItemsSplit(xs[1..], ys[1..], false, u, v);
      assert xs == [xs[0]] + xs[1..] && ys == [ys[0]] + ys[1..];
    }
  }

  lemma Regroup(a: string, b: string, c: string, d: string, e: string, t: string)
    ensures a + b + c + d + e + t == a + (b + (c + (d + (e + t))))
  {
  }

  lemma {:induction false} MembersUnfold(members: seq<Member>, first: bool, u: string)
    requires members != []
    ensures PrintMembers(members, first) + ("}" + u)
         == (if first then "" else ",")
            + (Quote(members[0].key)
               + (":" + (Print(members[0].value) + (PrintMembers(members[1..], false) + ("}" + u)))))
  {
    var sep, key := if first then "" else ",", Quote(members[0].key);
    var value, rest := Print(members[0].value), PrintMembers(members[1..], false);
    assert PrintMembers(members, first) == sep + key + ":" + value + rest;
    Regroup(sep, key, ":", value, rest, "}" + u);
  }

  lemma MembersStop(members: seq<Member>, u: string)
    ensures Stops(PrintMembers(members, false) + ("}" + u))
  {
    assert members != [] ==> PrintMembers(members, false)[0] == ',';
  }

  lemma MembersEmpty(members: seq<Member>, first: bool, u: string)
    ensures members == [] <==> (PrintMembers(members, first) + ("}" + u))[0] == '}'
  {
    if members != [] {
      assert PrintMembers(members, first)[0] == if first then Quote(members[0].key)[0] else ',';
    }
  }

  lemma {:induction false} MembersSplit(xs: seq<Member>, ys: seq<Member>, first: bool, u: string, v: string)
    requires PrintMembers(xs, first) + ("}" + u) == PrintMembers(ys, first) + ("}" + v)
    ensures xs == ys && u == v
    decreases xs, 0
  {
    var x, y := PrintMembers(xs, first) + ("}" + u), PrintMembers(ys, first) + ("}" + v);
    MembersEmpty(xs, first, u);
    MembersEmpty(ys, first, v);
    if xs == [] {
      assert x[1..] == u && y[1..] == v;
    } else {
      MembersUnfold(xs, first, u);
      MembersUnfold(ys, first, v);
      MembersStop(xs[1..], u);
      MembersStop(ys[1..], v);
      var tx := PrintMembers(xs[1..], false) + ("}" + u);
      var ty := PrintMembers(ys[1..], false) + ("}" + v);
      var vx, vy := Print(xs[0].value) + tx, Print(ys[0].value) + ty;
      var k := if first then 0 else 1;
      assert x[k..] == Quote(xs[0].key) + (":" + vx) && y[k..] == Quote(ys[0].key) + (":" + vy);
      QuoteSplit(xs[0].key, ys[0].key, ":" + vx, ":" + vy);
      assert (":" + vx)[1..] == vx && (":" + vy)[1..] == vy;
      PrintSplit(xs[0].value, ys[0].value, tx, ty);
      MembersSplit(xs[1..], ys[1..], false, u, v);
      assert xs == [xs[0]] + xs[1..] && ys == [ys[0]] + ys[1..];
    }
  }

  /** The printer is injective on value trees. */
  lemma PrintInjective(a: Value, b: Value)
    requires Print(a) == Print(b)
    ensures a == b
  {
    assert Print(a) + [] == Print(a) && Print(b) + [] == Print(b);
    PrintSplit(a, b, [], []);
  }

  // ---- printing piece by piece ----

  lemma ItemsFrom(items: seq<Value>, k: nat)
    requires k < |items|
    ensures PrintItems(items[k..], k == 0) ==
      (if k == 0 then "" else ",") + Print(items[k]) + PrintItems(items[k + 1..], false)
  {
    assert items[k..][0] == items[k] && items[k..][1..] == items[k + 1..];
  }

  lemma Shift(before: string, sep: string, text: string, rest: string)
    ensures before + sep + text + rest == before + (sep + text + rest)
  {
  }

  lemma Close(buffer: string, open: string, body: string, close: string)
    ensures buffer + open + body + close == buffer + (open + body + close)
  {
  }

  lemma ItemsAround(items: seq<Value>)
    ensures items[0..] == items && PrintItems(items[|items|..], false) == "" && PrintItems(items[|items|..], true) == ""
    ensures Print(Arr(items)) == "[" + PrintItems(items, true) + "]"
  {
  }

  lemma MembersFrom(members: seq<Member>, k: nat)
    requires k < |members|
    ensures PrintMembers(members[k..], k == 0) ==
      (if k == 0 then "" else ",") + Quote(members[k].key) + ":" + Print(members[k].value)
      + PrintMembers(members[k + 1..], false)
  {
    assert members[k..][0] == members[k] && members[k..][1..] == members[k + 1..];
  }

  lemma MembersAround(members: seq<Member>)
    ensures members[0..] == members && PrintMembers(members[|members|..], false) == ""
      && PrintMembers(members[|members|..], true) == ""
    ensures Print(Obj(members)) == "{" + PrintMembers(members, true) + "}"
  {
  }
}
