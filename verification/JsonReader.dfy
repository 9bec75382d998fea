/** A reader of compact JSON texts (RFC 8259 without white space, numbers without sign, fraction or exponent), and
    the proof that it reads back whatever the canonical printer writes. */
module JsonReader {
  import opened Prelude
  import opened Encoding
  import opened Json

  /** How many digits a text begins with. */
  function DigitCount(t: string): (n: nat)
    ensures n <= |t| && (forall k | 0 <= k < n :: IsDigit(t[k])) && (n < |t| ==> !IsDigit(t[n]))
  {
    if t == [] || !IsDigit(t[0]) then 0 else 1 + DigitCount(t[1..])
  }

  function ReadNumber(t: string): (r: Option<(Value, string)>)
    ensures r.Some? ==> |r.value.1| < |t|
  {
    var n := DigitCount(t);
    if n == 0 || (n > 1 && t[0] == '0') then None else Some((Num(Atoi(t[..n])), t[n..]))
  }

  function ReadValue(t: string): (r: Option<(Value, string)>)
    ensures r.Some? ==> |r.value.1| < |t|
    decreases |t|, 1
  {
    if t == [] then None
    else if t[0] == '"' then
      var s := ReadString(t);
      if s.None? then None else Some((Str(s.value.0), s.value.1))
    else if t[0] == '[' then
      if |t| > 1 && t[1] == ']' then Some((Arr([]), t[2..]))
      else
        var items := ReadItems(t[1..]);
        if items.None? then None else Some((Arr(items.value.0), items.value.1))
    else if t[0] == '{' then
      if |t| > 1 && t[1] == '}' then Some((Obj([]), t[2..]))
      else
        var members := ReadMembers(t[1..]);
        if members.None? then None else Some((Obj(members.value.0), members.value.1))
    else if "null" <= t then Some((Null, t[4..]))
    else if "true" <= t then Some((Bool(true), t[4..]))
    else if "false" <= t then Some((Bool(false), t[5..]))
    else ReadNumber(t)
  }

  /** Values separated by commas up to the closing bracket. */
  function ReadItems(t: string): (r: Option<(seq<Value>, string)>)
    ensures r.Some? ==> |r.value.1| < |t|
    decreases |t|, 2
  {
    var v := ReadValue(t);
    if v.None? || v.value.1 == [] then None
    else if v.value.1[0] == ']' then Some(([v.value.0], v.value.1[1..]))
    else if v.value.1[0] != ',' then None
    else
      var rest := ReadItems(v.value.1[1..]);
      if rest.None? then None else Some(([v.value.0] + rest.value.0, rest.value.1))
  }

  /** Keys and values separated by commas up to the closing brace. */
  function ReadMembers(t: string): (r: Option<(seq<Member>, string)>)
    ensures r.Some? ==> |r.value.1| < |t|
    decreases |t|, 2
  {
    var k := ReadString(t);
    if k.None? || k.value.1 == [] || k.value.1[0] != ':' then None
    else
      var v := ReadValue(k.value.1[1..]);
      if v.None? || v.value.1 == [] then None
      else if v.value.1[0] == '}' then Some(([Member(k.value.0, v.value.0)], v.value.1[1..]))
      else if v.value.1[0] != ',' then None
      else
        var rest := ReadMembers(v.value.1[1..]);
        if rest.None? then None else Some(([Member(k.value.0, v.value.0)] + rest.value.0, rest.value.1))
  }

  // ---- what is printed is read back ----

  lemma {:induction false} CountDigits(p: string, u: string)
    requires (forall k | 0 <= k < |p| :: IsDigit(p[k])) && (u == [] || !IsDigit(u[0]))
    ensures DigitCount(p + u) == |p|
  {
    if p == [] {
      assert p + u == u;
    } else {
      assert (p + u)[0] == p[0] && (p + u)[1..] == p[1..] + u;
      CountDigits(p[1..], u);
    }
  }

  lemma NumberBack(n: nat, u: string)
    requires Stops(u)
    ensures ReadNumber(Itoa(n) + u) == Some((Num(n), u))
  {
    hide Itoa, Atoi, DigitCount;
    var t, k := Itoa(n) + u, |Itoa(n)|;
    CountDigits(Itoa(n), u);
    assert t[..k] == Itoa(n) && t[k..] == u && t[0] == Itoa(n)[0];
    AtoiItoa(n);
    NoLeadingZero(n);
  }

  lemma NoLeadingZero(n: nat)
    ensures Itoa(n) != "" && (|Itoa(n)| > 1 ==> Itoa(n)[0] != '0')
  {
  }

  lemma LeafBack(v: Value, u: string)
    requires Stops(u) && !v.Arr? && !v.Obj?
    ensures ReadValue(Print(v) + u) == Some((v, u))
  {
    hide Itoa, Quote, ReadString, ReadNumber;
    var t := Print(v) + u;
    PrintHead(v);
    assert t[0] == Print(v)[0];
    match v {
      case Null => assert t[4..] == u;
      case Bool(b) => if b { assert t[4..] == u; } else { assert t[5..] == u; }
      case Str(s) => QuoteReadsBack(s, u);
      case Num(n) => NumberBack(n, u);
    }
  }

  lemma CommaItems(items: seq<Value>)
    requires items != []
    ensures PrintItems(items, false) == "," + PrintItems(items, true)
  {
  }

  lemma CommaMembers(members: seq<Member>)
    requires members != []
    ensures PrintMembers(members, false) == "," + PrintMembers(members, true)
  {
    hide Quote, Print;
    var key, value, rest := Quote(members[0].key), Print(members[0].value), PrintMembers(members[1..], false);
    assert "," + key + ":" + value + rest == "," + ("" + key + ":" + value + rest);
  }

  /** Reading what the printer wrote gives the value back, whatever follows it in a document. */
  lemma {:induction false} PrintReadsBack(v: Value, u: string)
    requires Stops(u)
    ensures ReadValue(Print(v) + u) == Some((v, u))
    decreases v, 1
  {
    var t := Print(v) + u;
    match v {
      case Arr(items) =>
        ArrBody(items, u);
        ItemsEmpty(items, true, u);
        hide ReadItems, PrintItems;
        assert t[0] == '[' && t[1..][0] == t[1];
        if items == [] {
          assert t[2..] == t[1..][1..] == u by { EmptyItems(u); }
        } else {
          ItemsReadBack(items, u);
        }
      case Obj(members) =>
        ObjBody(members, u);
        MembersEmpty(members, true, u);
        hide ReadMembers, PrintMembers;
        assert t[0] == '{' && t[1..][0] == t[1];
        if members == [] {
          assert t[2..] == t[1..][1..] == u by { EmptyMembers(u); }
        } else {
          MembersReadBack(members, u);
        }
      case _ => LeafBack(v, u);
    }
  }

  lemma EmptyItems(u: string)
    ensures (PrintItems([], true) + ("]" + u))[1..] == u
  {
  }

  lemma EmptyMembers(u: string)
    ensures (PrintMembers([], true) + ("}" + u))[1..] == u
  {
  }

  lemma ReadItemsStep(t: string, v: Value, tail: string)
    requires ReadValue(t) == Some((v, tail)) && tail != []
    ensures tail[0] == ']' ==> ReadItems(t) == Some(([v], tail[1..]))
    ensures tail[0] == ',' && ReadItems(tail[1..]).Some? ==>
      var rest := ReadItems(tail[1..]).value; ReadItems(t) == Some(([v] + rest.0, rest.1))
  {
    hide ReadValue;
  }

  lemma {:induction false} ItemsReadBack(items: seq<Value>, u: string)
    requires items != []
    ensures ReadItems(PrintItems(items, true) + ("]" + u)) == Some((items, u))
    decreases items, 0
  {
    hide Print, ReadValue, ReadItems;
    var rest := items[1..];
    var tail := PrintItems(rest, false) + ("]" + u);
    var all := PrintItems(items, true) + ("]" + u);
    ItemsUnfold(items, true, u);
    assert all == Print(items[0]) + tail;
    ItemsStop(rest, u);
    PrintReadsBack(items[0], tail);
    ReadItemsStep(all, items[0], tail);
    assert [items[0]] + rest == items;
    if rest == [] {
      assert tail == "]" + u && tail[1..] == u && items == [items[0]];
    } else {
      CommaItems(rest);
      hide PrintItems;
      var more := PrintItems(rest, true) + ("]" + u);
      assert tail == "," + more && tail[1..] == more;
      ItemsReadBack(rest, u);
    }
  }

  lemma NoMembers(members: seq<Member>)
    requires members == []
    ensures PrintMembers(members, false) == ""
  {
  }

  lemma ReadMembersStep(t: string, key: string, after: string, v: Value, tail: string)
    requires ReadString(t) == Some((key, after)) && after != [] && after[0] == ':'
    requires ReadValue(after[1..]) == Some((v, tail)) && tail != []
    ensures tail[0] == '}' ==> ReadMembers(t) == Some(([Member(key, v)], tail[1..]))
    ensures tail[0] == ',' && ReadMembers(tail[1..]).Some? ==>
      var rest := ReadMembers(tail[1..]).value; ReadMembers(t) == Some(([Member(key, v)] + rest.0, rest.1))
  {
    hide ReadValue, ReadString;
  }

  lemma {:induction false} MembersReadBack(members: seq<Member>, u: string)
    requires members != []
    ensures ReadMembers(PrintMembers(members, true) + ("}" + u)) == Some((members, u))
    decreases members, 0
  {
    hide *;
    var key, value, rest := members[0].key, members[0].value, members[1..];
    var tail := PrintMembers(rest, false) + ("}" + u);
    var all, after := PrintMembers(members, true) + ("}" + u), ":" + (Print(value) + tail);
    MembersUnfold(members, true, u);
    assert all == Quote(key) + after && after[1..] == Print(value) + tail;
    MembersStop(rest, u);
    PrintReadsBack(value, tail);
    QuoteReadsBack(key, after);
    ReadMembersStep(all, key, after, value, tail);
    assert members[0] == Member(key, value) && [members[0]] + rest == members;
    if rest == [] {
      NoMembers(rest);
      assert tail == "}" + u && tail[1..] == u && members == [members[0]];
    } else {
      CommaMembers(rest);
      var more := PrintMembers(rest, true) + ("}" + u);
      assert tail == "," + more && tail[1..] == more;
      MembersReadBack(rest, u);
    }
  }
}
