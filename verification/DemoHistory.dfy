/** The strict document check and the canonical form of `internal/demohistory/json.go`. A document is the tree
    behind its token stream: members in written order, numbers as written. */
module DemoHistory {
  import opened Prelude
  import opened Order
  import opened Encoding
  import opened Json

  const MAX_DEPTH := 16

  datatype DocMember = DocMember(key: string, doc: Doc)

  datatype Doc =
    | DNull
    | DBool(b: bool)
    | DStr(s: string)
    | DNum(text: string)
    | DArr(docs: seq<Doc>)
    | DObj(fields: seq<DocMember>)

  datatype Token = NullToken | BoolToken(b: bool) | StrToken(s: string) | NumToken(text: string) | Delim(c: char)

  // ---- the token stream of a document ----

  function Tokens(d: Doc): (r: seq<Token>)
    ensures r != []
    decreases d, 1
  {
    match d
    case DNull => [NullToken]
    case DBool(b) => [BoolToken(b)]
    case DStr(s) => [StrToken(s)]
    case DNum(text) => [NumToken(text)]
    case DArr(docs) => [Delim('[')] + ItemTokens(docs) + [Delim(']')]
    case DObj(fields) => [Delim('{')] + FieldTokens(fields) + [Delim('}')]
  }

  function ItemTokens(docs: seq<Doc>): (r: seq<Token>)
    decreases docs, 0
  {
    if docs == [] then [] else Tokens(docs[0]) + ItemTokens(docs[1..])
  }

  function FieldTokens(fields: seq<DocMember>): (r: seq<Token>)
    decreases fields, 0
  {
    if fields == [] then [] else [StrToken(fields[0].key)] + Tokens(fields[0].doc) + FieldTokens(fields[1..])
  }

  // ---- what the check asks of the tree ----

  /** `strconv.ParseUint` with base 10 and 64 bits. */
  function ParseUint(text: string): (r: Option<nat>) {
    if text != [] && (forall k | 0 <= k < |text| :: IsDigit(text[k])) && Atoi(text) < 0x1_0000_0000_0000_0000
    then Some(Atoi(text)) else None
  }

  predicate CanonicalNumber(text: string) {
    var v := ParseUint(text);
    v.Some? && v.value <= MAX_SAFE_INTEGER && Itoa(v.value) == text
  }

  /** A number is canonical exactly when it is the plain decimal of an integer below 2 to the 53. */
  lemma CanonicalNumberMeans(text: string)
    ensures CanonicalNumber(text) <==> exists n: nat :: n < 0x20_0000_0000_0000 && text == Itoa(n)
  {
    if CanonicalNumber(text) {
      assert text == Itoa(ParseUint(text).value);
    }
    if n: nat :| n < 0x20_0000_0000_0000 && text == Itoa(n) {
      AtoiItoa(n);
    }
  }

  /** Shallow enough, numbers canonical, no key twice in an object. */
  predicate Strict(d: Doc, depth: nat)
    decreases d, 1
  {
    depth <= 16
    && match d
       case DNum(text) => CanonicalNumber(text)
       case DArr(docs) => StrictItems(docs, depth)
       case DObj(fields) => StrictFields(fields, {}, depth)
       case _ => true
  }

  predicate StrictItems(docs: seq<Doc>, depth: nat)
    decreases docs, 0
  {
    docs == [] || (Strict(docs[0], depth + 1) && StrictItems(docs[1..], depth))
  }

  predicate StrictFields(fields: seq<DocMember>, seen: set<string>, depth: nat)
    decreases fields, 0
  {
    fields == []
    || (fields[0].key !in seen && Strict(fields[0].doc, depth + 1)
        && StrictFields(fields[1..], seen + {fields[0].key}, depth))
  }

  // ---- consumeStrictJSON on the stream ----

  function Consume(token: Token, rest: seq<Token>, depth: nat): (r: Option<seq<Token>>)
    ensures r.Some? ==> |r.value| <= |rest|
    decreases |rest|, 1
  {
    if depth > MAX_DEPTH then None
    else match token
      case NumToken(text) => if CanonicalNumber(text) then Some(rest) else None
      case Delim(c) =>
        if c == '{' then ConsumeFields(rest, {}, depth) else if c == '[' then ConsumeItems(rest, depth) else None
      case _ => Some(rest)
  }

  predicate More(rest: seq<Token>) { rest != [] && rest[0] != Delim('}') && rest[0] != Delim(']') }

  function ConsumeFields(rest: seq<Token>, seen: set<string>, depth: nat): (r: Option<seq<Token>>)
    ensures r.Some? ==> |r.value| <= |rest|
    decreases |rest|, 0
  {
    if !More(rest) then (if rest != [] && rest[0] == Delim('}') then Some(rest[1..]) else None)
    else if !rest[0].StrToken? || rest[0].s in seen || |rest| < 2 then None
    else
      var r := Consume(rest[1], rest[2..], depth + 1);
      if r.None? then None else ConsumeFields(r.value, seen + {rest[0].s}, depth)
  }

  function ConsumeItems(rest: seq<Token>, depth: nat): (r: Option<seq<Token>>)
    ensures r.Some? ==> |r.value| <= |rest|
    decreases |rest|, 0
  {
    if !More(rest) then (if rest != [] && rest[0] == Delim(']') then Some(rest[1..]) else None)
    else
      var r := Consume(rest[0], rest[1..], depth + 1);
      if r.None? then None else ConsumeItems(r.value, depth)
  }

  /** The loops of `consumeStrictJSON`. */
  method ConsumeStrict(token: Token, rest: seq<Token>, depth: nat) returns (r: Option<seq<Token>>)
    ensures r == Consume(token, rest, depth)
    decreases |rest|
  {
    if depth > MAX_DEPTH {
      return None;
    }
    match token {
      case NumToken(text) => return if CanonicalNumber(text) then Some(rest) else None;
      case Delim(c) =>
        if c == '{' {
          var left, seen := rest, {};
          while More(left)
            invariant |left| <= |rest| && ConsumeFields(left, seen, depth) == ConsumeFields(rest, {}, depth)
            decreases |left|
          {
            if !left[0].StrToken? || left[0].s in seen || |left| < 2 {
              return None;
            }
            seen := seen + {left[0].s};
            var next := ConsumeStrict(left[1], left[2..], depth + 1);
            if next.None? {
              return None;
            }
            left := next.value;
          }
          return if left != [] && left[0] == Delim('}') then Some(left[1..]) else None;
        } else if c == '[' {
          var left := rest;
          while More(left)
            invariant |left| <= |rest| && ConsumeItems(left, depth) == ConsumeItems(rest, depth)
            decreases |left|
          {
            var next := ConsumeStrict(left[0], left[1..], depth + 1);
            if next.None? {
              return None;
            }
            left := next.value;
          }
          return if left != [] && left[0] == Delim(']') then Some(left[1..]) else None;
        } else {
          return None;
        }
      case _ => return Some(rest);
    }
  }

  /** The tokens are those of a strict object and nothing more. */
  ghost predicate StrictObject(tokens: seq<Token>, fields: seq<DocMember>) {
    tokens == Tokens(DObj(fields)) && Strict(DObj(fields), 0)
  }

  /** `validateStrictJSON`: accepts exactly the streams of strict objects, with nothing after the object. */
  method ValidateStrict(tokens: seq<Token>) returns (ok: bool)
    ensures ok <==> exists fields :: StrictObject(tokens, fields)
  {
    hide Consume, Tokens, Strict;
    ObjectStreams(tokens);
    if tokens == [] || tokens[0] != Delim('{') {
      return false;
    }
    var r := ConsumeStrict(tokens[0], tokens[1..], 0);
    ok := r == Some([]);
  }

  /** On the stream of a document the check succeeds exactly when the tree is strict, and stops behind it. */
  lemma {:induction false} CheckIsStrict(d: Doc, depth: nat, t: seq<Token>)
    ensures var all := Tokens(d) + t;
      all != [] && Consume(all[0], all[1..], depth) == if Strict(d, depth) then Some(t) else None
    decreases d, 1
  {
    var all := Tokens(d) + t;
    match d {
      case DArr(docs) =>
        assert all[1..] == ItemTokens(docs) + ([Delim(']')] + t);
        if depth <= MAX_DEPTH {
          ItemsAreStrict(docs, depth, t);
        }
      case DObj(fields) =>
        assert all[1..] == FieldTokens(fields) + ([Delim('}')] + t);
        if depth <= MAX_DEPTH {
          FieldsAreStrict(fields, {}, depth, t);
        }
      case _ => assert all[1..] == t;
    }
  }

  lemma {:induction false} ItemsAreStrict(docs: seq<Doc>, depth: nat, t: seq<Token>)
    ensures ConsumeItems(ItemTokens(docs) + ([Delim(']')] + t), depth)
         == if StrictItems(docs, depth) then Some(t) else None
    decreases docs, 0
  {
    var all := ItemTokens(docs) + ([Delim(']')] + t);
    if docs == [] {
      assert all[1..] == t;
    } else {
      var rest := ItemTokens(docs[1..]) + ([Delim(']')] + t);
      assert all == Tokens(docs[0]) + rest;
      CheckIsStrict(docs[0], depth + 1, rest);
      ItemsAreStrict(docs[1..], depth, t);
      FirstToken(docs[0]);
    }
  }

  lemma FirstToken(d: Doc)
    ensures More(Tokens(d))
  {
  }

  lemma {:induction false} FieldsAreStrict(fields: seq<DocMember>, seen: set<string>, depth: nat, t: seq<Token>)
    ensures ConsumeFields(FieldTokens(fields) + ([Delim('}')] + t), seen, depth)
         == if StrictFields(fields, seen, depth) then Some(t) else None
    decreases fields, 0
  {
    var all := FieldTokens(fields) + ([Delim('}')] + t);
    if fields == [] {
      assert all[1..] == t;
    } else {
      var rest := FieldTokens(fields[1..]) + ([Delim('}')] + t);
      assert all == [StrToken(fields[0].key)] + (Tokens(fields[0].doc) + rest);
      assert all[1..] == Tokens(fields[0].doc) + rest;
      CheckIsStrict(fields[0].doc, depth + 1, rest);
      FieldsAreStrict(fields[1..], seen + {fields[0].key}, depth, t);
      assert all[1..][0] == all[1] && all[1..][1..] == all[2..];
    }
  }

  /** Whatever the check accepts is the stream of a strict document: the tree can be rebuilt from it. */
  lemma {:induction false} AcceptedIsDocument(token: Token, rest: seq<Token>, depth: nat) returns (d: Doc)
    requires Consume(token, rest, depth).Some?
    ensures [token] + rest == Tokens(d) + Consume(token, rest, depth).value && Strict(d, depth)
    ensures d.DObj? <==> token == Delim('{')
    decreases |rest|, 1
  {
    match token {
      case NullToken => d := DNull;
      case BoolToken(b) => d := DBool(b);
      case StrToken(s) => d := DStr(s);
      case NumToken(text) => d := DNum(text);
      case Delim(c) =>
        if c == '{' {
          var fields := AcceptedFields(rest, {}, depth);
          d := DObj(fields);
        } else {
          var docs := AcceptedItems(rest, depth);
          d := DArr(docs);
        }
    }
  }

  lemma {:induction false} AcceptedItems(rest: seq<Token>, depth: nat) returns (docs: seq<Doc>)
    requires ConsumeItems(rest, depth).Some?
    ensures rest == ItemTokens(docs) + [Delim(']')] + ConsumeItems(rest, depth).value && StrictItems(docs, depth)
    decreases |rest|, 0
  {
    hide Consume, Tokens, Strict;
    if !More(rest) {
      docs := [];
      assert rest == [rest[0]] + rest[1..];
    } else {
      var left := Consume(rest[0], rest[1..], depth + 1).value;
      var first := AcceptedIsDocument(rest[0], rest[1..], depth + 1);
      var others := AcceptedItems(left, depth);
      docs := [first] + others;
      assert docs[1..] == others && rest == [rest[0]] + rest[1..];
    }
  }

  lemma {:induction false} AcceptedFields(rest: seq<Token>, seen: set<string>, depth: nat)
    returns (fields: seq<DocMember>)
    requires ConsumeFields(rest, seen, depth).Some?
    ensures rest == FieldTokens(fields) + [Delim('}')] + ConsumeFields(rest, seen, depth).value
    ensures StrictFields(fields, seen, depth)
    decreases |rest|, 0
  {
    hide Consume, Tokens, Strict;
    if !More(rest) {
      fields := [];
      assert rest == [rest[0]] + rest[1..];
    } else {
      var left := Consume(rest[1], rest[2..], depth + 1).value;
      var first := AcceptedIsDocument(rest[1], rest[2..], depth + 1);
      var others := AcceptedFields(left, seen + {rest[0].s}, depth);
      fields := [DocMember(rest[0].s, first)] + others;
      assert fields[1..] == others && rest == [rest[0]] + ([rest[1]] + rest[2..]);
    }
  }

  lemma ObjectStreams(tokens: seq<Token>)
    ensures (tokens != [] && tokens[0] == Delim('{') && Consume(tokens[0], tokens[1..], 0) == Some([]))
      <==> exists fields :: StrictObject(tokens, fields)
  {
    hide Consume, Strict;
    if tokens != [] && tokens[0] == Delim('{') && Consume(tokens[0], tokens[1..], 0) == Some([]) {
      var d := AcceptedIsDocument(tokens[0], tokens[1..], 0);
      assert [tokens[0]] + tokens[1..] == tokens && Tokens(d) + [] == Tokens(d);
      assert StrictObject(tokens, d.fields);
    }
    if fields :| StrictObject(tokens, fields) {
      CheckIsStrict(DObj(fields), 0, []);
      assert tokens + [] == tokens;
    }
  }

  // ---- the canonical form ----

  /** One key of the decoded Go map: its value, or none when the value cannot be printed. */
  datatype Slot = Slot(key: string, value: Option<Value>)

  predicate SlotLess(a: Slot, b: Slot) { StrLess(a.key, b.key) }

  predicate MemberLess(a: Member, b: Member) { StrLess(a.key, b.key) }

  /** Assigning to a map and keeping the keys sorted: a later value replaces an earlier one. */
  function Put(slots: seq<Slot>, x: Slot): (r: seq<Slot>) {
    if slots == [] then [x]
    else if StrLess(x.key, slots[0].key) then [x] + slots
    else if x.key == slots[0].key then [x] + slots[1..]
    else [slots[0]] + Put(slots[1..], x)
  }

  function Filled(slots: seq<Slot>): (r: Option<seq<Member>>)
    ensures r.Some? <==> forall k | 0 <= k < |slots| :: slots[k].value.Some?
    ensures r.Some? ==> |r.value| == |slots|
    ensures r.Some? ==> forall k | 0 <= k < |slots| :: r.value[k] == Member(slots[k].key, slots[k].value.value)
  {
    if slots == [] then Some([])
    else
      var rest := Filled(slots[1..]);
      if slots[0].value.None? || rest.None? then None
      else Some([Member(slots[0].key, slots[0].value.value)] + rest.value)
  }

  /** `canonicalJSON` up to printing: the value tree with sorted members, or none where it reports an error. */
  function Canon(d: Doc): (r: Option<Value>)
    decreases d, 1
  {
    match d
    case DNull => Some(Null)
    case DBool(b) => Some(Bool(b))
    case DStr(s) => Some(Str(s))
    case DNum(text) => if CanonicalNumber(text) then Some(Num(ParseUint(text).value)) else None
    case DArr(docs) =>
      var items := CanonItems(docs);
      if items.None? then None else Some(Arr(items.value))
    case DObj(fields) =>
      var members := Filled(Slots(fields));
      if members.None? then None else Some(Obj(members.value))
  }

  function CanonItems(docs: seq<Doc>): (r: Option<seq<Value>>)
    ensures r.Some? ==> |r.value| == |docs|
    decreases docs, 0
  {
    if docs == [] then Some([])
    else
      var first, rest := Canon(docs[0]), CanonItems(docs[1..]);
      if first.None? || rest.None? then None else Some([first.value] + rest.value)
  }

  /** The decoded map, sorted by key. */
  function Slots(fields: seq<DocMember>): (r: seq<Slot>)
    decreases fields, 0
  {
    if fields == [] then []
    else
      var n := |fields| - 1;
      Put(Slots(fields[..n]), Slot(fields[n].key, Canon(fields[n].doc)))
  }

  // ---- every strict document has a canonical form that keeps every member ----

  ghost predicate DistinctKeys(fields: seq<DocMember>) {
    forall i, j | 0 <= i < j < |fields| :: fields[i].key != fields[j].key
  }

  lemma {:induction false} StrictFieldsMeans(fields: seq<DocMember>, seen: set<string>, depth: nat)
    requires StrictFields(fields, seen, depth)
    ensures DistinctKeys(fields)
    ensures forall k | 0 <= k < |fields| :: fields[k].key !in seen && Strict(fields[k].doc, depth + 1)
  {
    if fields != [] {
      var rest := fields[1..];
      StrictFieldsMeans(rest, seen + {fields[0].key}, depth);
      assert forall k | 0 < k < |fields| :: fields[k] == rest[k - 1];
    }
  }

  /** Putting a new key adds it in order and keeps the rest. */
  lemma {:induction false} PutSorts(slots: seq<Slot>, x: Slot)
    requires Increasing(SlotLess, slots)
    ensures Increasing(SlotLess, Put(slots, x))
    ensures forall y :: y in Put(slots, x) <==> y == x || (y in slots && y.key != x.key)
  {
    StrLessOrder();
    if slots != [] {
      var rest := slots[1..];
      assert forall y | y in rest :: SlotLess(slots[0], y);
      if StrLess(x.key, slots[0].key) {
        assert forall y | y in slots :: SlotLess(x, y);
      } else if x.key != slots[0].key {
        PutSorts(rest, x);
        assert forall y | y in Put(rest, x) :: SlotLess(slots[0], y);
      }
    }
  }

  lemma {:induction false} PutGrows(slots: seq<Slot>, x: Slot)
    requires forall y | y in slots :: y.key != x.key
    ensures |Put(slots, x)| == |slots| + 1
  {
    if slots != [] {
      assert slots[0] in slots && forall y | y in slots[1..] :: y in slots;
      PutGrows(slots[1..], x);
    }
  }

  function SlotOf(f: DocMember): (r: Slot) { Slot(f.key, Canon(f.doc)) }

  /** With distinct keys the decoded map holds exactly the members, each once. */
  ghost predicate HoldsAll(fields: seq<DocMember>, slots: seq<Slot>) {
    && |slots| == |fields|
    && (forall k | 0 <= k < |fields| :: SlotOf(fields[k]) in slots)
    && (forall y | y in slots :: Has(fields, y))
  }

  lemma HoldsOneMore(fields: seq<DocMember>, slots: seq<Slot>, f: DocMember)
    requires HoldsAll(fields, slots) && Increasing(SlotLess, slots) && DistinctKeys(fields + [f])
    ensures HoldsAll(fields + [f], Put(slots, SlotOf(f)))
  {
    hide Canon, Put;
    var all, n := fields + [f], |fields|;
    forall y | y in slots ensures y.key != f.key {
      var k :| 0 <= k < n && y == SlotOf(fields[k]);
      assert all[k] == fields[k] && all[n] == f;
    }
    PutSorts(slots, SlotOf(f));
    PutGrows(slots, SlotOf(f));
    forall k | 0 <= k < |all| ensures SlotOf(all[k]) in Put(slots, SlotOf(f)) {
      assert k < n ==> all[k] == fields[k] && SlotOf(fields[k]) in slots;
    }
    forall y | y in Put(slots, SlotOf(f)) ensures Has(all, y) {
      if y == SlotOf(f) {
        assert y == SlotOf(all[n]);
      } else {
        var k :| 0 <= k < n && y == SlotOf(fields[k]);
        assert y == SlotOf(all[k]);
      }
    }
  }

  lemma {:induction false} SlotsAre(fields: seq<DocMember>)
    ensures Increasing(SlotLess, Slots(fields))
    ensures DistinctKeys(fields) ==> HoldsAll(fields, Slots(fields))
  {
    hide HoldsAll, Canon, Put, SlotLess;
    if fields == [] {
      NothingHeld();
    } else {
      var n := |fields| - 1;
      var front := fields[..n];
      SlotsAre(front);
      PutSorts(Slots(front), SlotOf(fields[n]));
      assert front + [fields[n]] == fields;
      if DistinctKeys(fields) {
        HoldsOneMore(front, Slots(front), fields[n]);
      }
    }
  }

  lemma NothingHeld()
    ensures HoldsAll([], [])
  {
  }

  lemma {:induction false} StrictHasCanon(d: Doc, depth: nat)
    requires Strict(d, depth)
    ensures Canon(d).Some?
    decreases d, 1
  {
    match d {
      case DArr(docs) => StrictItemsHaveCanon(docs, depth);
      case DObj(fields) =>
        StrictFieldsMeans(fields, {}, depth);
        SlotsAre(fields);
        forall k | 0 <= k < |fields| ensures Canon(fields[k].doc).Some? {
          StrictHasCanon(fields[k].doc, depth + 1);
        }
        forall i | 0 <= i < |Slots(fields)| ensures Slots(fields)[i].value.Some? {
          var y := Slots(fields)[i];
          assert y in Slots(fields);
          var k :| 0 <= k < |fields| && y == SlotOf(fields[k]);
        }
      case _ =>
    }
  }

  lemma {:induction false} StrictItemsHaveCanon(docs: seq<Doc>, depth: nat)
    requires StrictItems(docs, depth)
    ensures CanonItems(docs).Some?
    decreases docs, 0
  {
    if docs != [] {
      StrictHasCanon(docs[0], depth + 1);
      StrictItemsHaveCanon(docs[1..], depth);
    }
  }

  /** A strict object loses nothing: its canonical form has one member per field, with the field's own value. */
  lemma NoMemberLost(fields: seq<DocMember>, depth: nat)
    requires Strict(DObj(fields), depth)
    ensures Canon(DObj(fields)).Some? && Canon(DObj(fields)).value.Obj?
    ensures var members := Canon(DObj(fields)).value.members;
      && |members| == |fields| && Increasing(MemberLess, members)
      && forall k | 0 <= k < |fields| ::
           Canon(fields[k].doc).Some? && Member(fields[k].key, Canon(fields[k].doc).value) in members
  {
    StrictHasCanon(DObj(fields), depth);
    StrictFieldsMeans(fields, {}, depth);
    SlotsAre(fields);
    var slots := Slots(fields);
    var members := Filled(slots).value;
    forall i, j | 0 <= i < j < |members| ensures MemberLess(members[i], members[j]) {
      assert SlotLess(slots[i], slots[j]);
    }
    forall k | 0 <= k < |fields|
      ensures Canon(fields[k].doc).Some? && Member(fields[k].key, Canon(fields[k].doc).value) in members
    {
      var i :| 0 <= i < |slots| && slots[i] == SlotOf(fields[k]);
      assert members[i] == Member(fields[k].key, Canon(fields[k].doc).value);
    }
  }

  // ---- independence of member order ----

  /** The same document up to the order of members. */
  ghost predicate Same(a: Doc, b: Doc)
    decreases a, 1
  {
    if a.DArr? && b.DArr? then SameItems(a.docs, b.docs)
    else if a.DObj? && b.DObj? then SameFields(a.fields, b.fields)
    else a == b
  }

  ghost predicate SameItems(xs: seq<Doc>, ys: seq<Doc>)
    decreases xs, 0
  {
    |xs| == |ys| && forall k | 0 <= k < |xs| :: Same(xs[k], ys[k])
  }

  ghost predicate SameFields(xs: seq<DocMember>, ys: seq<DocMember>)
    decreases xs, 1
  {
    EachHasTwin(xs, ys) && EachIsTwin(xs, ys)
  }

  ghost predicate EachHasTwin(xs: seq<DocMember>, ys: seq<DocMember>)
    decreases xs, 0
  {
    forall i | 0 <= i < |xs| :: exists j :: 0 <= j < |ys| && Twin(xs[i], ys[j])
  }

  ghost predicate EachIsTwin(xs: seq<DocMember>, ys: seq<DocMember>)
    decreases xs, 0
  {
    forall j | 0 <= j < |ys| :: exists i :: 0 <= i < |xs| && Twin(xs[i], ys[j])
  }

  ghost predicate Twin(x: DocMember, y: DocMember)
    decreases x, 0
  {
    x.key == y.key && Same(x.doc, y.doc)
  }

  lemma {:induction false} OrderFree(a: Doc, b: Doc, depth: nat, other: nat)
    requires Strict(a, depth) && Strict(b, other) && Same(a, b)
    ensures Canon(a) == Canon(b)
    decreases a, 1
  {
    hide SameItems, SameFields, StrictItems, StrictFields, CanonItems, Slots;
    if a.DArr? && b.DArr? {
      ItemsOrderFree(a.docs, b.docs, depth, other);
    } else if a.DObj? && b.DObj? {
      FieldsOrderFree(a.fields, b.fields, depth, other);
    }
  }

  lemma {:induction false} ItemsOrderFree(xs: seq<Doc>, ys: seq<Doc>, depth: nat, other: nat)
    requires StrictItems(xs, depth) && StrictItems(ys, other) && SameItems(xs, ys)
    ensures CanonItems(xs) == CanonItems(ys)
    decreases xs, 0
  {
    if xs != [] {
      OrderFree(xs[0], ys[0], depth + 1, other + 1);
      ItemsOrderFree(xs[1..], ys[1..], depth, other);
    }
  }

  /** Every slot of `xs` is one of `ys`. */
  ghost predicate Covered(xs: seq<DocMember>, ys: seq<DocMember>) {
    forall i | 0 <= i < |xs| :: Has(ys, SlotOf(xs[i]))
  }

  ghost predicate Has(fields: seq<DocMember>, y: Slot) { exists k :: 0 <= k < |fields| && y == SlotOf(fields[k]) }

  lemma HeldCovered(xs: seq<DocMember>, ys: seq<DocMember>, a: seq<Slot>, b: seq<Slot>)
    requires HoldsAll(xs, a) && HoldsAll(ys, b) && Covered(xs, ys)
    ensures forall y | y in a :: y in b
  {
    hide SlotOf;
    forall y | y in a ensures y in b {
      var i :| 0 <= i < |xs| && y == SlotOf(xs[i]);
      var j :| 0 <= j < |ys| && y == SlotOf(ys[j]);
    }
  }

  lemma {:induction false} FieldsOrderFree(xs: seq<DocMember>, ys: seq<DocMember>, depth: nat, other: nat)
    requires StrictFields(xs, {}, depth) && StrictFields(ys, {}, other) && SameFields(xs, ys)
    ensures Slots(xs) == Slots(ys)
    decreases xs, 0
  {
    hide Slots, StrictFields, Strict, Canon, Twin, HoldsAll, DistinctKeys, SlotOf, SameFields, Covered;
    StrictFieldsMeans(xs, {}, depth);
    StrictFieldsMeans(ys, {}, other);
    forall i, j | 0 <= i < |xs| && 0 <= j < |ys| && Twin(xs[i], ys[j]) ensures SlotOf(ys[j]) == SlotOf(xs[i]) {
      TwinsAgree(xs[i], ys[j], depth, other);
    }
    CoversFrom(xs, ys);
    SlotsEqual(xs, ys);
  }

  lemma CoversFrom(xs: seq<DocMember>, ys: seq<DocMember>)
    requires SameFields(xs, ys)
    requires forall i, j | 0 <= i < |xs| && 0 <= j < |ys| && Twin(xs[i], ys[j]) :: SlotOf(ys[j]) == SlotOf(xs[i])
    ensures Covered(xs, ys) && Covered(ys, xs)
  {
    hide EachHasTwin, EachIsTwin, Covered, Twin, SlotOf;
    CoversAhead(xs, ys);
    CoversBehind(xs, ys);
  }

  lemma CoversAhead(xs: seq<DocMember>, ys: seq<DocMember>)
    requires EachHasTwin(xs, ys)
    requires forall i, j | 0 <= i < |xs| && 0 <= j < |ys| && Twin(xs[i], ys[j]) :: SlotOf(ys[j]) == SlotOf(xs[i])
    ensures Covered(xs, ys)
  {
    hide Twin, SlotOf;
    forall i | 0 <= i < |xs| ensures Has(ys, SlotOf(xs[i])) {
      var j :| 0 <= j < |ys| && Twin(xs[i], ys[j]);
      assert SlotOf(ys[j]) == SlotOf(xs[i]);
    }
  }

  lemma CoversBehind(xs: seq<DocMember>, ys: seq<DocMember>)
    requires EachIsTwin(xs, ys)
    requires forall i, j | 0 <= i < |xs| && 0 <= j < |ys| && Twin(xs[i], ys[j]) :: SlotOf(ys[j]) == SlotOf(xs[i])
    ensures Covered(ys, xs)
  {
    hide Twin, SlotOf;
    forall j | 0 <= j < |ys| ensures Has(xs, SlotOf(ys[j])) {
      var i :| 0 <= i < |xs| && Twin(xs[i], ys[j]);
      assert SlotOf(ys[j]) == SlotOf(xs[i]);
    }
  }

  lemma {:induction false} TwinsAgree(x: DocMember, y: DocMember, depth: nat, other: nat)
    requires Strict(x.doc, depth + 1) && Strict(y.doc, other + 1) && Twin(x, y)
    ensures SlotOf(x) == SlotOf(y)
    decreases x, 0
  {
    hide Strict, Canon, Same;
    OrderFree(x.doc, y.doc, depth + 1, other + 1);
  }

  lemma SlotsEqual(xs: seq<DocMember>, ys: seq<DocMember>)
    requires DistinctKeys(xs) && DistinctKeys(ys) && Covered(xs, ys) && Covered(ys, xs)
    ensures Slots(xs) == Slots(ys)
  {
    hide Slots, Canon, HoldsAll, DistinctKeys, Covered, SlotLess;
    SlotsAre(xs);
    SlotsAre(ys);
    HeldCovered(xs, ys, Slots(xs), Slots(ys));
    HeldCovered(ys, xs, Slots(ys), Slots(xs));
    SlotOrder();
    IncreasingUnique(SlotLess, Slots(xs), Slots(ys));
  }

  lemma SlotOrder()
    ensures Transitive(SlotLess) && Irreflexive(SlotLess)
  {
    StrLessOrder();
  }

  // ---- canonicalising twice ----

  /** The document that a printed value stands for. */
  function AsDoc(v: Value): (d: Doc)
    decreases v, 1
  {
    match v
    case Null => DNull
    case Bool(b) => DBool(b)
    case Str(s) => DStr(s)
    case Num(n) => DNum(Itoa(n))
    case Arr(items) => DArr(AsDocs(items))
    case Obj(members) => DObj(AsFields(members))
  }

  function AsDocs(items: seq<Value>): (r: seq<Doc>)
    ensures |r| == |items|
    decreases items, 0
  {
    if items == [] then [] else [AsDoc(items[0])] + AsDocs(items[1..])
  }

  function AsFields(members: seq<Member>): (r: seq<DocMember>)
    ensures |r| == |members| && forall k | 0 <= k < |r| :: r[k] == DocMember(members[k].key, AsDoc(members[k].value))
    decreases members, 0
  {
    if members == [] then [] else [DocMember(members[0].key, AsDoc(members[0].value))] + AsFields(members[1..])
  }

  /** Printed in canonical form: numbers in range and members in increasing key order. */
  ghost predicate Sorted(v: Value)
    decreases v, 1
  {
    match v
    case Num(n) => n <= MAX_SAFE_INTEGER
    case Arr(items) => forall k | 0 <= k < |items| :: Sorted(items[k])
    case Obj(members) => Increasing(MemberLess, members) && forall k | 0 <= k < |members| :: Sorted(members[k].value)
    case _ => true
  }

  lemma NumberBack(n: nat)
    requires n <= MAX_SAFE_INTEGER
    ensures CanonicalNumber(Itoa(n)) && ParseUint(Itoa(n)).value == n
  {
    AtoiItoa(n);
  }

  lemma {:induction false} PutLast(slots: seq<Slot>, x: Slot)
    requires forall y | y in slots :: SlotLess(y, x)
    ensures Put(slots, x) == slots + [x]
  {
    hide StrLess;
    StrLessOrder();
    if slots != [] {
      assert slots[0] in slots && forall y | y in slots[1..] :: y in slots;
      PutLast(slots[1..], x);
    }
  }

  /** A canonical value is its own canonical form. */
  lemma {:induction false} SortedIsFixed(v: Value)
    requires Sorted(v)
    ensures Canon(AsDoc(v)) == Some(v)
    decreases v, 1
  {
    hide CanonicalNumber, ParseUint, Itoa, Filled, Slots, AsFields, AsDocs, CanonItems;
    match v {
      case Num(n) => NumberBack(n);
      case Arr(items) => ItemsFixed(items);
      case Obj(members) =>
        MembersFixed(members);
        FilledBack(Slots(AsFields(members)), members);
      case _ =>
    }
  }

  lemma FilledBack(slots: seq<Slot>, members: seq<Member>)
    requires |slots| == |members| && forall k | 0 <= k < |slots| ::
      slots[k] == Slot(members[k].key, Some(members[k].value))
    ensures Filled(slots) == Some(members)
  {
    assert Filled(slots).value == members;
  }

  lemma {:induction false} ItemsFixed(items: seq<Value>)
    requires forall k | 0 <= k < |items| :: Sorted(items[k])
    ensures CanonItems(AsDocs(items)) == Some(items)
    decreases items, 0
  {
    hide Sorted, Canon, AsDoc;
    if items != [] {
      SortedIsFixed(items[0]);
      ItemsFixed(items[1..]);
      assert AsDocs(items)[1..] == AsDocs(items[1..]);
      assert [items[0]] + items[1..] == items;
    }
  }

  lemma {:induction false} MembersFixed(members: seq<Member>)
    requires Increasing(MemberLess, members) && forall k | 0 <= k < |members| :: Sorted(members[k].value)
    ensures var slots := Slots(AsFields(members));
      |slots| == |members| && forall k | 0 <= k < |slots| :: slots[k] == Slot(members[k].key, Some(members[k].value))
    decreases members, 0
  {
    hide Sorted, Canon, AsDoc, Put, MemberLess, AsFields;
    if members != [] {
      var n := |members| - 1;
      var front, fields := members[..n], AsFields(members);
      assert fields[..n] == AsFields(front);
      MembersFixed(front);
      SortedIsFixed(members[n].value);
      var slots, x := Slots(fields[..n]), Slot(members[n].key, Some(members[n].value));
      forall y | y in slots ensures SlotLess(y, x) {
        var k :| 0 <= k < n && slots[k] == y;
        MemberBefore(members, k, n);
      }
      PutLast(slots, x);
    }
  }

  lemma MemberBefore(members: seq<Member>, i: nat, j: nat)
    requires Increasing(MemberLess, members) && i < j < |members|
    ensures StrLess(members[i].key, members[j].key)
  {
    assert MemberLess(members[i], members[j]);
  }

  lemma {:induction false} CanonIsSorted(d: Doc)
    requires Canon(d).Some?
    ensures Sorted(Canon(d).value)
    decreases d, 1
  {
    match d {
      case DArr(docs) => ItemsSorted(docs);
      case DObj(fields) =>
        SlotsAre(fields);
        FieldsSorted(fields);
        var slots, members := Slots(fields), Canon(d).value.members;
        forall i, j | 0 <= i < j < |members| ensures MemberLess(members[i], members[j]) {
          assert SlotLess(slots[i], slots[j]);
        }
        forall k | 0 <= k < |members| ensures Sorted(members[k].value) {
          assert slots[k] in slots;
        }
      case _ =>
    }
  }

  lemma {:induction false} ItemsSorted(docs: seq<Doc>)
    requires CanonItems(docs).Some?
    ensures forall k | 0 <= k < |docs| :: Sorted(CanonItems(docs).value[k])
    decreases docs, 0
  {
    if docs != [] {
      CanonIsSorted(docs[0]);
      ItemsSorted(docs[1..]);
    }
  }

  lemma {:induction false} FieldsSorted(fields: seq<DocMember>)
    ensures forall y | y in Slots(fields) && y.value.Some? :: Sorted(y.value.value)
    decreases fields, 0
  {
    if fields != [] {
      var n := |fields| - 1;
      FieldsSorted(fields[..n]);
      SlotsAre(fields[..n]);
      PutSorts(Slots(fields[..n]), SlotOf(fields[n]));
      if Canon(fields[n].doc).Some? {
        CanonIsSorted(fields[n].doc);
      }
    }
  }

  // ---- reading the canonical text again ----

  /** The compact text of a document: members in written order, numbers as written. */
  function Text(d: Doc): (r: string)
    decreases d, 1
  {
    match d
    case DNull => "null"
    case DBool(b) => if b then "true" else "false"
    case DStr(s) => Quote(s)
    case DNum(text) => text
    case DArr(docs) => "[" + TextItems(docs, true) + "]"
    case DObj(fields) => "{" + TextFields(fields, true) + "}"
  }

  function TextItems(docs: seq<Doc>, first: bool): (r: string)
    decreases docs, 0
  {
    if docs == [] then ""
    else (if first then "" else ",") + Text(docs[0]) + TextItems(docs[1..], false)
  }

  function TextFields(fields: seq<DocMember>, first: bool): (r: string)
    decreases fields, 0
  {
    if fields == [] then ""
    else (if first then "" else ",") + Quote(fields[0].key) + ":" + Text(fields[0].doc) + TextFields(fields[1..], false)
  }

  /** Printing a value writes the compact text of its document. */
  lemma {:induction false} PrintIsText(v: Value)
    ensures Text(AsDoc(v)) == Print(v)
    decreases v, 1
  {
    hide Quote, Itoa, AsDocs, AsFields, TextItems, TextFields, PrintItems, PrintMembers;
    match v {
      case Arr(items) => PrintIsTextItems(items, true);
      case Obj(members) => PrintIsTextFields(members, true);
      case _ =>
    }
  }

  lemma {:induction false} PrintIsTextItems(items: seq<Value>, first: bool)
    ensures TextItems(AsDocs(items), first) == PrintItems(items, first)
    decreases items, 0
  {
    hide Text, Print, AsDoc;
    if items != [] {
      PrintIsText(items[0]);
      PrintIsTextItems(items[1..], false);
      assert AsDocs(items)[1..] == AsDocs(items[1..]);
    }
  }

  lemma {:induction false} PrintIsTextFields(members: seq<Member>, first: bool)
    ensures TextFields(AsFields(members), first) == PrintMembers(members, first)
    decreases members, 0
  {
    hide Text, Print, AsDoc, Quote;
    if members != [] {
      PrintIsText(members[0].value);
      PrintIsTextFields(members[1..], false);
      assert AsFields(members)[1..] == AsFields(members[1..]);
    }
  }

  /** The value behind a document, members in written order. */
  function Raw(d: Doc): (v: Value)
    decreases d, 1
  {
    match d
    case DNull => Null
    case DBool(b) => Bool(b)
    case DStr(s) => Str(s)
    case DNum(text) => Num(if ParseUint(text).Some? then ParseUint(text).value else 0)
    case DArr(docs) => Arr(RawItems(docs))
    case DObj(fields) => Obj(RawFields(fields))
  }

  function RawItems(docs: seq<Doc>): (r: seq<Value>)
    decreases docs, 0
  {
    if docs == [] then [] else [Raw(docs[0])] + RawItems(docs[1..])
  }

  function RawFields(fields: seq<DocMember>): (r: seq<Member>)
    decreases fields, 0
  {
    if fields == [] then [] else [Member(fields[0].key, Raw(fields[0].doc))] + RawFields(fields[1..])
  }

  lemma {:induction false} StrictFromRaw(d: Doc, depth: nat)
    requires Strict(d, depth)
    ensures AsDoc(Raw(d)) == d
    decreases d, 1
  {
    hide Itoa, ParseUint, RawItems, RawFields, AsDocs, AsFields;
    match d {
      case DArr(docs) => ItemsFromRaw(docs, depth);
      case DObj(fields) => FieldsFromRaw(fields, {}, depth);
      case _ =>
    }
  }

  lemma {:induction false} ItemsFromRaw(docs: seq<Doc>, depth: nat)
    requires StrictItems(docs, depth)
    ensures AsDocs(RawItems(docs)) == docs
    decreases docs, 0
  {
    hide Raw, AsDoc, Strict;
    if docs != [] {
      StrictFromRaw(docs[0], depth + 1);
      ItemsFromRaw(docs[1..], depth);
      assert RawItems(docs)[1..] == RawItems(docs[1..]);
    }
  }

  lemma {:induction false} FieldsFromRaw(fields: seq<DocMember>, seen: set<string>, depth: nat)
    requires StrictFields(fields, seen, depth)
    ensures AsFields(RawFields(fields)) == fields
    decreases fields, 0
  {
    hide Raw, AsDoc, Strict;
    if fields != [] {
      StrictFromRaw(fields[0].doc, depth + 1);
      FieldsFromRaw(fields[1..], seen + {fields[0].key}, depth);
      assert RawFields(fields)[1..] == RawFields(fields[1..]);
    }
  }

  /** A compact text is the text of one strict document at most. */
  lemma TextInjective(a: Doc, b: Doc, depth: nat, other: nat)
    requires Strict(a, depth) && Strict(b, other) && Text(a) == Text(b)
    ensures a == b
  {
    hide Strict, Text, Raw, AsDoc, Print;
    StrictFromRaw(a, depth);
    StrictFromRaw(b, other);
    PrintIsText(Raw(a));
    PrintIsText(Raw(b));
    PrintInjective(Raw(a), Raw(b));
  }

  lemma {:induction false} StrictFieldsFrom(fields: seq<DocMember>, seen: set<string>, depth: nat)
    requires DistinctKeys(fields) && forall k | 0 <= k < |fields| ::
      fields[k].key !in seen && Strict(fields[k].doc, depth + 1)
    ensures StrictFields(fields, seen, depth)
  {
    hide Strict;
    if fields != [] {
      StrictFieldsFrom(fields[1..], seen + {fields[0].key}, depth);
    }
  }

  /** The canonical form of a strict document passes the check again, at the same depth. */
  lemma {:induction false} CanonStaysStrict(d: Doc, depth: nat)
    requires Strict(d, depth)
    ensures Canon(d).Some? && Strict(AsDoc(Canon(d).value), depth)
    decreases d, 1
  {
    hide Itoa, ParseUint, CanonicalNumber, AsDocs, AsFields, Slots, CanonItems, StrictItems, StrictFields, Filled;
    StrictHasCanon(d, depth);
    match d {
      case DNum(text) => NumberStays(text);
      case DArr(docs) => ItemsStayStrict(docs, depth);
      case DObj(fields) => FieldsStayStrict(fields, depth);
      case _ =>
    }
  }

  lemma NumberStays(text: string)
    requires CanonicalNumber(text)
    ensures CanonicalNumber(Itoa(ParseUint(text).value))
  {
  }

  lemma {:induction false} ItemsStayStrict(docs: seq<Doc>, depth: nat)
    requires StrictItems(docs, depth) && CanonItems(docs).Some?
    ensures StrictItems(AsDocs(CanonItems(docs).value), depth)
    decreases docs, 0
  {
    hide Strict, Canon, AsDoc;
    if docs != [] {
      CanonStaysStrict(docs[0], depth + 1);
      ItemsStayStrict(docs[1..], depth);
      var all, rest := CanonItems(docs).value, CanonItems(docs[1..]).value;
      assert all[1..] == rest && AsDocs(all)[1..] == AsDocs(rest);
    }
  }

  lemma {:induction false} FieldsStayStrict(fields: seq<DocMember>, depth: nat)
    requires StrictFields(fields, {}, depth) && Filled(Slots(fields)).Some?
    ensures StrictFields(AsFields(Filled(Slots(fields)).value), {}, depth)
    decreases fields, 0
  {
    hide Strict, Canon, AsDoc, StrictFields, Slots, SlotLess;
    StrictFieldsMeans(fields, {}, depth);
    SlotsAre(fields);
    var slots := Slots(fields);
    var again := AsFields(Filled(slots).value);
    forall i, j | 0 <= i < j < |again| ensures again[i].key != again[j].key {
      SlotsApart(slots, i, j);
    }
    forall i | 0 <= i < |again| ensures Strict(again[i].doc, depth + 1) {
      assert slots[i] in slots;
      var k :| 0 <= k < |fields| && slots[i] == SlotOf(fields[k]);
      CanonStaysStrict(fields[k].doc, depth + 1);
    }
    StrictFieldsFrom(again, {}, depth);
  }

  lemma SlotsApart(slots: seq<Slot>, i: nat, j: nat)
    requires Increasing(SlotLess, slots) && i < j < |slots|
    ensures slots[i].key != slots[j].key
  {
    assert SlotLess(slots[i], slots[j]);
    StrLessIrreflexive(slots[i].key);
  }

  /** The document of a canonical value has that value, whether or not the first document was strict. */
  lemma CanonIsFixed(d: Doc)
    requires Canon(d).Some?
    ensures Canon(AsDoc(Canon(d).value)) == Canon(d)
  {
    CanonIsSorted(d);
    SortedIsFixed(Canon(d).value);
  }

  /** Canonicalising what was canonicalised changes nothing: the canonical text of a strict document is the text
      of one strict document, and that has the same canonical form. */
  lemma CanonicalTwice(d: Doc, depth: nat, again: Doc, other: nat)
    requires Strict(d, depth)
    ensures Canon(d).Some?
    ensures var once := AsDoc(Canon(d).value); Strict(once, depth) && Text(once) == Print(Canon(d).value)
    ensures Strict(again, other) && Text(again) == Print(Canon(d).value) ==> Canon(again) == Canon(d)
  {
    hide Strict, Text, Canon, AsDoc, Print;
    CanonStaysStrict(d, depth);
    var v := Canon(d).value;
    PrintIsText(v);
    CanonIsFixed(d);
    if Strict(again, other) && Text(again) == Print(v) {
      TextInjective(again, AsDoc(v), other, depth);
    }
  }

  /** Two documents print the same canonical text exactly when they have the same canonical value. */
  lemma TextDecides(a: Doc, b: Doc)
    requires Canon(a).Some? && Canon(b).Some?
    ensures Print(Canon(a).value) == Print(Canon(b).value) <==> Canon(a) == Canon(b)
  {
    hide Canon, Print;
    if Print(Canon(a).value) == Print(Canon(b).value) {
      PrintInjective(Canon(a).value, Canon(b).value);
    }
  }

  /** An object passes the check exactly when it is strict, and then it has a canonical form. */
  lemma AcceptedHasCanon(fields: seq<DocMember>)
    ensures var d := DObj(fields);
      && (Consume(Tokens(d)[0], Tokens(d)[1..], 0) == Some([]) <==> Strict(d, 0))
      && (Strict(d, 0) ==> Canon(d).Some?)
  {
    hide Canon, Strict, Consume, Tokens;
    var d := DObj(fields);
    CheckIsStrict(d, 0, []);
    assert Tokens(d) + [] == Tokens(d);
    if Strict(d, 0) {
      StrictHasCanon(d, 0);
    }
  }

  /** `appendCanonicalJSON` on a value whose members are in key order: the loops append the printed text. */
  method AppendCanonical(buffer: string, v: Value) returns (r: string)
    ensures r == buffer + Print(v)
    decreases v, 1
  {
    match v {
      case Null => r := buffer + "null";
      case Bool(b) => r := buffer + (if b then "true" else "false");
      case Str(s) => r := buffer + Quote(s);
      case Num(n) => r := buffer + Itoa(n);
      case Arr(items) => r := AppendItems(buffer, items);
      case Obj(members) => r := AppendMembers(buffer, members);
    }
  }

  method AppendItems(buffer: string, items: seq<Value>) returns (r: string)
    ensures r == buffer + Print(Arr(items))
    decreases items, 0
  {
    hide Print, PrintItems;
    ItemsAround(items);
    r := buffer + "[";
    ghost var whole := buffer + "[" + PrintItems(items, true);
    for k := 0 to |items|
      invariant r + PrintItems(items[k..], k == 0) == whole
    {
      ItemsFrom(items, k);
      var sep := if k > 0 then "," else "";
      Shift(r, sep, Print(items[k]), PrintItems(items[k + 1..], false));
      r := AppendCanonical(r + sep, items[k]);
    }
    assert r == whole;
    r := r + "]";
    Close(buffer, "[", PrintItems(items, true), "]");
  }

  method AppendMembers(buffer: string, members: seq<Member>) returns (r: string)
    ensures r == buffer + Print(Obj(members))
    decreases members, 0
  {
    hide Print, PrintMembers, Quote;
    MembersAround(members);
    r := buffer + "{";
    ghost var whole := buffer + "{" + PrintMembers(members, true);
    for k := 0 to |members|
      invariant r + PrintMembers(members[k..], k == 0) == whole
    {
      MembersFrom(members, k);
      var sep := (if k > 0 then "," else "") + Quote(members[k].key) + ":";
      Shift(r, sep, Print(members[k].value), PrintMembers(members[k + 1..], false));
      r := AppendCanonical(r + sep, members[k].value);
    }
    assert r == whole;
    r := r + "}";
    Close(buffer, "{", PrintMembers(members, true), "}");
  }
}
