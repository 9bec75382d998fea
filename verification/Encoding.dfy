/** Text encoders of the repository and the proof that none of them is ambiguous.
    Each result has the same shape: when two encodings, followed by anything, give the same
    text, then the encoded values and what followed them are the same. */
module Encoding {
  import opened Prelude

  predicate IsDigit(c: char) { '0' <= c <= '9' }

  function Digit(d: nat): (c: char)
    requires d < 10
    ensures IsDigit(c) && c as int == '0' as int + d
  {
    (d + '0' as int) as char
  }

  /** Go's `strconv.Itoa` and `FormatUint` on natural numbers. */
  function Itoa(n: nat): (r: string)
    ensures r != [] && forall i | 0 <= i < |r| :: IsDigit(r[i])
  {
    if n < 10 then [Digit(n)] else Itoa(n / 10) + [Digit(n % 10)]
  }

  function Atoi(s: string): (n: nat)
    requires forall i | 0 <= i < |s| :: IsDigit(s[i])
  {
    if s == [] then 0
    else
      assert IsDigit(s[|s| - 1]);
      10 * Atoi(s[..|s| - 1]) + (s[|s| - 1] as int - '0' as int)
  }

  lemma {:induction false} AtoiItoa(n: nat)
    ensures Atoi(Itoa(n)) == n
  {
    if n >= 10 {
      AtoiItoa(n / 10);
      assert Itoa(n)[..|Itoa(n)| - 1] == Itoa(n / 10);
    } else {
      assert Itoa(n)[..0] == [];
    }
  }

  lemma ItoaInjective(m: nat, n: nat)
    requires Itoa(m) == Itoa(n)
    ensures m == n
  {
    AtoiItoa(m);
    AtoiItoa(n);
  }

  /** Decimal digits followed by something that is not a digit are read back exactly. */
  lemma DigitsSplit(p: string, q: string, u: string, v: string)
    requires forall i | 0 <= i < |p| :: IsDigit(p[i])
    requires forall i | 0 <= i < |q| :: IsDigit(q[i])
    requires (u == [] || !IsDigit(u[0])) && (v == [] || !IsDigit(v[0]))
    requires p + u == q + v
    ensures p == q && u == v
  {
    var w := p + u;
    assert forall i | 0 <= i < |p| :: IsDigit(w[i]);
    assert forall i | 0 <= i < |q| :: IsDigit((q + v)[i]);
    assert w[|p|..] == u && w[|q|..] == v;
    assert w[..|p|] == p && w[..|q|] == q;
  }

  /** Instants are integers here; the source renders them as RFC 3339 text, one text per instant.
      `FormatTime` is such a rendering: one-to-one, its letters do not matter. */
  function FormatTime(t: int): (r: string) {
    if t < 0 then "-" + Itoa(-t) else Itoa(t)
  }

  lemma FormatTimeInjective(s: int, t: int)
    requires FormatTime(s) == FormatTime(t)
    ensures s == t
  {
    var a, b := FormatTime(s), FormatTime(t);
    assert s < 0 <==> a[0] == '-';
    assert t < 0 <==> b[0] == '-';
    if s < 0 {
      assert a[1..] == Itoa(-s) && b[1..] == Itoa(-t);
      ItoaInjective(-s, -t);
    } else {
      ItoaInjective(s, t);
    }
  }

  // ---- length-prefixed lines ----

  /** How many bytes UTF-8 takes for a character. */
  function Width(c: char): (n: nat)
    ensures 1 <= n <= 4
  {
    if c as int < 0x80 then 1 else if c as int < 0x800 then 2 else if c as int < 0x10000 then 3 else 4
  }

  /** Go's `len` of a string. */
  function ByteLength(s: string): (n: nat)
    ensures n >= |s|
  {
    if s == [] then 0 else Width(s[0]) + ByteLength(s[1..])
  }

  /** Of two texts that begin alike only equal ones take equally many bytes. */
  lemma {:induction false} PrefixByBytes(a: string, b: string, u: string, v: string)
    requires a + u == b + v && ByteLength(a) == ByteLength(b)
    ensures a == b && u == v
  {
    hide Width;
    var w := a + u;
    if a == [] || b == [] {
      assert w == u && w == v;
    } else {
      assert w[0] == a[0] == b[0] && w[1..] == a[1..] + u == b[1..] + v;
      PrefixByBytes(a[1..], b[1..], u, v);
      assert a == [a[0]] + a[1..] && b == [b[0]] + b[1..];
    }
  }

  /** `writeFingerprintLine`: the length in bytes, a colon, the value, a newline. */
  function Line(value: string): (r: string) {
    Itoa(ByteLength(value)) + ":" + value + "\n"
  }

  /** Lines split uniquely whatever the values hold, colons and newlines included. */
  lemma LineSplit(a: string, b: string, u: string, v: string)
    requires Line(a) + u == Line(b) + v
    ensures a == b && u == v
  {
    hide Itoa, ByteLength;
    var ta, tb := "\n" + u, "\n" + v;
    assert Line(a) + u == Itoa(ByteLength(a)) + (":" + (a + ta));
    assert Line(b) + v == Itoa(ByteLength(b)) + (":" + (b + tb));
    DigitsSplit(Itoa(ByteLength(a)), Itoa(ByteLength(b)), ":" + (a + ta), ":" + (b + tb));
    ItoaInjective(ByteLength(a), ByteLength(b));
    assert (":" + (a + ta))[1..] == a + ta && (":" + (b + tb))[1..] == b + tb;
    PrefixByBytes(a, b, ta, tb);
    assert ta[1..] == u && tb[1..] == v;
  }

  function Lines(values: seq<string>): (r: string) {
    if values == [] then "" else Line(values[0]) + Lines(values[1..])
  }

  /** A block of a known number of lines determines every line. */
  lemma {:induction false} LinesInjective(xs: seq<string>, ys: seq<string>)
    requires |xs| == |ys| && Lines(xs) == Lines(ys)
    ensures xs == ys
  {
    if xs != [] {
      LineSplit(xs[0], ys[0], Lines(xs[1..]), Lines(ys[1..]));
      LinesInjective(xs[1..], ys[1..]);
      assert xs == [xs[0]] + xs[1..] && ys == [ys[0]] + ys[1..];
    }
  }

  // ---- JSON strings as Go's encoder writes them ----

  function HexDigit(d: nat): (c: char)
    requires d < 16
  {
    if d < 10 then Digit(d) else ('a' as int + d - 10) as char
  }

  function Hex4(n: nat): (r: string)
    requires n < 0x10000
    ensures |r| == 4
  {
    [HexDigit(n / 16 / 16 / 16), HexDigit(n / 16 / 16 % 16), HexDigit(n / 16 % 16), HexDigit(n % 16)]
  }

  lemma HexDigitInjective(a: nat, b: nat)
    requires a < 16 && b < 16 && HexDigit(a) == HexDigit(b)
    ensures a == b
  {
  }

  lemma Hex4Injective(a: nat, b: nat)
    requires a < 0x10000 && b < 0x10000 && Hex4(a) == Hex4(b)
    ensures a == b
  {
    var x, y := Hex4(a), Hex4(b);
    assert x[0] == y[0] && x[1] == y[1] && x[2] == y[2] && x[3] == y[3];
    HexDigitInjective(a / 16 / 16 / 16, b / 16 / 16 / 16);
    HexDigitInjective(a / 16 / 16 % 16, b / 16 / 16 % 16);
    HexDigitInjective(a / 16 % 16, b / 16 % 16);
    HexDigitInjective(a % 16, b % 16);
  }

  /** Characters written as `\uXXXX`: other controls, the HTML characters, and the two line separators. */
  predicate UnicodeEscaped(c: char) {
    (c < ' ' && c !in {'\n', '\r', '\t', 8 as char, 12 as char})
    || c in {'<', '>', '&'} || c as int == 0x2028 || c as int == 0x2029
  }

  function ShortEscape(c: char): (r: char) {
    if c == '\n' then 'n' else if c == '\r' then 'r' else if c == '\t' then 't'
    else if c as int == 8 then 'b' else if c as int == 12 then 'f' else c
  }

  function EscapeChar(c: char): (r: string)
    ensures r != [] && r[0] != '"'
  {
    if c in {'"', '\\', '\n', '\r', '\t', 8 as char, 12 as char} then ['\\', ShortEscape(c)]
    else if UnicodeEscaped(c) then ['\\', 'u'] + Hex4(c as int)
    else [c]
  }

  lemma EscapeCharSplit(a: char, b: char, u: string, v: string)
    requires EscapeChar(a) + u == EscapeChar(b) + v
    ensures a == b && u == v
  {
    hide Hex4;
    var x, y := EscapeChar(a) + u, EscapeChar(b) + v;
    assert x[0] == y[0];
    if |EscapeChar(a)| == 6 {
      assert x[1] == 'u' && y[1] == 'u';
      assert x[2..6] == Hex4(a as int) && y[2..6] == Hex4(b as int);
      Hex4Injective(a as int, b as int);
      assert x[6..] == u && y[6..] == v;
    } else if |EscapeChar(a)| == 2 {
      assert x[1] == y[1] && x[1] != 'u';
      assert |EscapeChar(b)| == 2;
      assert x[2..] == u && y[2..] == v;
    } else {
      assert x[1..] == u && y[1..] == v;
    }
  }

  function Escape(s: string): (r: string) {
    if s == [] then [] else EscapeChar(s[0]) + Escape(s[1..])
  }

  /** `json.Marshal` of a Go string holding valid Unicode. */
  function Quote(s: string): (r: string) { "\"" + Escape(s) + "\"" }

  /** The closing quote shows at once whether any character was written. */
  lemma EscapeEmpty(s: string, u: string)
    ensures s == [] <==> (Escape(s) + "\"" + u)[0] == '"'
  {
    if s != [] {
      assert (Escape(s) + "\"" + u)[0] == EscapeChar(s[0])[0];
    }
  }

  lemma EscapeStep(s: string, u: string)
    requires s != []
    ensures Escape(s) + "\"" + u == EscapeChar(s[0]) + (Escape(s[1..]) + "\"" + u)
  {
  }

  lemma {:induction false} EscapeSplit(a: string, b: string, u: string, v: string)
    requires Escape(a) + "\"" + u == Escape(b) + "\"" + v
    ensures a == b && u == v
  {
    var x, y := Escape(a) + "\"" + u, Escape(b) + "\"" + v;
    EscapeEmpty(a, u);
    EscapeEmpty(b, v);
    if a == [] {
      assert x[1..] == u && y[1..] == v;
    } else {
      var tx, ty := Escape(a[1..]) + "\"" + u, Escape(b[1..]) + "\"" + v;
      EscapeStep(a, u);
      EscapeStep(b, v);
      EscapeCharSplit(a[0], b[0], tx, ty);
      EscapeSplit(a[1..], b[1..], u, v);
      assert a == [a[0]] + a[1..] && b == [b[0]] + b[1..];
    }
  }

  // ---- reading a JSON string (section 7 of RFC 8259) ----

  function HexValue(c: char): (d: Option<nat>)
    ensures d.Some? ==> d.value < 16
  {
    if '0' <= c <= '9' then Some(c as int - '0' as int)
    else if 'a' <= c <= 'f' then Some(c as int - 'a' as int + 10)
    else if 'A' <= c <= 'F' then Some(c as int - 'A' as int + 10)
    else None
  }

  /** Four hexadecimal digits as a character of its own; halves of a surrogate pair are none. */
  function ReadHex4(t: string): (c: Option<char>)
    requires |t| == 4
  {
    var a, b, c, d := HexValue(t[0]), HexValue(t[1]), HexValue(t[2]), HexValue(t[3]);
    if a.None? || b.None? || c.None? || d.None? then None
    else
      var n := ((a.value * 16 + b.value) * 16 + c.value) * 16 + d.value;
      if 0xd800 <= n < 0xe000 then None else Some(n as char)
  }

  /** One character of a string and how many characters of the text it takes. */
  function ReadChar(t: string): (r: Option<(char, nat)>)
    requires t != []
    ensures r.Some? ==> 1 <= r.value.1 <= |t|
  {
    if t[0] != '\\' then (if t[0] < ' ' || t[0] == '"' then None else Some((t[0], 1)))
    else if |t| < 2 then None
    else match t[1]
      case '"' => Some(('"', 2))
      case '\\' => Some(('\\', 2))
      case '/' => Some(('/', 2))
      case 'b' => Some((8 as char, 2))
      case 'f' => Some((12 as char, 2))
      case 'n' => Some((10 as char, 2))
      case 'r' => Some((13 as char, 2))
      case 't' => Some((9 as char, 2))
      case 'u' =>
        if |t| < 6 then None
        else
          var c := ReadHex4(t[2..6]);
          if c.None? then None else Some((c.value, 6))
      case _ => None
  }

  /** The characters up to the closing quote, and what follows it. */
  function ReadChars(t: string): (r: Option<(string, string)>)
    ensures r.Some? ==> |r.value.1| < |t|
    decreases |t|
  {
    if t == [] then None
    else if t[0] == '"' then Some(([], t[1..]))
    else
      var c := ReadChar(t);
      if c.None? then None
      else
        var rest := ReadChars(t[c.value.1..]);
        if rest.None? then None else Some(([c.value.0] + rest.value.0, rest.value.1))
  }

  function ReadString(t: string): (r: Option<(string, string)>)
    ensures r.Some? ==> |r.value.1| < |t|
  {
    if t == [] || t[0] != '"' then None else ReadChars(t[1..])
  }

  lemma HexBack(d: nat)
    requires d < 16
    ensures HexValue(HexDigit(d)) == Some(d)
  {
  }

  lemma Hex4Back(n: nat)
    requires n < 0xd800
    ensures ReadHex4(Hex4(n)) == Some(n as char)
  {
    hide HexValue, HexDigit;
    HexBack(n / 16 / 16 / 16);
    HexBack(n / 16 / 16 % 16);
    HexBack(n / 16 % 16);
    HexBack(n % 16);
  }

  /** Every character is read back from the way it is written. */
  lemma EscapeCharBack(c: char, u: string)
    ensures ReadChar(EscapeChar(c) + u) == Some((c, |EscapeChar(c)|))
  {
    hide Hex4, ReadHex4;
    var t := EscapeChar(c) + u;
    if |EscapeChar(c)| == 6 {
      assert t[1] == 'u' && t[2..6] == Hex4(c as int);
      Hex4Back(c as int);
    }
  }

  lemma {:induction false} EscapeBack(s: string, u: string)
    ensures ReadChars(Escape(s) + "\"" + u) == Some((s, u))
  {
    var t := Escape(s) + "\"" + u;
    EscapeEmpty(s, u);
    if s == [] {
      assert t[1..] == u;
    } else {
      var rest := Escape(s[1..]) + "\"" + u;
      EscapeStep(s, u);
      hide EscapeChar, ReadChar;
      EscapeCharBack(s[0], rest);
      EscapeBack(s[1..], u);
      assert t[|EscapeChar(s[0])|..] == rest;
      assert [s[0]] + s[1..] == s;
    }
  }

  /** A reader of JSON strings reads back what was quoted and stops behind it. */
  lemma QuoteReadsBack(s: string, u: string)
    ensures ReadString(Quote(s) + u) == Some((s, u))
  {
    assert (Quote(s) + u)[1..] == Escape(s) + "\"" + u;
    EscapeBack(s, u);
  }

  /** A quoted string determines the string and where it ends. */
  lemma QuoteSplit(a: string, b: string, u: string, v: string)
    requires Quote(a) + u == Quote(b) + v
    ensures a == b && u == v
  {
    var x, y := Quote(a) + u, Quote(b) + v;
    assert x[1..] == Escape(a) + "\"" + u && y[1..] == Escape(b) + "\"" + v;
    EscapeSplit(a, b, u, v);
  }
}
