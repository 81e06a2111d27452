/** The `json.dumps` / `json.loads` pair used to store the `details` and `labels`
    columns of the prediction log: a flat object whose values are strings, integers,
    booleans or null, written with the default separators `", "` and `": "` and the
    default `ensure_ascii`, so every character outside printable ASCII is escaped. */
module Json {
  import opened Common

  datatype Value = Str(s: string) | Int(i: int) | Bool(b: bool) | Null

  /** A dict, keys in insertion order. */
  type Object = seq<(string, Value)>

  // ---------------------------------------------------------------------------
  // Encoder

  /** The hexadecimal digit `json.dumps` writes for `d` (lower case). */
  function HexDigit(d: nat): (c: char)
    requires d < 16
    ensures IsHex(c) && HexValue(c) == d
  {
    if d < 10 then ('0' as int + d) as char else ('a' as int + d - 10) as char
  }

  /** Two hexadecimal digits for a byte. */
  function Hex2(n: nat): (r: string)
    requires n < 0x100
    ensures |r| == 2 && IsHex(r[0]) && IsHex(r[1]) && 16 * HexValue(r[0]) + HexValue(r[1]) == n
  {
    [HexDigit(n / 16), HexDigit(n % 16)]
  }

  /** The four digits of a `\uXXXX` escape. */
  function Hex4(n: nat): (r: string)
    requires n < 0x10000
    ensures AllHex(r) && Hex4Value(r) == n
  {
    var r := Hex2(n / 0x100) + Hex2(n % 0x100);
    assert r[..2] == Hex2(n / 0x100) && r[2..] == Hex2(n % 0x100);
    r
  }

  /** How `json.dumps` (with `ensure_ascii`) writes one character of a string: `"` and
      `\` behind a backslash, the five named control characters by name, the other
      characters outside `' '`..`'~'` as `\uXXXX`, and those above U+FFFF as a UTF-16
      surrogate pair of such escapes. */
  function EscapeChar(c: char): string
  {
    if c == '"' then "\\\"" else if c == '\\' then "\\\\"
    else if c == '\n' then "\\n" else if c == '\r' then "\\r" else if c == '\t' then "\\t"
    else if c == Backspace then "\\b" else if c == FormFeed then "\\f"
    else if ' ' <= c <= '~' then [c]
    else if c as int < 0x10000 then "\\u" + Hex4(c as int)
    else Surrogates(c)
  }

  /** A character above U+FFFF as the escapes of its UTF-16 high and low surrogates. */
  function Surrogates(c: char): string
    requires c as int >= 0x10000
  {
    var v := c as int - 0x10000;
    "\\u" + Hex4(0xD800 + v / 0x400) + "\\u" + Hex4(0xDC00 + v % 0x400)
  }

  /** The body of a string literal. */
  function Escape(s: string): string
    decreases |s|
  {
    if s == [] then [] else EscapeChar(s[0]) + Escape(s[1..])
  }

  function Quote(s: string): string
  {
    "\"" + Escape(s) + "\""
  }

  function DumpValue(v: Value): string
  {
    match v
    case Str(s) => Quote(s)
    case Int(i) => IntToString(i)
    case Bool(b) => if b then "true" else "false"
    case Null => "null"
  }

  function DumpMember(m: (string, Value)): string
  {
    Quote(m.0) + ": " + DumpValue(m.1)
  }

  /** The members after the first, each preceded by `", "`, then the closing brace. */
  function DumpTail(t: Object): (r: string)
    ensures r != [] && (r[0] == ',' || r[0] == '}')
    decreases |t|
  {
    if t == [] then "}" else ", " + DumpMember(t[0]) + DumpTail(t[1..])
  }

  function Dumps(d: Object): string
  {
    "{" + (if d == [] then "}" else DumpMember(d[0]) + DumpTail(d[1..]))
  }

  // ---------------------------------------------------------------------------
  // Decoder: each parser consumes a prefix and returns what it read and the rest.

  const Backspace: char := '\U{8}'
  const FormFeed: char := '\U{C}'

  predicate IsHex(c: char)
  {
    '0' <= c <= '9' || 'a' <= c <= 'f' || 'A' <= c <= 'F'
  }

  function HexValue(c: char): (d: nat)
    requires IsHex(c)
    ensures d < 16
  {
    if '0' <= c <= '9' then c as int - '0' as int
    else if 'a' <= c <= 'f' then c as int - 'a' as int + 10
    else c as int - 'A' as int + 10
  }

  predicate AllHex(h: string)
  {
    |h| == 4 && forall i :: 0 <= i < 4 ==> IsHex(h[i])
  }

  function Hex4Value(h: string): (n: nat)
    requires AllHex(h)
    ensures n < 0x10000
  {
    256 * (16 * HexValue(h[0]) + HexValue(h[1])) + 16 * HexValue(h[2]) + HexValue(h[3])
  }

  /** What `json.loads` reads after a backslash in a string: the character and how many
      characters of `s` the escape takes. `\uXXXX` takes hexadecimal digits of either
      case, and a high surrogate followed by an escaped low one combine into one
      character. A lone surrogate, which Python keeps in its string but a Dafny string
      cannot hold, and an unknown escape give None. */
  function ParseEscape(s: string): (r: Option<(char, nat)>)
    ensures r.Some? ==> 1 <= r.value.1 <= |s|
  {
    if s == [] then None
    else if s[0] == '"' || s[0] == '\\' || s[0] == '/' then Some((s[0], 1))
    else if s[0] == 'n' then Some(('\n', 1))
    else if s[0] == 'r' then Some(('\r', 1))
    else if s[0] == 't' then Some(('\t', 1))
    else if s[0] == 'b' then Some((Backspace, 1))
    else if s[0] == 'f' then Some((FormFeed, 1))
    else if s[0] == 'u' && |s| >= 5 && AllHex(s[1..5]) then
      var v := Hex4Value(s[1..5]);
      if 0xD800 <= v < 0xDC00 && |s| >= 11 && s[5] == '\\' && s[6] == 'u' && AllHex(s[7..11])
         && 0xDC00 <= Hex4Value(s[7..11]) < 0xE000
      then Some(((0x10000 + (v - 0xD800) * 0x400 + (Hex4Value(s[7..11]) - 0xDC00)) as char, 11))
      else if 0xD800 <= v < 0xE000 then None
      else Some((v as char, 5))
    else None
  }

  /** The characters of a string literal after its opening quote, through the closing
      quote; a raw control character is refused, as `json.loads` does by default. */
  function ParseChars(s: string): (r: Option<(string, string)>)
    ensures r.Some? ==> |r.value.1| < |s|
    decreases |s|
  {
    if s == [] then None
    else if s[0] == '"' then Some(([], s[1..]))
    else if s[0] == '\\' then
      match ParseEscape(s[1..])
      case None => None
      case Some((c, k)) =>
        match ParseChars(s[1 + k..])
        case None => None
        case Some((x, rest)) => Some(([c] + x, rest))
    else if s[0] < ' ' then None
    else
      match ParseChars(s[1..])
      case None => None
      case Some((x, rest)) => Some(([s[0]] + x, rest))
  }

  function ParseString(s: string): (r: Option<(string, string)>)
    ensures r.Some? ==> |r.value.1| < |s|
  {
    if s != [] && s[0] == '"' then ParseChars(s[1..]) else None
  }

  function LeadingDigits(s: string): (k: nat)
    ensures k <= |s|
    ensures forall i :: 0 <= i < k ==> IsDigit(s[i])
    ensures k < |s| ==> !IsDigit(s[k])
    decreases |s|
  {
    if s != [] && IsDigit(s[0]) then 1 + LeadingDigits(s[1..]) else 0
  }

  function DigitsValue(d: string): nat
    requires forall i :: 0 <= i < |d| ==> IsDigit(d[i])
    decreases |d|
  {
    if d == [] then 0
    else
      assert IsDigit(d[|d| - 1]);
      DigitsValue(d[..|d| - 1]) * 10 + (d[|d| - 1] as int - '0' as int)
  }

  /** The longest run of digits at the front of `s`, read as a decimal number. */
  function ParseNat(s: string): (r: Option<(nat, string)>)
    ensures r.Some? ==> |r.value.1| < |s|
  {
    var k := LeadingDigits(s);
    if k == 0 then None else Some((DigitsValue(s[..k]), s[k..]))
  }

  function ParseInt(s: string): (r: Option<(int, string)>)
    ensures r.Some? ==> |r.value.1| < |s|
  {
    if s != [] && s[0] == '-' then
      match ParseNat(s[1..])
      case None => None
      case Some((n, rest)) => Some((0 - n, rest))
    else
      match ParseNat(s)
      case None => None
      case Some((n, rest)) => Some((n as int, rest))
  }

  function ParseValue(s: string): (r: Option<(Value, string)>)
    ensures r.Some? ==> |r.value.1| < |s|
  {
    if s != [] && s[0] == '"' then
      match ParseString(s)
      case None => None
      case Some((x, rest)) => Some((Str(x), rest))
    else if StartsWith(s, "true") then Some((Bool(true), s[4..]))
    else if StartsWith(s, "false") then Some((Bool(false), s[5..]))
    else if StartsWith(s, "null") then Some((Null, s[4..]))
    else
      match ParseInt(s)
      case None => None
      case Some((i, rest)) => Some((Int(i), rest))
  }

  function ParseMember(s: string): (r: Option<((string, Value), string)>)
    ensures r.Some? ==> |r.value.1| < |s|
  {
    match ParseString(s)
    case None => None
    case Some((k, r1)) =>
      if StartsWith(r1, ": ") then
        match ParseValue(r1[2..])
        case None => None
        case Some((v, r2)) => Some(((k, v), r2))
      else None
  }

  /** Members each preceded by `", "`, up to and including the closing brace. */
  function ParseTail(s: string): (r: Option<(Object, string)>)
    ensures r.Some? ==> |r.value.1| < |s|
    decreases |s|
  {
    if StartsWith(s, "}") then Some(([], s[1..]))
    else if StartsWith(s, ", ") then
      match ParseMember(s[2..])
      case None => None
      case Some((m, r1)) =>
        match ParseTail(r1)
        case None => None
        case Some((t, r2)) => Some(([m] + t, r2))
    else None
  }

  /** The members of an object after its opening brace, through the closing brace. */
  function ParseBody(b: string): Option<(Object, string)>
  {
    if StartsWith(b, "}") then Some(([], b[1..]))
    else
      match ParseMember(b)
      case None => None
      case Some((m, r1)) =>
        match ParseTail(r1)
        case None => None
        case Some((t, r2)) => Some(([m] + t, r2))
  }

  /** The object written in `s`, or None when `s` is not one. */
  function Loads(s: string): Option<Object>
  {
    if !StartsWith(s, "{") then None
    else
      match ParseBody(s[1..])
      case Some((d, rest)) => if rest == [] then Some(d) else None
      case None => None
  }

  // ---------------------------------------------------------------------------
  // Round trip

  /** A `\uXXXX` escape of a value that is not a surrogate reads back as that character. */
  lemma UnicodeEscape(n: nat, tail: string)
    requires n < 0x10000 && !(0xD800 <= n < 0xE000)
    ensures ParseEscape("u" + Hex4(n) + tail) == Some((n as char, 5))
  {
    var s := "u" + Hex4(n) + tail;
    assert s[1..5] == Hex4(n);
  }

  /** The escape of a character below U+10000 that has no short form. */
  lemma BmpEscape(c: char, tail: string)
    requires !Named(c) && !(' ' <= c <= '~') && c as int < 0x10000
    ensures var e := EscapeChar(c); |e| == 6 && e[0] == '\\' && ParseEscape(e[1..] + tail) == Some((c, 5))
  {
    var e := EscapeChar(c);
    assert e == "\\u" + Hex4(c as int);
    assert e[1..] + tail == "u" + Hex4(c as int) + tail;
    UnicodeEscape(c as int, tail);
  }

  /** Two escapes holding a high and a low surrogate read as the character they encode. */
  lemma SurrogatesEscape(h1: string, h2: string, tail: string)
    requires AllHex(h1) && AllHex(h2)
    requires 0xD800 <= Hex4Value(h1) < 0xDC00 && 0xDC00 <= Hex4Value(h2) < 0xE000
    ensures var v := 0x10000 + (Hex4Value(h1) - 0xD800) * 0x400 + (Hex4Value(h2) - 0xDC00);
      0x10000 <= v < 0x110000 && ParseEscape("u" + h1 + "\\u" + h2 + tail) == Some((v as char, 11))
  {
    var s := "u" + h1 + "\\u" + h2 + tail;
    assert s[1..5] == h1;
    assert s[7..11] == h2;
    assert s[5] == '\\' && s[6] == 'u';
  }

  /** The surrogates of a character above U+FFFF combine back into it. */
  lemma SurrogateArithmetic(c: char)
    requires c as int >= 0x10000
    ensures var v := c as int - 0x10000; var hi, lo := 0xD800 + v / 0x400, 0xDC00 + v % 0x400;
      && 0xD800 <= hi < 0xDC00 && 0xDC00 <= lo < 0xE000
      && 0x10000 + (hi - 0xD800) * 0x400 + (lo - 0xDC00) == c as int
  {
  }

  /** A surrogate pair of escapes reads back as the character above U+FFFF it encodes. */
  lemma PairEscape(c: char, tail: string)
    requires c as int >= 0x10000
    ensures var e := Surrogates(c); |e| == 12 && e[0] == '\\' && ParseEscape(e[1..] + tail) == Some((c, 11))
  {
    var v := c as int - 0x10000;
    var hi, lo := 0xD800 + v / 0x400, 0xDC00 + v % 0x400;
    var h1, h2 := Hex4(hi), Hex4(lo);
    SurrogateArithmetic(c);
    var e := Surrogates(c);
    var s := "u" + h1 + "\\u" + h2 + tail;
    assert e[1..] + tail == s;
    SurrogatesEscape(h1, h2, tail);
  }

  /** An escape followed by the rest of a literal. */
  lemma BackslashStep(s: string, c: char, k: nat, x: string, rest: string)
    requires s != [] && s[0] == '\\' && ParseEscape(s[1..]) == Some((c, k))
    requires ParseChars(s[1 + k..]) == Some((x, rest))
    ensures ParseChars(s) == Some(([c] + x, rest))
  {
  }

  /** A plain character followed by the rest of a literal. */
  lemma PlainStep(s: string, x: string, rest: string)
    requires s != [] && ' ' <= s[0] && s[0] != '"' && s[0] != '\\'
    requires ParseChars(s[1..]) == Some((x, rest))
    ensures ParseChars(s) == Some(([s[0]] + x, rest))
  {
  }

  /** The two-character escapes. */
  lemma ShortEscape(c: char, tail: string)
    requires Named(c)
    ensures |EscapeChar(c)| == 2 && EscapeChar(c)[0] == '\\'
    ensures ParseEscape(EscapeChar(c)[1..] + tail) == Some((c, 1))
  {
  }

  /** The characters written with a backslash and a letter, or `"` and `\\` behind a
      backslash. */
  predicate Named(c: char)
  {
    c == '"' || c == '\\' || c == '\n' || c == '\r' || c == '\t' || c == Backspace || c == FormFeed
  }

  lemma NamedRoundTrip(c: char, tail: string, x: string, rest: string)
    requires Named(c) && ParseChars(tail) == Some((x, rest))
    ensures ParseChars(EscapeChar(c) + tail) == Some(([c] + x, rest))
  {
    var s := EscapeChar(c) + tail;
    ShortEscape(c, tail);
    assert s[1..] == EscapeChar(c)[1..] + tail;
    assert s[2..] == tail;
    BackslashStep(s, c, 1, x, rest);
  }

  lemma PlainRoundTrip(c: char, tail: string, x: string, rest: string)
    requires !Named(c) && ' ' <= c <= '~' && ParseChars(tail) == Some((x, rest))
    ensures ParseChars(EscapeChar(c) + tail) == Some(([c] + x, rest))
  {
    var s := EscapeChar(c) + tail;
    assert s == [c] + tail;
    assert s[1..] == tail;
    PlainStep(s, x, rest);
  }

  lemma BmpRoundTrip(c: char, tail: string, x: string, rest: string)
    requires !Named(c) && !(' ' <= c <= '~') && c as int < 0x10000 && ParseChars(tail) == Some((x, rest))
    ensures ParseChars(EscapeChar(c) + tail) == Some(([c] + x, rest))
  {
    var e := EscapeChar(c);
    BmpEscape(c, tail);
    var s := e + tail;
    assert s[1..] == e[1..] + tail;
    assert s[6..] == tail;
    BackslashStep(s, c, 5, x, rest);
  }

  lemma AstralRoundTrip(c: char, tail: string, x: string, rest: string)
    requires c as int >= 0x10000 && ParseChars(tail) == Some((x, rest))
    ensures ParseChars(EscapeChar(c) + tail) == Some(([c] + x, rest))
  {
    var e := Surrogates(c);
    assert EscapeChar(c) == e;
    PairEscape(c, tail);
    var s := e + tail;
    assert s[1..] == e[1..] + tail;
    assert s[12..] == tail;
    BackslashStep(s, c, 11, x, rest);
  }

  /** One written character followed by the rest of a literal reads back as that character. */
  lemma EscapeCharRoundTrip(c: char, tail: string, x: string, rest: string)
    requires ParseChars(tail) == Some((x, rest))
    ensures ParseChars(EscapeChar(c) + tail) == Some(([c] + x, rest))
  {
    if Named(c) {
      NamedRoundTrip(c, tail, x, rest);
    } else if ' ' <= c <= '~' {
      PlainRoundTrip(c, tail, x, rest);
    } else if c as int < 0x10000 {
      BmpRoundTrip(c, tail, x, rest);
    } else {
      AstralRoundTrip(c, tail, x, rest);
    }
  }

  lemma {:induction false} EscapeRoundTrip(x: string, rest: string)
    ensures ParseChars(Escape(x) + "\"" + rest) == Some((x, rest))
    decreases |x|
  {
    if x == [] {
      assert Escape(x) + "\"" + rest == "\"" + rest;
    } else {
      EscapeRoundTrip(x[1..], rest);
      var tail := Escape(x[1..]) + "\"" + rest;
      assert Escape(x) + "\"" + rest == EscapeChar(x[0]) + tail;
      EscapeCharRoundTrip(x[0], tail, x[1..], rest);
      assert [x[0]] + x[1..] == x;
    }
  }

  lemma StringRoundTrip(x: string, rest: string)
    ensures ParseString(Quote(x) + rest) == Some((x, rest))
  {
    assert Quote(x) + rest == "\"" + (Escape(x) + "\"" + rest);
    EscapeRoundTrip(x, rest);
  }

  lemma {:induction false} LeadingDigitsAppend(d: string, rest: string)
    requires forall i :: 0 <= i < |d| ==> IsDigit(d[i])
    ensures LeadingDigits(d + rest) == |d| + LeadingDigits(rest)
    decreases |d|
  {
    if d != [] {
      assert (d + rest)[1..] == d[1..] + rest;
      LeadingDigitsAppend(d[1..], rest);
    } else {
      assert d + rest == rest;
    }
  }

  lemma {:induction false} DigitsValueOfNat(n: nat)
    ensures DigitsValue(NatToString(n)) == n
    decreases n
  {
    var d := NatToString(n);
    if n < 10 {
      assert d[..0] == [];
    } else {
      DigitsValueOfNat(n / 10);
      assert d[..|d| - 1] == NatToString(n / 10);
    }
  }

  lemma NatRoundTrip(n: nat, rest: string)
    requires rest == [] || !IsDigit(rest[0])
    ensures ParseNat(NatToString(n) + rest) == Some((n, rest))
  {
    var d := NatToString(n);
    LeadingDigitsAppend(d, rest);
    assert (d + rest)[..|d|] == d;
    assert (d + rest)[|d|..] == rest;
    DigitsValueOfNat(n);
  }

  lemma NegativeRoundTrip(i: int, rest: string)
    requires i < 0
    requires rest == [] || !IsDigit(rest[0])
    ensures ParseInt(IntToString(i) + rest) == Some((i, rest))
  {
    var s := IntToString(i) + rest;
    MinusLayout(i, rest);
    NatRoundTrip(-i, rest);
    ParseIntMinus(s);
  }

  /** A negative number is written as a minus sign and then its magnitude. */
  lemma MinusLayout(i: int, rest: string)
    requires i < 0
    ensures var s := IntToString(i) + rest; s != [] && s[0] == '-' && s[1..] == NatToString(-i) + rest
  {
    var d := NatToString(-i);
    assert IntToString(i) + rest == "-" + (d + rest);
    DropPrefix("-", d + rest);
  }

  /** A leading minus sign negates the number that follows it. */
  lemma ParseIntMinus(s: string)
    requires s != [] && s[0] == '-' && ParseNat(s[1..]).Some?
    ensures ParseInt(s) == Some((0 - ParseNat(s[1..]).value.0, ParseNat(s[1..]).value.1))
  {
  }

  lemma IntRoundTrip(i: int, rest: string)
    requires rest == [] || !IsDigit(rest[0])
    ensures ParseInt(IntToString(i) + rest) == Some((i, rest))
  {
    if i < 0 {
      NegativeRoundTrip(i, rest);
    } else {
      var d := NatToString(i);
      assert (d + rest)[0] == d[0] && IsDigit(d[0]);
      NatRoundTrip(i, rest);
    }
  }

  /** A literal keyword followed by `rest` parses as that keyword. */
  lemma KeywordLayout(k: string, rest: string)
    ensures StartsWith(k + rest, k) && (k + rest)[|k|..] == rest
  {
    StartsWithAppend(k, rest);
    DropPrefix(k, rest);
  }

  lemma ValueRoundTrip(v: Value, rest: string)
    requires rest == [] || !IsDigit(rest[0])
    ensures ParseValue(DumpValue(v) + rest) == Some((v, rest))
  {
    var s := DumpValue(v) + rest;
    match v
    case Str(x) =>
      StringRoundTrip(x, rest);
    case Bool(b) =>
      if b {
        KeywordLayout("true", rest);
      } else {
        KeywordLayout("false", rest);
        NotStartsWith(s, "true");
      }
    case Null =>
      KeywordLayout("null", rest);
      NotStartsWith(s, "true");
      NotStartsWith(s, "false");
    case Int(i) =>
      var d := IntToString(i);
      assert d[0] == '-' || IsDigit(d[0]);
      assert s[0] == d[0];
      NotStartsWith(s, "true");
      NotStartsWith(s, "false");
      NotStartsWith(s, "null");
      IntRoundTrip(i, rest);
  }

  lemma MemberRoundTrip(m: (string, Value), rest: string)
    requires rest == [] || !IsDigit(rest[0])
    ensures ParseMember(DumpMember(m) + rest) == Some((m, rest))
  {
    var tail := DumpValue(m.1) + rest;
    assert DumpMember(m) + rest == Quote(m.0) + (": " + tail);
    StringRoundTrip(m.0, ": " + tail);
    assert (": " + tail)[2..] == tail;
    ValueRoundTrip(m.1, rest);
  }

  lemma ParseTailStep(s: string, m: (string, Value), r1: string, t: Object, r2: string)
    requires !StartsWith(s, "}") && StartsWith(s, ", ")
    requires ParseMember(s[2..]) == Some((m, r1)) && ParseTail(r1) == Some((t, r2))
    ensures ParseTail(s) == Some(([m] + t, r2))
  {
  }

  /** The text of a non-empty tail: a separator, the first member, then the rest. */
  lemma DumpTailLayout(t: Object, rest: string)
    requires t != []
    ensures var s := DumpTail(t) + rest;
      !StartsWith(s, "}") && StartsWith(s, ", ") && s[2..] == DumpMember(t[0]) + (DumpTail(t[1..]) + rest)
  {
    var m, tl := DumpMember(t[0]), DumpTail(t[1..]);
    assert DumpTail(t) == ", " + m + tl;
    Regroup(", ", m, tl, rest);
    var body := m + (tl + rest);
    StartsWithAppend(", ", body);
    NotStartsWith(", " + body, "}");
    DropPrefix(", ", body);
  }

  lemma {:induction false} TailRoundTrip(t: Object, rest: string)
    ensures ParseTail(DumpTail(t) + rest) == Some((t, rest))
    decreases |t|
  {
    if t == [] {
      assert DumpTail(t) + rest == "}" + rest;
      StartsWithAppend("}", rest);
    } else {
      var after := DumpTail(t[1..]) + rest;
      DumpTailLayout(t, rest);
      MemberRoundTrip(t[0], after);
      TailRoundTrip(t[1..], rest);
      ParseTailStep(DumpTail(t) + rest, t[0], after, t[1..], rest);
      assert [t[0]] + t[1..] == t;
    }
  }

  lemma LoadsDumps(d: Object)
    ensures Loads(Dumps(d)) == Some(d)
  {
    var s := Dumps(d);
    var b := if d == [] then "}" else DumpMember(d[0]) + DumpTail(d[1..]);
    assert s == "{" + b;
    StartsWithAppend("{", b);
    assert s[1..] == b;
    if d == [] {
      assert b == "}" + [];
      StartsWithAppend("}", []);
      assert b[1..] == [];
    } else {
      var tail := DumpTail(d[1..]);
      MemberRoundTrip(d[0], tail);
      TailRoundTrip(d[1..], []);
      assert tail + [] == tail;
      var n := DumpMember(d[0]);
      assert n[0] == '"';
      assert b[0] == n[0];
      NotStartsWith(b, "}");
      assert [d[0]] + d[1..] == d;
      assert ParseBody(b) == Some((d, []));
    }
  }
}
