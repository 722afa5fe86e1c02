/** Printing of values in the configuration file, against a decoder for the productions of
    TOML v1.0.0 that the printer uses: basic strings, booleans, decimal integers, floats,
    arrays and inline tables with quoted keys. */
module Toml {
  import opened Wrappers

  import Utf8

  /** A Python value. A float is its repr; `Other` is any type TOML cannot express. */
  datatype Value =
    | Str(text: string)
    | Bool(flag: bool)
    | Int(n: int)
    | Float(repr: string)
    | Arr(items: seq<Value>)
    | Table(entries: seq<(string, Value)>)
    | Other

  // ---------- printing ----------

  function Hex(digit: int): char
    requires 0 <= digit < 16
  {
    if digit < 10 then '0' + digit as char else 'a' + (digit - 10) as char
  }

  /** How json.dumps with ensure_ascii=False writes one character inside quotes. */
  function Escaped(c: char): string {
    match c
    case '"' => "\\\""
    case '\\' => "\\\\"
    case '\n' => "\\n"
    case '\r' => "\\r"
    case '\t' => "\\t"
    case '\U{0C}' => "\\f"
    case '\U{08}' => "\\b"
    case _ => if c < ' ' then "\\u00" + [Hex(c as int / 16), Hex(c as int % 16)] else [c]
  }

  function Body(s: string): string {
    if s == "" then "" else Escaped(s[0]) + Body(s[1..])
  }

  function Quoted(s: string): string { "\"" + Body(s) + "\"" }

  function Digit(d: int): char
    requires 0 <= d < 10
  {
    '0' + d as char
  }

  function Decimal(n: nat): string {
    if n < 10 then [Digit(n)] else Decimal(n / 10) + [Digit(n % 10)]
  }

  function Integer(n: int): string {
    if n < 0 then "-" + Decimal(-n) else Decimal(n)
  }

  function Text(v: Value): string
    decreases v, 1
  {
    match v
    case Str(s) => Quoted(s)
    case Bool(b) => if b then "true" else "false"
    case Int(n) => Integer(n)
    case Float(repr) => repr
    case Arr(items) => "[" + Items(items) + "]"
    case Table(entries) => "{ " + Entries(entries) + " }"
    case Other => ""
  }

  function Items(items: seq<Value>): string
    decreases items, 0
  {
    if items == [] then ""
    else if |items| == 1 then Text(items[0])
    else Text(items[0]) + ", " + Items(items[1..])
  }

  function Entry(e: (string, Value)): string
    decreases e, 0
  {
    Quoted(e.0) + " = " + Text(e.1)
  }

  function Entries(entries: seq<(string, Value)>): string
    decreases entries, 0
  {
    if entries == [] then ""
    else if |entries| == 1 then Entry(entries[0])
    else Entry(entries[0]) + ", " + Entries(entries[1..])
  }

  predicate Supported(v: Value)
    decreases v
  {
    match v
    case Arr(items) => forall x | x in items :: Supported(x)
    case Table(entries) => forall e | e in entries :: Supported(e.1)
    case Other => false
    case _ => true
  }

  /** The printer: an error if the value holds anything TOML cannot express. */
  function ToToml(v: Value): Result<string> {
    if Supported(v) then Ok(Text(v)) else Err
  }

  // ---------- tokens ----------

  predicate IsDigit(c: char) { '0' <= c <= '9' }

  predicate IsTokenChar(c: char) {
    IsDigit(c) || 'a' <= c <= 'z' || 'A' <= c <= 'Z' || c == '+' || c == '-' || c == '.' || c == '_' || c == ':'
  }

  predicate AllDigits(s: string) { forall k | 0 <= k < |s| :: IsDigit(s[k]) }

  /** How many of the first characters satisfy the test. */
  function DigitRun(s: string): (n: nat)
    ensures n <= |s| && AllDigits(s[..n]) && (n < |s| ==> !IsDigit(s[n]))
  {
    if s == "" || !IsDigit(s[0]) then 0 else 1 + DigitRun(s[1..])
  }

  function TokenRun(s: string): (n: nat)
    ensures n <= |s|
  {
    if s == "" || !IsTokenChar(s[0]) then 0 else 1 + TokenRun(s[1..])
  }

  /** Digits without a needless leading zero. */
  predicate IsPlain(s: string) {
    |s| > 0 && AllDigits(s) && (|s| > 1 ==> s[0] != '0')
  }

  function Unsigned(s: string): string {
    if |s| > 0 && (s[0] == '-' || s[0] == '+') then s[1..] else s
  }

  function PlainValue(s: string): nat
    requires AllDigits(s)
  {
    if s == "" then 0 else 10 * PlainValue(s[..|s| - 1]) + (s[|s| - 1] - '0') as int
  }

  function IntegerValue(s: string): int
    requires IsPlain(Unsigned(s))
  {
    var n: int := PlainValue(Unsigned(s));
    if s[0] == '-' then -n else n
  }

  predicate IsExponent(s: string) {
    |s| > 1 && (s[0] == 'e' || s[0] == 'E') && |Unsigned(s[1..])| > 0 && AllDigits(Unsigned(s[1..]))
  }

  /** What follows the integer part of a float. */
  predicate IsFractionOrExponent(s: string) {
    if |s| > 1 && s[0] == '.' then
      var n := DigitRun(s[1..]);
      n > 0 && (s[1 + n..] == "" || IsExponent(s[1 + n..]))
    else IsExponent(s)
  }

  predicate IsFloat(s: string) {
    var u := Unsigned(s);
    var n := DigitRun(u);
    && (forall k | 0 <= k < |s| :: IsTokenChar(s[k]))
    && (u == "inf" || u == "nan" || (IsPlain(u[..n]) && n < |u| && IsFractionOrExponent(u[n..])))
  }

  function Scalar(token: string): Option<Value> {
    if token == "true" then Some(Bool(true))
    else if token == "false" then Some(Bool(false))
    else if IsPlain(Unsigned(token)) then Some(Int(IntegerValue(token)))
    else if IsFloat(token) then Some(Float(token))
    else None
  }

  // ---------- decoding ----------

  function HexValue(c: char): Option<int> {
    if IsDigit(c) then Some((c - '0') as int)
    else if 'a' <= c <= 'f' then Some((c - 'a') as int + 10)
    else if 'A' <= c <= 'F' then Some((c - 'A') as int + 10)
    else None
  }

  /** The number these hexadecimal digits stand for. */
  function HexNumber(s: string): Option<int> {
    if s == "" then Some(0)
    else
      var high, low := HexNumber(s[..|s| - 1]), HexValue(s[|s| - 1]);
      if high.None? || low.None? then None else Some(16 * high.value + low.value)
  }

  /** The character of an escape sequence, after its backslash, and the text behind it. */
  function Unescape(s: string): (r: Option<(char, string)>)
    ensures r.Some? ==> |r.value.1| < |s|
  {
    if s == "" then None
    else
      match s[0]
      case '"' => Some(('"', s[1..]))
      case '\\' => Some(('\\', s[1..]))
      case 'n' => Some(('\n', s[1..]))
      case 'r' => Some(('\r', s[1..]))
      case 't' => Some(('\t', s[1..]))
      case 'f' => Some(('\U{0C}', s[1..]))
      case 'b' => Some(('\U{08}', s[1..]))
      case 'u' => UnescapeHex(s, 4)
      case 'U' => UnescapeHex(s, 8)
      case _ => None
  }

  function UnescapeHex(s: string, digits: nat): (r: Option<(char, string)>)
    requires |s| > 0
    ensures r.Some? ==> |r.value.1| < |s|
  {
    if |s| < digits + 1 then None
    else
      var n := HexNumber(s[1..digits + 1]);
      if n.None? || !Utf8.IsScalar(n.value) then None else Some((n.value as char, s[digits + 1..]))
  }

  /** Control characters other than the tab, U+007F among them, may not stand in a string. */
  predicate MayStand(c: char) {
    c == '\t' || (c >= ' ' && c != '\U{7F}')
  }

  /** The rest of a basic string, up to and past its closing quote. */
  function ParseBody(s: string): (r: Option<(string, string)>)
    ensures r.Some? ==> |r.value.1| < |s|
    decreases |s|
  {
    if s == "" then None
    else if s[0] == '"' then Some(("", s[1..]))
    else if s[0] == '\\' then
      var c := Unescape(s[1..]);
      if c.None? then None
      else
        var more := ParseBody(c.value.1);
        if more.None? then None else Some(([c.value.0] + more.value.0, more.value.1))
    else if !MayStand(s[0]) then None
    else
      var more := ParseBody(s[1..]);
      if more.None? then None else Some(([s[0]] + more.value.0, more.value.1))
  }

  function SkipSpace(s: string): (r: string)
    ensures |r| <= |s|
  {
    if s != "" && (s[0] == ' ' || s[0] == '\t') then SkipSpace(s[1..]) else s
  }

  /** Between the items of an array, line ends are space too. */
  function SkipLines(s: string): (r: string)
    ensures |r| <= |s|
  {
    if s != "" && (s[0] == ' ' || s[0] == '\t' || s[0] == '\n') then SkipLines(s[1..])
    else if |s| > 1 && s[0] == '\r' && s[1] == '\n' then SkipLines(s[2..])
    else s
  }

  function ParseValue(s: string): (r: Option<(Value, string)>)
    ensures r.Some? ==> |r.value.1| < |s|
    decreases |s|, 0
  {
    if s == "" then None
    else if s[0] == '"' then
      var text := ParseBody(s[1..]);
      if text.None? then None else Some((Str(text.value.0), text.value.1))
    else if s[0] == '[' then
      var items := ParseItems(s[1..]);
      if items.None? then None else Some((Arr(items.value.0), items.value.1))
    else if s[0] == '{' then
      var entries := ParseTable(s[1..]);
      if entries.None? then None else Some((Table(entries.value.0), entries.value.1))
    else
      var n := TokenRun(s);
      var v := Scalar(s[..n]);
      if n == 0 || v.None? then None else Some((v.value, s[n..]))
  }

  /** The items of an array after its bracket or a comma; a last comma may stand alone. */
  function ParseItems(s: string): (r: Option<(seq<Value>, string)>)
    ensures r.Some? ==> |r.value.1| < |s|
    decreases |s|, 1
  {
    var t := SkipLines(s);
    if t != "" && t[0] == ']' then Some(([], t[1..]))
    else
      var v := ParseValue(t);
      if v.None? then None
      else
        var u := SkipLines(v.value.1);
        if u == "" then None
        else if u[0] == ']' then Some(([v.value.0], u[1..]))
        else if u[0] != ',' then None
        else
          var more := ParseItems(u[1..]);
          if more.None? then None else Some(([v.value.0] + more.value.0, more.value.1))
  }

  predicate DistinctKeys(entries: seq<(string, Value)>) {
    forall i, j | 0 <= i < j < |entries| :: entries[i].0 != entries[j].0
  }

  function ParseTable(s: string): (r: Option<(seq<(string, Value)>, string)>)
    ensures r.Some? ==> |r.value.1| < |s|
    decreases |s|, 2
  {
    var t := SkipSpace(s);
    if t != "" && t[0] == '}' then Some(([], t[1..]))
    else
      var entries := ParseEntries(t);
      if entries.None? || !DistinctKeys(entries.value.0) then None else entries
  }

  /** A quoted key, up to the value behind its equals sign. */
  function ParseKey(s: string): (r: Option<(string, string)>)
    ensures r.Some? ==> |r.value.1| < |s|
  {
    if s == "" || s[0] != '"' then None
    else
      var key := ParseBody(s[1..]);
      if key.None? then None
      else
        var t := SkipSpace(key.value.1);
        if t == "" || t[0] != '=' then None else Some((key.value.0, SkipSpace(t[1..])))
  }

  function ParseEntries(s: string): (r: Option<(seq<(string, Value)>, string)>)
    ensures r.Some? ==> |r.value.1| < |s|
    decreases |s|, 1
  {
    var key := ParseKey(s);
    if key.None? then None
    else
      var v := ParseValue(key.value.1);
      if v.None? then None
      else
        var u := SkipSpace(v.value.1);
        if u == "" then None
        else if u[0] == '}' then Some(([(key.value.0, v.value.0)], u[1..]))
        else if u[0] != ',' then None
        else
          var more := ParseEntries(SkipSpace(u[1..]));
          if more.None? then None else Some(([(key.value.0, v.value.0)] + more.value.0, more.value.1))
  }

  // ---------- round trip ----------

  /** The one character that json.dumps leaves as it is and TOML forbids. */
  const DEL: char := '\U{7F}'

  predicate Clean(v: Value)
    decreases v
  {
    match v
    case Str(s) => DEL !in s
    case Arr(items) => forall x | x in items :: Clean(x)
    case Table(entries) => forall e | e in entries :: DEL !in e.0 && Clean(e.1)
    case _ => true
  }

  /** What every Python value has: distinct dictionary keys, and floats that print as such. */
  predicate Genuine(v: Value)
    decreases v
  {
    match v
    case Float(repr) => IsFloat(repr)
    case Arr(items) => forall x | x in items :: Genuine(x)
    case Table(entries) => DistinctKeys(entries) && forall e | e in entries :: Genuine(e.1)
    case _ => true
  }

  /** What may follow a value: the end of the text, or no letter, digit or sign. */
  predicate Delimited(rest: string) {
    rest == "" || !IsTokenChar(rest[0])
  }

  lemma HexRoundTrip(digit: int)
    requires 0 <= digit < 16
    ensures HexValue(Hex(digit)) == Some(digit)
  {
  }

  lemma ControlRoundTrip(c: char, rest: string)
    requires c < ' '
    ensures Unescape("u00" + [Hex(c as int / 16), Hex(c as int % 16)] + rest) == Some((c, rest))
  {
    var high, low := Hex(c as int / 16), Hex(c as int % 16);
    HexRoundTrip(c as int / 16);
    HexRoundTrip(c as int % 16);
    var s := "u00" + [high, low] + rest;
    var four := "00" + [high, low];
    assert s[1..5] == four && s[5..] == rest;
    assert four[..3] == "00" + [high] && four[..3][..2] == "00" && four[..3][..2][..1] == "0";
    assert HexNumber("") == Some(0);
    assert "0"[..0] == "";
    assert HexNumber("0") == Some(0);
    assert HexNumber("00") == Some(0);
    assert HexNumber("00" + [high]) == Some(c as int / 16);
  }

  /** What one more character in front makes of the rest of a string. */
  function Before(c: char, more: Option<(string, string)>): Option<(string, string)> {
    if more.None? then None else Some(([c] + more.value.0, more.value.1))
  }

  lemma PlainCharacter(c: char, rest: string)
    requires Escaped(c) == [c]
    ensures ParseBody([c] + rest) == if c == DEL then None else Before(c, ParseBody(rest))
  {
    assert ([c] + rest)[1..] == rest;
  }

  lemma EscapedCharacter(c: char, rest: string)
    requires |Escaped(c)| > 1
    ensures c != DEL && Escaped(c)[0] == '\\' && Unescape(Escaped(c)[1..] + rest) == Some((c, rest))
  {
    if |Escaped(c)| == 2 {
      assert (Escaped(c)[1..] + rest)[1..] == rest;
    } else {
      ControlRoundTrip(c, rest);
      assert Escaped(c)[1..] == "u00" + [Hex(c as int / 16), Hex(c as int % 16)];
    }
  }

  lemma EscapedRoundTrip(c: char, rest: string)
    ensures ParseBody(Escaped(c) + rest) == if c == DEL then None else Before(c, ParseBody(rest))
  {
    if |Escaped(c)| == 1 {
      PlainCharacter(c, rest);
    } else {
      EscapedCharacter(c, rest);
      hide Escaped, Unescape;
      assert (Escaped(c) + rest)[1..] == Escaped(c)[1..] + rest;
    }
  }

  lemma {:induction false} BodyRoundTrip(s: string, rest: string)
    ensures ParseBody(Body(s) + "\"" + rest) == if DEL in s then None else Some((s, rest))
  {
    if s == "" {
      assert Body(s) + "\"" + rest == "\"" + rest;
    } else {
      hide Escaped, ParseBody;
      BodyRoundTrip(s[1..], rest);
      EscapedRoundTrip(s[0], Body(s[1..]) + "\"" + rest);
      assert Body(s) + "\"" + rest == Escaped(s[0]) + (Body(s[1..]) + "\"" + rest);
      assert s == [s[0]] + s[1..];
    }
  }

  lemma {:induction false} DecimalRoundTrip(n: nat)
    ensures AllDigits(Decimal(n)) && PlainValue(Decimal(n)) == n && |Decimal(n)| > 0
    ensures n > 0 ==> Decimal(n)[0] != '0'
  {
    if n < 10 {
      assert [Digit(n)][..0] == "";
    } else {
      DecimalRoundTrip(n / 10);
      assert Decimal(n)[..|Decimal(n)| - 1] == Decimal(n / 10);
    }
  }

  lemma IntegerRoundTrip(n: int)
    ensures Scalar(Integer(n)) == Some(Int(n))
    ensures forall k | 0 <= k < |Integer(n)| :: IsTokenChar(Integer(n)[k])
    ensures |Integer(n)| > 0
  {
    var m := if n < 0 then -n else n;
    DecimalRoundTrip(m);
    assert m < 10 ==> |Decimal(m)| == 1;
    assert Unsigned(Integer(n)) == Decimal(m);
    assert IsDigit(Decimal(m)[0]);
  }

  lemma FloatIsNotInteger(repr: string)
    requires IsFloat(repr)
    ensures |repr| > 0 && Scalar(repr) == Some(Float(repr))
  {
    var u := Unsigned(repr);
    var n := DigitRun(u);
    if u == "inf" || u == "nan" {
      assert !IsDigit(u[0]);
    } else {
      assert !IsDigit(u[n]) && IsDigit(u[..n][0]);
    }
  }

  lemma {:induction false} TokenRoundTrip(token: string, rest: string)
    requires Delimited(rest) && forall k | 0 <= k < |token| :: IsTokenChar(token[k])
    ensures TokenRun(token + rest) == |token|
  {
    if token == "" {
      assert token + rest == rest;
    } else {
      TokenRoundTrip(token[1..], rest);
      assert (token + rest)[1..] == token[1..] + rest;
    }
  }

  lemma TokenOf(v: Value)
    requires (v.Bool? || v.Int? || v.Float?) && Genuine(v)
    ensures |Text(v)| > 0 && Scalar(Text(v)) == Some(v)
    ensures forall k | 0 <= k < |Text(v)| :: IsTokenChar(Text(v)[k])
  {
    hide Decimal, Integer;
    match v
    case Bool(_) =>
    case Int(n) =>
      hide Scalar;
      IntegerRoundTrip(n);
    case Float(repr) =>
      FloatIsNotInteger(repr);
  }

  lemma ScalarRoundTrip(v: Value, rest: string)
    requires (v.Bool? || v.Int? || v.Float?) && Genuine(v) && Delimited(rest)
    ensures |Text(v)| > 0 && IsTokenChar(Text(v)[0])
    ensures ParseValue(Text(v) + rest) == Some((v, rest))
  {
    hide Scalar, Text, TokenRun, ParseBody, ParseItems, ParseTable;
    var token := Text(v);
    TokenOf(v);
    TokenRoundTrip(token, rest);
    assert IsTokenChar((token + rest)[0]);
    assert (token + rest)[..|token|] == token && (token + rest)[|token|..] == rest;
  }

  /** No printed value begins like the space or the bracket the decoder looks for first. */
  lemma FirstCharacter(v: Value)
    requires Supported(v) && Genuine(v)
    ensures |Text(v)| > 0
    ensures Text(v)[0] == '"' || Text(v)[0] == '[' || Text(v)[0] == '{' || IsTokenChar(Text(v)[0])
  {
    if v.Bool? || v.Int? || v.Float? {
      ScalarRoundTrip(v, "");
    }
  }

  /** Decoding what the printer wrote, followed by any delimiter, gives back the value and
      the rest of the text, unless a string in it holds U+007F: then it is refused. */
  lemma {:induction false} ValueRoundTrip(v: Value, rest: string)
    requires Supported(v) && Genuine(v) && Delimited(rest)
    ensures ParseValue(Text(v) + rest) == if Clean(v) then Some((v, rest)) else None
    decreases v, 1
  {
    hide ParseValue, ParseItems, ParseEntries, ParseTable, ParseBody, Items, Entries, Body;
    match v
    case Str(text) => TextRoundTrip(text, rest);
    case Arr(items) =>
      Bracket(items, rest);
      if items == [] {
        NoItems(rest);
      } else {
        ItemsRoundTrip(items, rest);
      }
    case Table(entries) =>
      if entries != [] {
        EntriesRoundTrip(entries, rest);
      }
      TableRoundTrip(entries, rest);
      Brace(entries, rest);
    case _ => ScalarRoundTrip(v, rest);
  }

  lemma Bracket(items: seq<Value>, rest: string)
    ensures var parsed := ParseItems(Items(items) + "]" + rest);
            ParseValue("[" + Items(items) + "]" + rest)
            == if parsed.None? then None else Some((Arr(parsed.value.0), parsed.value.1))
  {
    hide ParseItems, Items;
    assert ("[" + Items(items) + "]" + rest)[1..] == Items(items) + "]" + rest;
  }

  lemma Brace(entries: seq<(string, Value)>, rest: string)
    ensures var parsed := ParseTable(" " + (Entries(entries) + " }" + rest));
            ParseValue("{ " + Entries(entries) + " }" + rest)
            == if parsed.None? then None else Some((Table(parsed.value.0), parsed.value.1))
  {
    hide ParseTable, Entries;
    assert ("{ " + Entries(entries) + " }" + rest)[1..] == " " + (Entries(entries) + " }" + rest);
  }

  lemma TextRoundTrip(text: string, rest: string)
    ensures ParseValue(Quoted(text) + rest) == if DEL in text then None else Some((Str(text), rest))
  {
    hide ParseBody, Body, ParseItems, ParseTable, Scalar, TokenRun;
    BodyRoundTrip(text, rest);
    assert (Quoted(text) + rest)[1..] == Body(text) + "\"" + rest;
  }

  lemma NoItems(rest: string)
    ensures Items([]) + "]" + rest == "]" + rest && ParseItems("]" + rest) == Some(([], rest))
  {
    assert ("]" + rest)[1..] == rest;
  }

  lemma TableRoundTrip(entries: seq<(string, Value)>, rest: string)
    requires DistinctKeys(entries) && (entries != [] ==> Entries(entries) != "" && Entries(entries)[0] == '"')
    ensures ParseTable(" " + (Entries(entries) + " }" + rest))
            == if entries == [] then Some(([], rest))
               else
                 var parsed := ParseEntries(Entries(entries) + " }" + rest);
                 if parsed.None? || !DistinctKeys(parsed.value.0) then None else parsed
  {
    var t := Entries(entries) + " }" + rest;
    assert (" " + t)[1..] == t;
    if entries == [] {
      assert t == " }" + rest && t[1..] == "}" + rest;
      assert SkipSpace(t) == t[1..] && t[1..][1..] == rest;
    } else {
      assert SkipSpace(t) == t;
    }
  }

  /** What an item in front makes of the items behind a comma. */
  function BeforeItems(v: Value, more: Option<(seq<Value>, string)>): Option<(seq<Value>, string)> {
    if more.None? then None else Some(([v] + more.value.0, more.value.1))
  }

  lemma FirstItem(s: string)
    requires s != "" && SkipLines(s) == s && s[0] != ']'
    ensures ParseValue(s).None? ==> ParseItems(s).None?
    ensures ParseValue(s).Some? ==>
              var (v, behind) := ParseValue(s).value;
              && (|behind| > 0 && behind[0] == ']' ==> ParseItems(s) == Some(([v], behind[1..])))
              && (|behind| > 0 && behind[0] == ',' ==> ParseItems(s) == BeforeItems(v, ParseItems(behind[1..])))
  {
    hide ParseValue;
  }

  lemma LastItem(v: Value, rest: string)
    requires Supported(v) && Genuine(v)
    ensures ParseItems(Text(v) + "]" + rest) == if Clean(v) then Some(([v], rest)) else None
    decreases v, 2
  {
    hide Supported, Genuine, Clean, ParseValue, ParseItems, Text;
    var behind := "]" + rest;
    FirstCharacter(v);
    ValueRoundTrip(v, behind);
    assert Text(v) + "]" + rest == Text(v) + behind;
    FirstItem(Text(v) + behind);
    assert behind[1..] == rest;
  }

  lemma ItemBeforeOthers(v: Value, others: string)
    requires Supported(v) && Genuine(v)
    ensures ParseItems(Text(v) + ", " + others) == if Clean(v) then BeforeItems(v, ParseItems(others)) else None
    decreases v, 2
  {
    hide Supported, Genuine, Clean, ParseValue, ParseItems, Text;
    var behind := ", " + others;
    FirstCharacter(v);
    ValueRoundTrip(v, behind);
    assert Text(v) + ", " + others == Text(v) + behind;
    FirstItem(Text(v) + behind);
    assert behind[1..] == " " + others;
    SpaceBeforeItems(others);
  }

  lemma {:induction false} ItemsRoundTrip(items: seq<Value>, rest: string)
    requires items != [] && forall x | x in items :: Supported(x) && Genuine(x)
    ensures ParseItems(Items(items) + "]" + rest)
            == if forall x | x in items :: Clean(x) then Some((items, rest)) else None
    decreases items, 0
  {
    hide Supported, Genuine, Clean, ParseValue, ParseItems, Text;
    var v := items[0];
    if |items| == 1 {
      assert items == [v];
      LastItem(v, rest);
    } else {
      var others := Items(items[1..]) + "]" + rest;
      ItemsRoundTrip(items[1..], rest);
      ItemBeforeOthers(v, others);
      assert Items(items) + "]" + rest == Text(v) + ", " + others;
      assert items == [v] + items[1..];
    }
  }

  lemma SpaceBeforeItems(t: string)
    ensures ParseItems(" " + t) == ParseItems(t)
  {
    assert (" " + t)[1..] == t;
    assert SkipLines(" " + t) == SkipLines(t);
  }

  lemma KeyRoundTrip(key: string, rest: string)
    requires rest != "" && rest[0] != ' ' && rest[0] != '\t'
    ensures ParseKey(Quoted(key) + " = " + rest) == if DEL in key then None else Some((key, rest))
  {
    hide ParseBody, Body, SkipSpace;
    var s := Quoted(key) + " = " + rest;
    BodyRoundTrip(key, " = " + rest);
    assert s[1..] == Body(key) + "\"" + (" = " + rest);
    EqualsSign(rest);
  }

  lemma EqualsSign(rest: string)
    requires rest != "" && rest[0] != ' ' && rest[0] != '\t'
    ensures var t := SkipSpace(" = " + rest); t != "" && t[0] == '=' && SkipSpace(t[1..]) == rest
  {
    var t := " = " + rest;
    assert t[1..] == "= " + rest && SkipSpace(t) == t[1..];
    assert t[1..][1..] == " " + rest && (" " + rest)[1..] == rest;
    assert SkipSpace(" " + rest) == rest;
  }

  /** One key and its value, whatever stands behind them. */
  lemma {:induction false} EntryRoundTrip(e: (string, Value), behind: string)
    requires Supported(e.1) && Genuine(e.1) && Delimited(behind)
    ensures Entry(e) != "" && Entry(e)[0] == '"'
    ensures var key := ParseKey(Entry(e) + behind);
            if DEL in e.0 then key.None?
            else key.Some? && key.value.0 == e.0
                 && ParseValue(key.value.1) == if Clean(e.1) then Some((e.1, behind)) else None
    decreases e, 0
  {
    ValueRoundTrip(e.1, behind);
    FirstCharacter(e.1);
    KeyRoundTrip(e.0, Text(e.1) + behind);
    assert Entry(e) + behind == Quoted(e.0) + " = " + (Text(e.1) + behind);
  }

  function BeforeEntries(e: (string, Value), more: Option<(seq<(string, Value)>, string)>)
    : Option<(seq<(string, Value)>, string)> {
    if more.None? then None else Some(([e] + more.value.0, more.value.1))
  }

  lemma FirstEntry(s: string)
    ensures ParseKey(s).None? ==> ParseEntries(s).None?
    ensures ParseKey(s).Some? ==>
              var (key, at) := ParseKey(s).value;
              && (ParseValue(at).None? ==> ParseEntries(s).None?)
              && (ParseValue(at).Some? ==>
                    var (v, behind) := ParseValue(at).value;
                    var u := SkipSpace(behind);
                    && (u != "" && u[0] == '}' ==> ParseEntries(s) == Some(([(key, v)], u[1..])))
                    && (u != "" && u[0] == ',' ==>
                          ParseEntries(s) == BeforeEntries((key, v), ParseEntries(SkipSpace(u[1..])))))
  {
    hide ParseValue, ParseKey;
  }

  lemma LastEntry(e: (string, Value), rest: string)
    requires Supported(e.1) && Genuine(e.1)
    ensures ParseEntries(Entry(e) + " }" + rest) == if DEL !in e.0 && Clean(e.1) then Some(([e], rest)) else None
    decreases e, 1
  {
    hide Supported, Genuine, Clean, ParseValue, ParseKey, ParseEntries, Entry;
    var behind := " }" + rest;
    EntryRoundTrip(e, behind);
    assert Entry(e) + " }" + rest == Entry(e) + behind;
    FirstEntry(Entry(e) + behind);
    assert behind[1..] == "}" + rest && behind[1..][1..] == rest;
  }

  lemma EntryBeforeOthers(e: (string, Value), others: string)
    requires Supported(e.1) && Genuine(e.1) && others != "" && others[0] == '"'
    ensures ParseEntries(Entry(e) + ", " + others)
            == if DEL !in e.0 && Clean(e.1) then BeforeEntries(e, ParseEntries(others)) else None
    decreases e, 1
  {
    hide Supported, Genuine, Clean, ParseValue, ParseKey, ParseEntries, Entry;
    var behind := ", " + others;
    EntryRoundTrip(e, behind);
    assert Entry(e) + ", " + others == Entry(e) + behind;
    FirstEntry(Entry(e) + behind);
    assert behind[1..] == " " + others && behind[1..][1..] == others;
  }

  lemma {:induction false} EntriesRoundTrip(entries: seq<(string, Value)>, rest: string)
    requires entries != [] && forall e | e in entries :: Supported(e.1) && Genuine(e.1)
    ensures Entries(entries) != "" && Entries(entries)[0] == '"'
    ensures ParseEntries(Entries(entries) + " }" + rest)
            == if forall e | e in entries :: DEL !in e.0 && Clean(e.1) then Some((entries, rest)) else None
    decreases entries, 0
  {
    hide Supported, Genuine, Clean, ParseValue, ParseKey, ParseEntries, Text, Body;
    var e := entries[0];
    if |entries| == 1 {
      assert entries == [e];
      LastEntry(e, rest);
    } else {
      var others := Entries(entries[1..]) + " }" + rest;
      EntriesRoundTrip(entries[1..], rest);
      EntryBeforeOthers(e, others);
      assert Entries(entries) + " }" + rest == Entry(e) + ", " + others;
      assert entries == [e] + entries[1..];
    }
  }

  /** The printer fails exactly on values TOML cannot express; what it prints decodes to the
      value exactly when no string in it holds U+007F. */
  lemma PrintedValueDecodes(v: Value, rest: string)
    requires Genuine(v) && Delimited(rest)
    ensures ToToml(v).Err? <==> !Supported(v)
    ensures ToToml(v).Ok? ==> (ParseValue(ToToml(v).value + rest) == Some((v, rest)) <==> Clean(v))
  {
    if Supported(v) {
      ValueRoundTrip(v, rest);
    }
  }

  // ---------- what cannot be printed ----------

  function Leaves(v: Value): seq<Value>
    decreases v, 1
  {
    match v
    case Arr(items) => ItemLeaves(items)
    case Table(entries) => EntryLeaves(entries)
    case _ => [v]
  }

  function ItemLeaves(items: seq<Value>): seq<Value>
    decreases items, 0
  {
    if items == [] then [] else Leaves(items[0]) + ItemLeaves(items[1..])
  }

  function EntryLeaves(entries: seq<(string, Value)>): seq<Value>
    decreases entries, 0
  {
    if entries == [] then [] else LeavesBehind(entries[0]) + EntryLeaves(entries[1..])
  }

  function LeavesBehind(e: (string, Value)): seq<Value>
    decreases e, 0
  {
    Leaves(e.1)
  }

  /** Printing fails exactly on values with something at a leaf that TOML cannot express. */
  lemma {:induction false} FailsOnOtherLeaves(v: Value)
    ensures ToToml(v).Err? <==> Other in Leaves(v)
    decreases v, 1
  {
    match v
    case Arr(items) => ItemsFail(items);
    case Table(entries) => EntriesFail(entries);
    case _ =>
  }

  lemma {:induction false} ItemsFail(items: seq<Value>)
    ensures (forall x | x in items :: Supported(x)) <==> Other !in ItemLeaves(items)
    decreases items, 0
  {
    if items != [] {
      FailsOnOtherLeaves(items[0]);
      ItemsFail(items[1..]);
      assert forall x :: x in items <==> x == items[0] || x in items[1..];
      assert Supported(items[0]) <==> ToToml(items[0]).Ok?;
      assert (forall x | x in items :: Supported(x))
        <==> Supported(items[0]) && forall x | x in items[1..] :: Supported(x);
    }
  }

  lemma {:induction false} EntriesFail(entries: seq<(string, Value)>)
    ensures (forall e | e in entries :: Supported(e.1)) <==> Other !in EntryLeaves(entries)
    decreases entries, 0
  {
    if entries != [] {
      EntryFails(entries[0]);
      EntriesFail(entries[1..]);
      assert forall e :: e in entries <==> e == entries[0] || e in entries[1..];
    }
  }

  lemma {:induction false} EntryFails(e: (string, Value))
    ensures Supported(e.1) <==> Other !in LeavesBehind(e)
    decreases e, 0
  {
    FailsOnOtherLeaves(e.1);
  }
}
