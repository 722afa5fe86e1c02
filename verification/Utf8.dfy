/** UTF-8 (RFC 3629), the encoding of every string in a Quack message. */
module Utf8 {
  import opened Wrappers

  type Byte = b: int | 0 <= b < 256

  predicate IsScalar(n: int) {
    0 <= n < 0xD800 || 0xE000 <= n < 0x11_0000
  }

  /** A continuation byte. */
  function Tail(n: nat): Byte { 0x80 + n % 64 }

  function EncodeScalar(n: nat): (r: seq<Byte>)
    requires IsScalar(n)
    ensures 1 <= |r| <= 4
  {
    var a, b, c := n / 64, n / 64 / 64, n / 64 / 64 / 64;
    if n < 0x80 then [n]
    else if n < 0x800 then [0xC0 + a, Tail(n)]
    else if n < 0x1_0000 then [0xE0 + b, Tail(a), Tail(n)]
    else [0xF0 + c, Tail(b), Tail(a), Tail(n)]
  }

  function Encode(s: string): seq<Byte> {
    if s == [] then [] else EncodeScalar(s[0] as int) + Encode(s[1..])
  }

  /** How many bytes the sequence that starts with this byte takes; zero if none does. */
  function Width(lead: Byte): nat {
    if lead < 0x80 then 1
    else if lead < 0xC0 then 0
    else if lead < 0xE0 then 2
    else if lead < 0xF0 then 3
    else if lead < 0xF8 then 4
    else 0
  }

  predicate AreTails(raw: seq<Byte>) {
    forall k | 0 <= k < |raw| :: 0x80 <= raw[k] < 0xC0
  }

  /** The bits so far, followed by the six bits of a continuation byte. */
  function Join(bits: int, tail: Byte): int { bits * 64 + (tail - 0x80) }

  /** The scalar of one well-formed sequence; overlong forms and surrogates are refused. */
  function DecodeScalar(raw: seq<Byte>): (r: Option<int>)
    ensures r.Some? ==> IsScalar(r.value) && |raw| > 0
  {
    if |raw| == 0 || Width(raw[0]) != |raw| || !AreTails(raw[1..]) then None
    else
      var n: int :=
        match |raw|
        case 1 => raw[0]
        case 2 => Join(raw[0] - 0xC0, raw[1])
        case 3 => Join(Join(raw[0] - 0xE0, raw[1]), raw[2])
        case _ => Join(Join(Join(raw[0] - 0xF0, raw[1]), raw[2]), raw[3]);
      if IsScalar(n) && |EncodeScalar(n)| == |raw| then Some(n) else None
  }

  /** The string these bytes encode, or nothing when they are not well formed. */
  function Decode(raw: seq<Byte>): Option<string> {
    if raw == [] then Some("")
    else
      var width := Width(raw[0]);
      if width == 0 || width > |raw| then None
      else
        var first, rest := DecodeScalar(raw[..width]), Decode(raw[width..]);
        if first.None? || rest.None? then None else Some([first.value as char] + rest.value)
  }

  lemma ScalarRoundTrip(n: nat)
    requires IsScalar(n)
    ensures Width(EncodeScalar(n)[0]) == |EncodeScalar(n)|
    ensures DecodeScalar(EncodeScalar(n)) == Some(n)
  {
    var a, b, c := n / 64, n / 64 / 64, n / 64 / 64 / 64;
    var raw := EncodeScalar(n);
    if n < 0x80 {
    } else if n < 0x800 {
      assert Join(a, Tail(n)) == n;
    } else if n < 0x1_0000 {
      assert b < 16 && Join(b, Tail(a)) == a && Join(a, Tail(n)) == n;
    } else {
      assert c <= 4 && Join(c, Tail(b)) == b && Join(b, Tail(a)) == a && Join(a, Tail(n)) == n;
    }
  }

  lemma {:induction false} RoundTrip(s: string)
    ensures Decode(Encode(s)) == Some(s)
  {
    if s != [] {
      var first, rest := EncodeScalar(s[0] as int), Encode(s[1..]);
      ScalarRoundTrip(s[0] as int);
      RoundTrip(s[1..]);
      assert (first + rest)[..|first|] == first && (first + rest)[|first|..] == rest;
      assert [s[0]] + s[1..] == s;
    }
  }
}
