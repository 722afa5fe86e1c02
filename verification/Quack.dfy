/** The binary Quack request encoder and the response-header decoder: little-endian field
    numbers, unsigned LEB128 integers, and length-prefixed UTF-8 strings. */
module Quack {
  import opened Utf8
  import opened Wrappers

  const END_FIELD: nat := 65535
  const MAX_GROUPS: nat := 10

  /** From this length on a read of the stream is refused: it fits into no machine index. */
  const NO_INDEX: nat := 0x8000_0000_0000_0000

  // ---------- unsigned LEB128 ----------

  function Uleb(value: nat): (r: seq<Byte>)
    ensures |r| > 0
  {
    if value < 128 then [value] else [value % 128 + 128] + Uleb(value / 128)
  }

  method EncodeUleb(value: nat) returns (encoded: seq<Byte>)
    ensures encoded == Uleb(value)
  {
    encoded := [];
    var rest := value;
    while rest >= 128
      invariant encoded + Uleb(rest) == Uleb(value)
    {
      encoded := encoded + [rest % 128 + 128];
      rest := rest / 128;
    }
    encoded := encoded + [rest];
  }

  /** 128 to the power `k`: the weight of the k-th group of seven bits. */
  function Weight(k: nat): (w: nat)
    ensures w > 0
  {
    if k == 0 then 1 else 128 * Weight(k - 1)
  }

  /** The value of the groups from `pos` on, and where they end; at most `groups` of them. */
  function ReadUleb(raw: seq<Byte>, pos: nat, groups: nat): Result<(nat, nat)>
    requires pos <= |raw|
    decreases groups
  {
    if groups == 0 || pos == |raw| then Err
    else if raw[pos] < 128 then Ok((raw[pos], pos + 1))
    else
      var more := ReadUleb(raw, pos + 1, groups - 1);
      if more.Err? then Err else Ok((raw[pos] - 128 + 128 * more.value.0, more.value.1))
  }

  lemma {:induction false} ReadUlebEnds(raw: seq<Byte>, pos: nat, groups: nat)
    requires pos <= |raw| && ReadUleb(raw, pos, groups).Ok?
    ensures pos < ReadUleb(raw, pos, groups).value.1 <= |raw|
    decreases groups
  {
    if raw[pos] >= 128 {
      ReadUlebEnds(raw, pos + 1, groups - 1);
    }
  }

  /** What the loop has summed so far, given what the groups to come are worth. */
  function Summed(sum: int, weight: int, more: Result<(nat, nat)>): Result<(int, nat)> {
    if more.Err? then Err else Ok((sum + weight * more.value.0, more.value.1))
  }

  /** The seven value bits of a group. */
  function Low(byte: Byte): (bits: nat)
    ensures bits == if byte < 128 then byte else byte - 128
  {
    byte % 128
  }

  method DecodeUleb(raw: seq<Byte>, pos: nat) returns (r: Result<(nat, nat)>)
    requires pos <= |raw|
    ensures r == ReadUleb(raw, pos, MAX_GROUPS)
  {
    hide Summed, Low;
    var sum: nat, weight: nat, at := 0, 1, pos;
    SummedEnds(ReadUleb(raw, pos, MAX_GROUPS));
    for k := 0 to MAX_GROUPS
      invariant at == pos + k <= |raw| && weight > 0
      invariant Summed(sum, weight, ReadUleb(raw, at, MAX_GROUPS - k)) == ReadUleb(raw, pos, MAX_GROUPS)
    {
      if at == |raw| {
        SummedErr(sum, weight);
        return Err;
      }
      var byte := raw[at];
      at := at + 1;
      // The seven bits of this group lie above everything summed so far.
      ghost var before := sum;
      LastGroup(sum, weight, byte, at);
      sum := sum + weight * Low(byte);
      if byte < 128 {
        return Ok((sum, at));
      }
      ghost var more := ReadUleb(raw, at, MAX_GROUPS - k - 1);
      AddGroup(before, weight, byte, more);
      weight := 128 * weight;
    }
    SummedErr(sum, weight);
    return Err;
  }

  lemma SummedEnds(more: Result<(nat, nat)>)
    ensures Summed(0, 1, more) == more
  {
  }

  lemma SummedErr(sum: int, weight: int)
    ensures Summed(sum, weight, Err) == Err
  {
  }

  lemma LastGroup(sum: nat, weight: nat, byte: Byte, end: nat)
    ensures weight * Low(byte) >= 0
    ensures byte < 128 ==> Summed(sum, weight, Ok((byte, end))) == Ok((sum + weight * Low(byte), end))
  {
  }

  lemma AddGroup(sum: int, weight: int, byte: Byte, more: Result<(nat, nat)>)
    requires byte >= 128
    ensures Summed(sum + weight * Low(byte), 128 * weight, more)
            == Summed(sum, weight, if more.Err? then Err else Ok((byte - 128 + 128 * more.value.0, more.value.1)))
  {
    if more.Ok? {
      Regroup(weight, byte - 128, more.value.0);
    }
  }

  lemma Regroup(weight: int, bits: int, more: int)
    ensures weight * (bits + 128 * more) == weight * bits + 128 * weight * more
  {
  }

  /** These bytes stand in the input at this place. */
  predicate Holds(raw: seq<Byte>, pos: nat, piece: seq<Byte>) {
    pos + |piece| <= |raw| && raw[pos..pos + |piece|] == piece
  }

  lemma HoldsBoth(raw: seq<Byte>, pos: nat, a: seq<Byte>, b: seq<Byte>)
    requires Holds(raw, pos, a + b)
    ensures Holds(raw, pos, a) && Holds(raw, pos + |a|, b)
  {
    assert raw[pos..pos + |a|] == (a + b)[..|a|];
    assert raw[pos + |a|..pos + |a| + |b|] == (a + b)[|a|..];
  }

  /** Reading gives back what was written, whatever surrounds it, exactly when the value fits
      into the groups that are read. */
  lemma {:induction false} UlebRoundTrip(raw: seq<Byte>, pos: nat, value: nat, groups: nat)
    requires Holds(raw, pos, Uleb(value))
    ensures ReadUleb(raw, pos, groups)
            == if value < Weight(groups) && groups > 0 then Ok((value, pos + |Uleb(value)|)) else Err
    decreases groups
  {
    if groups == 0 {
    } else if value < 128 {
      WeightGrows(groups);
      assert raw[pos..pos + 1][0] == value;
    } else {
      HoldsBoth(raw, pos, [value % 128 + 128], Uleb(value / 128));
      assert raw[pos..pos + 1][0] == value % 128 + 128;
      UlebRoundTrip(raw, pos + 1, value / 128, groups - 1);
      assert value < Weight(groups) <==> value / 128 < Weight(groups - 1);
    }
  }

  lemma WeightGrows(groups: nat)
    requires groups > 0
    ensures Weight(groups) >= 128
  {
  }

  lemma TenGroups()
    ensures Weight(MAX_GROUPS) == 0x40_0000_0000_0000_0000
  {
    assert Weight(5) == 0x8_0000_0000;
    assert Weight(10) == 128 * (128 * (128 * (128 * (128 * Weight(5)))));
  }

  // ---------- requests ----------

  /** A field number as two little-endian bytes. */
  function Word(key: nat): (bytes: seq<Byte>)
    requires key <= END_FIELD
    ensures |bytes| == 2
  {
    [key % 256, key / 256]
  }

  function Text(value: string): seq<Byte> {
    Uleb(|Encode(value)|) + Encode(value)
  }

  /** Numbered fields, without the end mark. A number that does not fit is an error. */
  function Numbered(values: seq<(int, seq<Byte>)>): Result<seq<Byte>> {
    if values == [] then Ok([])
    else
      var rest := Numbered(values[1..]);
      if !(0 <= values[0].0 <= END_FIELD) || rest.Err? then Err
      else Ok(Word(values[0].0) + values[0].1 + rest.value)
  }

  function Fields(values: seq<(int, seq<Byte>)>): Result<seq<Byte>> {
    var numbered := Numbered(values);
    if numbered.Err? then Err else Ok(numbered.value + Word(END_FIELD))
  }

  function HeaderFields(kind: nat, connection: Option<string>): seq<(int, seq<Byte>)> {
    [(1, Uleb(kind))] + (if connection.Some? then [(2, Text(connection.value))] else []) + [(3, Uleb(1))]
  }

  function QuackRequest(kind: nat, connection: Option<string>, body: seq<(int, seq<Byte>)>): Result<seq<Byte>> {
    var header, rest := Fields(HeaderFields(kind, connection)), Fields(body);
    if header.Err? || rest.Err? then Err else Ok(header.value + rest.value)
  }

  // ---------- response headers ----------

  function Min(a: nat, b: nat): nat { if a < b then a else b }

  function WordAt(raw: seq<Byte>, pos: nat): (field: nat)
    requires pos + 2 <= |raw|
  {
    var low: nat, high: nat := raw[pos], raw[pos + 1];
    low + 256 * high
  }

  /** One field of a header: where it ends, and what is known of kind and connection then.
      A string cut short by the end of the input is decoded as far as it goes. */
  function ReadField(raw: seq<Byte>, pos: nat, field: nat, kind: Option<nat>, connection: Option<string>)
    : (r: Result<(nat, Option<nat>, Option<string>)>)
    requires pos <= |raw|
    ensures r.Ok? ==> pos < r.value.0 <= |raw|
  {
    var n := ReadUleb(raw, pos, MAX_GROUPS);
    if field < 1 || field > 3 || n.Err? then Err
    else
      ReadUlebEnds(raw, pos, MAX_GROUPS);
      if field == 1 then Ok((n.value.1, Some(n.value.0), connection))
      else if field == 3 then Ok((n.value.1, kind, connection))
      else if n.value.0 >= NO_INDEX then Err
      else
        var end := Min(n.value.1 + n.value.0, |raw|);
        var text := Decode(raw[n.value.1..end]);
        if text.None? then Err else Ok((end, kind, text))
  }

  function ReadHeader(raw: seq<Byte>, pos: nat, kind: Option<nat>, connection: Option<string>)
    : Result<(nat, Option<string>)>
    requires pos <= |raw|
    decreases |raw| - pos
  {
    if pos + 2 > |raw| then Err
    else
      var field := WordAt(raw, pos);
      if field == END_FIELD then (if kind.None? then Err else Ok((kind.value, connection)))
      else
        var read := ReadField(raw, pos + 2, field, kind, connection);
        if read.Err? then Err else ReadHeader(raw, read.value.0, read.value.1, read.value.2)
  }

  method QuackHeader(raw: seq<Byte>) returns (r: Result<(nat, Option<string>)>)
    ensures r == ReadHeader(raw, 0, None, None)
  {
    hide ReadUleb, Decode, Weight;
    var pos, kind: Option<nat>, connection: Option<string> := 0, None, None;
    while true
      invariant pos <= |raw|
      invariant ReadHeader(raw, pos, kind, connection) == ReadHeader(raw, 0, None, None)
      decreases |raw| - pos
    {
      if pos + 2 > |raw| {
        return Err;
      }
      var field := WordAt(raw, pos);
      if field == END_FIELD {
        break;
      }
      if field < 1 || field > 3 {
        return Err;
      }
      var n := DecodeUleb(raw, pos + 2);
      if n.Err? {
        return Err;
      }
      ReadUlebEnds(raw, pos + 2, MAX_GROUPS);
      pos := n.value.1;
      if field == 1 {
        kind := Some(n.value.0);
      } else if field == 2 {
        if n.value.0 >= NO_INDEX {
          return Err;
        }
        var end := Min(pos + n.value.0, |raw|);
        connection := Decode(raw[pos..end]);
        if connection.None? {
          return Err;
        }
        pos := end;
      }
    }
    return if kind.None? then Err else Ok((kind.value, connection));
  }

  // ---------- round trip ----------

  lemma WordRoundTrip(raw: seq<Byte>, pos: nat, key: nat)
    requires key <= END_FIELD && Holds(raw, pos, Word(key))
    ensures pos + 2 <= |raw| && WordAt(raw, pos) == key
  {
    assert raw[pos..pos + 2][0] == Word(key)[0] && raw[pos..pos + 2][1] == Word(key)[1];
  }

  /** A number field is read past, or refused when its number is too large. */
  lemma NumberField(raw: seq<Byte>, pos: nat, key: nat, value: nat, kind: Option<nat>, connection: Option<string>)
    requires (key == 1 || key == 3) && Holds(raw, pos, Word(key) + Uleb(value))
    ensures pos + 2 <= |raw| && WordAt(raw, pos) == key
    ensures ReadField(raw, pos + 2, key, kind, connection)
            == if value < Weight(MAX_GROUPS)
               then Ok((pos + |Word(key) + Uleb(value)|, if key == 1 then Some(value) else kind, connection)) else Err
  {
    hide Uleb, ReadUleb, Decode, Weight;
    HoldsBoth(raw, pos, Word(key), Uleb(value));
    WordRoundTrip(raw, pos, key);
    UlebRoundTrip(raw, pos + 2, value, MAX_GROUPS);
  }

  lemma TextField(raw: seq<Byte>, pos: nat, value: string, kind: Option<nat>, connection: Option<string>)
    requires Holds(raw, pos, Word(2) + Text(value))
    ensures pos + 2 <= |raw| && WordAt(raw, pos) == 2
    ensures ReadField(raw, pos + 2, 2, kind, connection)
            == if |Encode(value)| < NO_INDEX then Ok((pos + |Word(2) + Text(value)|, kind, Some(value))) else Err
  {
    TenGroups();
    hide Encode, Uleb, ReadUleb, Decode, Weight;
    var bytes := Encode(value);
    HoldsBoth(raw, pos, Word(2), Text(value));
    HoldsBoth(raw, pos + 2, Uleb(|bytes|), bytes);
    WordRoundTrip(raw, pos, 2);
    UlebRoundTrip(raw, pos + 2, |bytes|, MAX_GROUPS);
    RoundTrip(value);
  }

  lemma OneField(raw: seq<Byte>, pos: nat, kind: Option<nat>, connection: Option<string>)
    requires pos + 2 <= |raw| && WordAt(raw, pos) != END_FIELD
    ensures var read := ReadField(raw, pos + 2, WordAt(raw, pos), kind, connection);
            ReadHeader(raw, pos, kind, connection)
            == if read.Err? then Err else ReadHeader(raw, read.value.0, read.value.1, read.value.2)
  {
  }

  /** What the decoder makes of a request: exactly its kind and connection, unless the kind
      needs more than ten groups of seven bits or the connection is too long for one read. */
  lemma HeaderRoundTrip(kind: nat, connection: Option<string>, body: seq<(int, seq<Byte>)>)
    requires QuackRequest(kind, connection, body).Ok?
    ensures ReadHeader(QuackRequest(kind, connection, body).value, 0, None, None)
            == if kind < 0x40_0000_0000_0000_0000
                  && (connection.None? || |Encode(connection.value)| < NO_INDEX)
               then Ok((kind, connection)) else Err
  {
    hide Uleb, ReadUleb, Decode, Encode, Weight, ReadField, QuackRequest, Holds, ReadHeader, WordAt, Word, Fields;
    TenGroups();
    RequestLayout(kind, connection, body);
    var raw := QuackRequest(kind, connection, body).value;
    var first, middle, last := Word(1) + Uleb(kind), Middle(connection), Word(3) + Uleb(1);
    NumberField(raw, 0, 1, kind, None, None);
    OneField(raw, 0, None, None);
    if connection.Some? {
      TextField(raw, |first|, connection.value, Some(kind), None);
      OneField(raw, |first|, Some(kind), None);
    }
    NumberField(raw, |first| + |middle|, 3, 1, Some(kind), connection);
    OneField(raw, |first| + |middle|, Some(kind), connection);
    WordRoundTrip(raw, |first| + |middle| + |last|, END_FIELD);
    LastField(raw, |first| + |middle| + |last|, Some(kind), connection);
  }

  lemma LastField(raw: seq<Byte>, pos: nat, kind: Option<nat>, connection: Option<string>)
    requires pos + 2 <= |raw| && WordAt(raw, pos) == END_FIELD && kind.Some?
    ensures ReadHeader(raw, pos, kind, connection) == Ok((kind.value, connection))
  {
  }

  /** Where the header's fields lie in a request. */
  lemma RequestLayout(kind: nat, connection: Option<string>, body: seq<(int, seq<Byte>)>)
    requires QuackRequest(kind, connection, body).Ok?
    ensures var raw := QuackRequest(kind, connection, body).value;
            var first, middle, last := Word(1) + Uleb(kind), Middle(connection), Word(3) + Uleb(1);
            && Holds(raw, 0, first) && Holds(raw, |first|, middle)
            && Holds(raw, |first| + |middle|, last) && Holds(raw, |first| + |middle| + |last|, Word(END_FIELD))
  {
    hide Uleb, Middle;
    HeaderBytes(kind, connection);
    var raw := QuackRequest(kind, connection, body).value;
    var first, middle, last := Word(1) + Uleb(kind), Middle(connection), Word(3) + Uleb(1);
    assert Holds(raw, 0, first + (middle + (last + Word(END_FIELD))));
    HoldsBoth(raw, 0, first, middle + (last + Word(END_FIELD)));
    HoldsBoth(raw, |first|, middle, last + Word(END_FIELD));
    HoldsBoth(raw, |first| + |middle|, last, Word(END_FIELD));
  }

  function Middle(connection: Option<string>): seq<Byte> {
    if connection.Some? then Word(2) + Text(connection.value) else []
  }

  lemma HeaderBytes(kind: nat, connection: Option<string>)
    ensures Fields(HeaderFields(kind, connection))
            == Ok((Word(1) + Uleb(kind)) + (Middle(connection) + ((Word(3) + Uleb(1)) + Word(END_FIELD))))
  {
    var fields := HeaderFields(kind, connection);
    var tail := [(3, Uleb(1))];
    assert tail[1..] == [];
    assert Numbered(tail) == Ok(Word(3) + Uleb(1) + []);
    if connection.Some? {
      var two := [(2, Text(connection.value))] + tail;
      assert two[1..] == tail && fields[1..] == two;
      assert Numbered(two) == Ok(Word(2) + Text(connection.value) + (Word(3) + Uleb(1) + []));
      assert Numbered(fields) == Ok(Word(1) + Uleb(kind) + (Word(2) + Text(connection.value) + (Word(3) + Uleb(1) + [])));
    } else {
      assert fields[1..] == tail;
      assert Numbered(fields) == Ok(Word(1) + Uleb(kind) + (Word(3) + Uleb(1) + []));
    }
    assert Fields(fields).value
           == (Word(1) + Uleb(kind)) + (Middle(connection) + ((Word(3) + Uleb(1)) + Word(END_FIELD)));
  }

  /** A request can be made whatever its kind and connection, provided every body field
      number fits into two bytes. */
  lemma {:induction false} RequestsExist(kind: nat, connection: Option<string>, body: seq<(int, seq<Byte>)>)
    ensures QuackRequest(kind, connection, body).Ok?
            <==> forall k | 0 <= k < |body| :: 0 <= body[k].0 <= END_FIELD
  {
    HeaderBytes(kind, connection);
    NumberedFits(body);
  }

  lemma {:induction false} NumberedFits(values: seq<(int, seq<Byte>)>)
    ensures Numbered(values).Ok? <==> forall k | 0 <= k < |values| :: 0 <= values[k].0 <= END_FIELD
  {
    if values != [] {
      NumberedFits(values[1..]);
      assert forall k | 0 < k < |values| :: values[k] == values[1..][k - 1];
      assert forall k | 0 <= k < |values| - 1 :: values[1..][k] == values[k + 1];
    }
  }

  // ---------- all the bytes of a request ----------

  function Lengths(values: seq<(int, seq<Byte>)>): seq<nat> {
    if values == [] then [] else [|values[0].1|] + Lengths(values[1..])
  }

  /** Reads numbered fields with values of these lengths, each number as a low and a high
      byte, and the end mark of two bytes 255 behind them; also gives the place behind it. */
  function ReadFields(raw: seq<Byte>, pos: nat, lengths: seq<nat>): Option<(seq<(int, seq<Byte>)>, nat)>
    requires pos <= |raw|
    decreases |lengths|
  {
    if lengths == [] then
      if pos + 2 <= |raw| && raw[pos] == 255 && raw[pos + 1] == 255 then Some(([], pos + 2)) else None
    else if pos + 2 + lengths[0] > |raw| then None
    else
      var low: nat, high: nat := raw[pos], raw[pos + 1];
      var rest := ReadFields(raw, pos + 2 + lengths[0], lengths[1..]);
      if rest.None? then None
      else Some(([(low + 256 * high, raw[pos + 2..pos + 2 + lengths[0]])] + rest.value.0, rest.value.1))
  }

  /** What lies at the place of one field in front of others. */
  lemma FieldLies(before: seq<Byte>, key: nat, value: seq<Byte>, behind: seq<Byte>)
    requires key <= END_FIELD
    ensures var raw := before + (Word(key) + value + behind);
            var pos := |before|;
            && pos + 2 + |value| <= |raw|
            && (var low: nat, high: nat := raw[pos], raw[pos + 1]; low + 256 * high == key)
            && raw[pos + 2..pos + 2 + |value|] == value
  {
  }

  lemma OneIsRead(raw: seq<Byte>, pos: nat, key: nat, value: seq<Byte>, rest: seq<(int, seq<Byte>)>, end: nat)
    requires pos + 2 + |value| <= |raw| && raw[pos + 2..pos + 2 + |value|] == value
    requires var low: nat, high: nat := raw[pos], raw[pos + 1]; low + 256 * high == key
    requires ReadFields(raw, pos + 2 + |value|, Lengths(rest)) == Some((rest, end))
    ensures ReadFields(raw, pos, [|value|] + Lengths(rest)) == Some(([(key, value)] + rest, end))
  {
    assert ([|value|] + Lengths(rest))[1..] == Lengths(rest);
  }

  lemma FieldsSplit(values: seq<(int, seq<Byte>)>)
    requires values != [] && Fields(values).Ok?
    ensures 0 <= values[0].0 <= END_FIELD && Fields(values[1..]).Ok?
    ensures Fields(values).value == Word(values[0].0) + values[0].1 + Fields(values[1..]).value
    ensures Lengths(values) == [|values[0].1|] + Lengths(values[1..])
  {
  }

  lemma EndIsRead(before: seq<Byte>, after: seq<Byte>)
    ensures Fields([]).Ok? && Fields([]).value == [255, 255]
    ensures ReadFields(before + [255, 255] + after, |before|, []) == Some(([], |before| + 2))
  {
    assert Word(END_FIELD) == [255, 255] && Fields([]).value == [] + Word(END_FIELD);
    var raw := before + [255, 255] + after;
    assert raw[|before|] == 255 && raw[|before| + 1] == 255;
  }

  lemma Regrouped(before: seq<Byte>, word: seq<Byte>, value: seq<Byte>, rest: seq<Byte>, after: seq<Byte>)
    ensures before + (word + value + rest) + after == before + (word + value + (rest + after))
    ensures before + (word + value + rest) + after == before + word + value + rest + after
  {
  }

  lemma {:induction false} FieldsAreRead(before: seq<Byte>, values: seq<(int, seq<Byte>)>, after: seq<Byte>)
    requires Fields(values).Ok?
    ensures var raw := before + Fields(values).value + after;
            ReadFields(raw, |before|, Lengths(values)) == Some((values, |before| + |Fields(values).value|))
    decreases |values|
  {
    if values == [] {
      EndIsRead(before, after);
    } else {
      FieldsSplit(values);
      hide Fields, ReadFields, Lengths, Word;
      var key: nat, value := values[0].0, values[0].1;
      var rest := Fields(values[1..]).value;
      var raw := before + Fields(values).value + after;
      Regrouped(before, Word(key), value, rest, after);
      FieldsAreRead(before + Word(key) + value, values[1..], after);
      FieldLies(before, key, value, rest + after);
      OneIsRead(raw, |before|, key, value, values[1..], |before| + |Fields(values).value|);
      assert values == [(values[0].0, value)] + values[1..];
    }
  }

  /** A request is, byte for byte, its three or two header fields, the end mark, the fields of
      its body in their order, and the end mark again: a reader that is told the lengths of
      the values gets back all of them, up to the last byte. */
  lemma RequestIsRead(kind: nat, connection: Option<string>, body: seq<(int, seq<Byte>)>) returns (h: nat)
    requires QuackRequest(kind, connection, body).Ok?
    ensures var raw := QuackRequest(kind, connection, body).value;
            var text := if connection.None? then []
                        else [(2, Uleb(|Encode(connection.value)|) + Encode(connection.value))];
            var header := [(1, Uleb(kind))] + text + [(3, [1])];
            && h <= |raw| && ReadFields(raw, 0, Lengths(header)) == Some((header, h))
            && ReadFields(raw, h, Lengths(body)) == Some((body, |raw|))
  {
    hide ReadFields, Lengths, Fields, Encode;
    var header := HeaderFields(kind, connection);
    var front, back := Fields(header).value, Fields(body).value;
    h := |front|;
    FieldsAreRead([], header, back);
    FieldsAreRead(front, body, []);
    assert [] + front + back == front + back == front + back + [];
    assert Uleb(1) == [1];
  }
}
