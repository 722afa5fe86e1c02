/** The benchmark's comparison of result rows: a greedy search for a pairing, with a
    tolerance for floating-point cells. */
module RowMatching {

  /** A floating-point value. */
  datatype Number = Finite(x: real) | Infinite(negative: bool) | NaN

  datatype Cell = Float(f: Number) | Int(n: int) | Text(s: string) | Null

  type Row = seq<Cell>

  /** Which floats pass as close. The results below hold of every such relation, so they
      hold however the tolerance is computed and rounded; the counterexample uses `IsClose`. */
  type Closeness = (Number, Number) -> bool

  const RELATIVE: real := 0.0000000001
  const ABSOLUTE: real := 0.000000001

  function Abs(x: real): real { if x < 0.0 then -x else x }

  function Max(x: real, y: real): real { if x < y then y else x }

  /** The comparison's own closeness, without rounding. */
  predicate IsClose(a: Number, b: Number) {
    match (a, b)
    case (Finite(x), Finite(y)) => Abs(x - y) <= Max(RELATIVE * Max(Abs(x), Abs(y)), ABSOLUTE)
    case (Infinite(n), Infinite(m)) => n == m
    case _ => false
  }

  /** Two floats are compared with tolerance, anything else exactly. */
  predicate CellMatch(close: Closeness, left: Cell, right: Cell) {
    match (left, right)
    case (Float(x), Float(y)) => close(x, y)
    case (Float(x), Int(n)) => x == Finite(n as real)
    case (Int(n), Float(y)) => Finite(n as real) == y
    case _ => left == right
  }

  predicate Match(close: Closeness, row: Row, candidate: Row) {
    |row| == |candidate| && forall k | 0 <= k < |row| :: CellMatch(close, row[k], candidate[k])
  }

  function Without(rows: seq<Row>, k: nat): seq<Row>
    requires k < |rows|
  {
    rows[..k] + rows[k + 1..]
  }

  /** The first row from `k` on that matches, or the end. */
  function FirstMatch(close: Closeness, row: Row, rows: seq<Row>, k: nat): (i: nat)
    requires k <= |rows|
    ensures k <= i <= |rows| && (i < |rows| ==> Match(close, row, rows[i]))
    ensures forall j | k <= j < i :: !Match(close, row, rows[j])
    decreases |rows| - k
  {
    if k == |rows| || Match(close, row, rows[k]) then k else FirstMatch(close, row, rows, k + 1)
  }

  /** Every expected row in turn takes the first row left over that matches it. */
  predicate Greedy(close: Closeness, expected: seq<Row>, remaining: seq<Row>) {
    expected == [] ||
    (var i := FirstMatch(close, expected[0], remaining, 0);
     i < |remaining| && Greedy(close, expected[1..], Without(remaining, i)))
  }

  method RowsMatch(close: Closeness, row: Row, candidate: Row) returns (equal: bool)
    ensures equal == Match(close, row, candidate)
  {
    if |row| != |candidate| {
      return false;
    }
    equal := true;
    for k := 0 to |row|
      invariant equal && forall j | 0 <= j < k :: CellMatch(close, row[j], candidate[j])
    {
      equal := CellMatch(close, row[k], candidate[k]);
      if !equal {
        return;
      }
    }
  }

  method SameRows(close: Closeness, expected: seq<Row>, actual: seq<Row>) returns (same: bool)
    ensures same <==> |expected| == |actual| && Greedy(close, expected, actual)
  {
    if |expected| != |actual| {
      return false;
    }
    var remaining := actual;
    for n := 0 to |expected|
      invariant Greedy(close, expected[n..], remaining) == Greedy(close, expected, actual)
    {
      var index := 0;
      var found := false;
      while index < |remaining| && !found
        invariant index <= |remaining|
        invariant FirstMatch(close, expected[n], remaining, 0) == FirstMatch(close, expected[n], remaining, index)
        invariant found ==> index < |remaining| && Match(close, expected[n], remaining[index])
        decreases |remaining| - index, !found
      {
        found := RowsMatch(close, expected[n], remaining[index]);
        if !found {
          index := index + 1;
        }
      }
      assert expected[n..][1..] == expected[n + 1..];
      if !found {
        return false;
      }
      remaining := Without(remaining, index);
    }
    return true;
  }

  // ---------- what the search finds ----------

  /** The rows of `partners` match the expected rows, one to one. */
  ghost predicate PairedBy(close: Closeness, expected: seq<Row>, partners: seq<Row>) {
    |expected| == |partners| && forall i | 0 <= i < |expected| :: Match(close, expected[i], partners[i])
  }

  /** Some arrangement of the actual rows matches the expected rows. */
  ghost predicate Pairable(close: Closeness, expected: seq<Row>, actual: seq<Row>) {
    exists partners :: multiset(partners) == multiset(actual) && PairedBy(close, expected, partners)
  }

  /** Rows that share a match share all their matches. */
  ghost predicate Exchangeable(close: Closeness, expected: seq<Row>, actual: seq<Row>) {
    forall r, r', c, c' | r in expected && r' in expected && c in actual && c' in actual ::
      Match(close, r, c) && Match(close, r, c') && Match(close, r', c) ==> Match(close, r', c')
  }

  lemma TakenOut(rows: seq<Row>, k: nat)
    requires k < |rows|
    ensures multiset(Without(rows, k)) == multiset(rows) - multiset{rows[k]}
    ensures multiset(rows) == multiset{rows[k]} + multiset(Without(rows, k))
  {
    assert rows == rows[..k] + ([rows[k]] + rows[k + 1..]);
  }

  lemma {:induction false} GreedyPairs(close: Closeness, expected: seq<Row>, actual: seq<Row>) returns (partners: seq<Row>)
    requires |expected| == |actual| && Greedy(close, expected, actual)
    ensures multiset(partners) == multiset(actual) && PairedBy(close, expected, partners)
  {
    if expected == [] {
      partners := [];
    } else {
      var i := FirstMatch(close, expected[0], actual, 0);
      var rest := GreedyPairs(close, expected[1..], Without(actual, i));
      partners := [actual[i]] + rest;
      TakenOut(actual, i);
    }
  }

  lemma Moved(partners: seq<Row>, j: nat)
    requires 0 < j < |partners|
    ensures multiset(partners[1..][j - 1 := partners[0]]) == multiset(partners) - multiset{partners[j]}
  {
    var tail := partners[1..];
    assert partners == [partners[0]] + tail;
    assert multiset(partners) == multiset{partners[0]} + multiset(tail);
    assert multiset(tail[j - 1 := partners[0]]) == multiset(tail) - multiset{partners[j]} + multiset{partners[0]};
    assert partners[j] == tail[j - 1];
    assert partners[j] in multiset(tail);
  }

  lemma MovedPairs(close: Closeness, expected: seq<Row>, partners: seq<Row>, j: nat)
    requires PairedBy(close, expected, partners) && 0 < j < |partners| && Match(close, expected[j], partners[0])
    ensures PairedBy(close, expected[1..], partners[1..][j - 1 := partners[0]])
  {
    hide Match;
    forall i | 0 <= i < |expected| - 1 ensures Match(close, expected[1..][i], partners[1..][j - 1 := partners[0]][i]) {
      assert Match(close, expected[i + 1], partners[i + 1]);
    }
  }

  lemma TakesOver(close: Closeness, expected: seq<Row>, actual: seq<Row>, r: Row, r': Row, c: Row, c': Row)
    requires Exchangeable(close, expected, actual) && r in expected && r' in expected && c in actual && c' in actual
    requires Match(close, r, c) && Match(close, r, c') && Match(close, r', c)
    ensures Match(close, r', c')
  {
    hide Match;
  }

  /** What is left of a pairing once the first expected row has taken another row instead. */
  lemma Exchange(close: Closeness, expected: seq<Row>, actual: seq<Row>, partners: seq<Row>, k: nat) returns (rest: seq<Row>)
    requires expected != [] && Exchangeable(close, expected, actual) && PairedBy(close, expected, partners)
    requires multiset(partners) == multiset(actual) && k < |actual| && Match(close, expected[0], actual[k])
    ensures multiset(rest) == multiset(Without(actual, k)) && PairedBy(close, expected[1..], rest)
  {
    hide Match, Exchangeable;
    TakenOut(actual, k);
    assert actual[k] in multiset(partners);
    var j :| 0 <= j < |partners| && partners[j] == actual[k];
    if j == 0 {
      rest := partners[1..];
      TakenOut(partners, 0);
      assert Without(partners, 0) == rest;
      forall i | 0 <= i < |rest| ensures Match(close, expected[1..][i], rest[i]) {
        assert Match(close, expected[i + 1], partners[i + 1]);
      }
    } else {
      rest := partners[1..][j - 1 := partners[0]];
      Moved(partners, j);
      assert partners[0] in multiset(actual);
      assert Match(close, expected[0], partners[0]) && Match(close, expected[j], partners[j]);
      TakesOver(close, expected, actual, expected[0], expected[j], partners[j], partners[0]);
      MovedPairs(close, expected, partners, j);
    }
  }

  lemma ExchangeableWithout(close: Closeness, expected: seq<Row>, actual: seq<Row>, k: nat)
    requires expected != [] && Exchangeable(close, expected, actual) && k < |actual|
    ensures Exchangeable(close, expected[1..], Without(actual, k))
  {
    hide Match;
    assert forall r | r in expected[1..] :: r in expected;
    assert forall c | c in Without(actual, k) :: c in actual;
  }

  lemma {:induction false} PairsAreFound(close: Closeness, expected: seq<Row>, actual: seq<Row>, partners: seq<Row>)
    requires Exchangeable(close, expected, actual)
    requires multiset(partners) == multiset(actual) && PairedBy(close, expected, partners)
    ensures Greedy(close, expected, actual)
  {
    if expected != [] {
      hide Match, Exchangeable;
      assert partners[0] in multiset(actual);
      assert Match(close, expected[0], partners[0]);
      var k := FirstMatch(close, expected[0], actual, 0);
      assert k < |actual|;
      var rest := Exchange(close, expected, actual, partners, k);
      ExchangeableWithout(close, expected, actual, k);
      PairsAreFound(close, expected[1..], Without(actual, k), rest);
    }
  }

  lemma SameLength(expected: seq<Row>, partners: seq<Row>, actual: seq<Row>)
    requires multiset(partners) == multiset(actual) && |expected| == |partners|
    ensures |expected| == |actual|
  {
    assert |multiset(partners)| == |partners| && |multiset(actual)| == |actual|;
  }

  /** What the comparison accepts can always be paired one to one, and when rows that share
      a match share all of them it accepts everything that can be paired. */
  lemma AcceptedMeansPaired(close: Closeness, expected: seq<Row>, actual: seq<Row>)
    ensures |expected| == |actual| && Greedy(close, expected, actual) ==> Pairable(close, expected, actual)
    ensures Exchangeable(close, expected, actual) && Pairable(close, expected, actual) ==>
              |expected| == |actual| && Greedy(close, expected, actual)
  {
    if |expected| == |actual| && Greedy(close, expected, actual) {
      var partners := GreedyPairs(close, expected, actual);
    }
    if Exchangeable(close, expected, actual) && Pairable(close, expected, actual) {
      var partners :| multiset(partners) == multiset(actual) && PairedBy(close, expected, partners);
      SameLength(expected, partners, actual);
      PairsAreFound(close, expected, actual, partners);
    }
  }

  predicate Floatless(rows: seq<Row>) {
    forall r | r in rows :: forall c | c in r :: !c.Float?
  }

  lemma ExactMatch(close: Closeness, row: Row, candidate: Row)
    requires Floatless([row]) && Floatless([candidate])
    ensures Match(close, row, candidate) <==> row == candidate
  {
    assert row in [row] && candidate in [candidate];
    assert forall k | 0 <= k < |row| :: row[k] in row;
    assert forall k | 0 <= k < |candidate| :: candidate[k] in candidate;
  }

  /** Without float columns the comparison is exactly equality of row multisets. */
  lemma FloatlessIsMultisetEquality(close: Closeness, expected: seq<Row>, actual: seq<Row>)
    requires Floatless(expected) && Floatless(actual)
    ensures |expected| == |actual| && Greedy(close, expected, actual) <==> multiset(expected) == multiset(actual)
  {
    forall r, c | r in expected && c in actual ensures Match(close, r, c) <==> r == c {
      ExactMatch(close, r, c);
    }
    if |expected| == |actual| && Greedy(close, expected, actual) {
      var partners := GreedyPairs(close, expected, actual);
      forall i | 0 <= i < |expected| ensures expected[i] == partners[i] {
        assert partners[i] in multiset(actual);
      }
      assert expected == partners;
    }
    if multiset(expected) == multiset(actual) {
      forall i | 0 <= i < |expected| ensures Match(close, expected[i], expected[i]) {
        assert expected[i] in multiset(actual);
      }
      SameLength(expected, expected, actual);
      PairsAreFound(close, expected, actual, expected);
    }
  }

  // ---------- single columns ----------

  /** The tolerance in numbers: one in a thousand million, or one in ten thousand million of
      either value. Nothing is close to NaN, and an infinity only to itself. */
  lemma ToleranceOf(a: Number, b: Number)
    ensures IsClose(a, b) <==> IsClose(b, a)
    ensures a.Finite? && b.Finite? ==>
              var gap := Abs(a.x - b.x);
              (IsClose(a, b) <==> 1000000000.0 * gap <= 1.0 || 10000000000.0 * gap <= Abs(a.x)
                                  || 10000000000.0 * gap <= Abs(b.x))
    ensures !a.Finite? ==> (IsClose(a, b) <==> a == b && a != NaN)
  {
  }

  /** A float and an integer match when they are the same number; no text matches a number. */
  lemma MixedColumns(close: Closeness, f: Number, n: int, s: string)
    ensures Match(close, [Float(f)], [Int(n)]) <==> f == Finite(n as real)
    ensures Match(close, [Int(n)], [Float(f)]) <==> f == Finite(n as real)
    ensures !Match(close, [Text(s)], [Int(n)]) && !Match(close, [Text(s)], [Float(f)])
  {
    OneColumn(close, Float(f), Int(n));
    OneColumn(close, Int(n), Float(f));
    OneColumn(close, Text(s), Int(n));
    OneColumn(close, Text(s), Float(f));
  }

  lemma OneColumn(close: Closeness, left: Cell, right: Cell)
    ensures Match(close, [left], [right]) <==> CellMatch(close, left, right)
  {
    assert [left][0] == left && [right][0] == right;
  }

  // ---------- the order of the rows ----------

  /** Accepted however both lists are arranged. */
  ghost predicate AcceptedInAnyOrder(close: Closeness, expected: seq<Row>, actual: seq<Row>) {
    forall e, a | multiset(e) == multiset(expected) && multiset(a) == multiset(actual) :: Greedy(close, e, a)
  }

  /** One pair is taken out of a pairing. */
  lemma PairTaken(close: Closeness, expected: seq<Row>, partners: seq<Row>, k: nat)
    requires PairedBy(close, expected, partners) && k < |expected|
    ensures PairedBy(close, Without(expected, k), Without(partners, k)) && Match(close, expected[k], partners[k])
    ensures multiset(expected) == multiset{expected[k]} + multiset(Without(expected, k))
    ensures multiset(partners) == multiset{partners[k]} + multiset(Without(partners, k))
  {
    hide Match;
    forall i | 0 <= i < |expected| - 1 ensures Match(close, Without(expected, k)[i], Without(partners, k)[i]) {
      var from := if i < k then i else i + 1;
      assert Match(close, expected[from], partners[from]);
    }
    TakenOut(expected, k);
    TakenOut(partners, k);
  }

  lemma PutInFront(close: Closeness, row: Row, partner: Row, rows: seq<Row>, partners: seq<Row>)
    requires Match(close, row, partner) && PairedBy(close, rows, partners)
    ensures PairedBy(close, [row] + rows, [partner] + partners)
    ensures multiset([row] + rows) == multiset{row} + multiset(rows)
    ensures multiset([partner] + partners) == multiset{partner} + multiset(partners)
  {
  }

  lemma Cancelled(row: Row, a: seq<Row>, b: seq<Row>)
    requires multiset{row} + multiset(a) == multiset{row} + multiset(b)
    ensures multiset(a) == multiset(b)
  {
    assert multiset(a) == (multiset{row} + multiset(a)) - multiset{row};
    assert multiset(b) == (multiset{row} + multiset(b)) - multiset{row};
  }

  /** A pairing carries over to the expected rows in another order. */
  lemma {:induction false} Rearranged(close: Closeness, expected: seq<Row>, partners: seq<Row>, other: seq<Row>)
    returns (others: seq<Row>)
    requires PairedBy(close, expected, partners) && multiset(other) == multiset(expected)
    ensures multiset(others) == multiset(partners) && PairedBy(close, other, others)
    decreases |other|
  {
    SameLength(expected, expected, other);
    if other == [] {
      others := partners;
    } else {
      var i := Place(expected, other, other[0]);
      PairTaken(close, expected, partners, i);
      assert other == [other[0]] + other[1..];
      hide Match, Without, PairedBy;
      assert multiset(other) == multiset{other[0]} + multiset(other[1..]);
      Cancelled(other[0], other[1..], Without(expected, i));
      var rest := Rearranged(close, Without(expected, i), Without(partners, i), other[1..]);
      PutInFront(close, other[0], partners[i], other[1..], rest);
      others := [partners[i]] + rest;
    }
  }

  /** A row of a list stands somewhere in every rearrangement of it. */
  lemma Place(rows: seq<Row>, other: seq<Row>, row: Row) returns (k: nat)
    requires multiset(rows) == multiset(other) && row in other
    ensures k < |rows| && rows[k] == row
  {
    assert row in multiset(rows);
    k :| 0 <= k < |rows| && rows[k] == row;
  }

  /** Rows whose partner stands in front take it, one after the other. */
  lemma {:induction false} FrontPairsMatch(close: Closeness, x: seq<Row>, y: seq<Row>, e: seq<Row>, a: seq<Row>)
    requires PairedBy(close, x, y)
    ensures Greedy(close, x + e, y + a) == Greedy(close, e, a)
  {
    if x == [] {
      assert x + e == e && y + a == a;
    } else {
      hide Match;
      assert Match(close, x[0], y[0]);
      assert FirstMatch(close, (x + e)[0], y + a, 0) == 0;
      assert Without(y + a, 0) == y[1..] + a && (x + e)[1..] == x[1..] + e;
      PairTaken(close, x, y, 0);
      assert Without(x, 0) == x[1..] && Without(y, 0) == y[1..];
      FrontPairsMatch(close, x[1..], y[1..], e, a);
    }
  }

  /** Three rows in a row: what the search does with the first two decides about the third. */
  lemma LastOfThree(close: Closeness, e: seq<Row>, a: seq<Row>)
    requires |e| == |a| == 3 && Match(close, e[0], a[0]) && Match(close, e[1], a[1])
    ensures Greedy(close, e, a) <==> Match(close, e[2], a[2])
  {
    assert e == e[..2] + [e[2]] && a == a[..2] + [a[2]];
    FrontPairsMatch(close, e[..2], a[..2], [e[2]], [a[2]]);
    assert FirstMatch(close, e[2], [a[2]], 0) == if Match(close, e[2], a[2]) then 0 else 1;
    assert [e[2]][1..] == [];
  }

  lemma PickOut(rows: seq<Row>, row: Row) returns (rest: seq<Row>)
    requires row in rows
    ensures multiset(rows) == multiset{row} + multiset(rest) && multiset([row] + rest) == multiset(rows)
    ensures |rest| == |rows| - 1
  {
    var k :| 0 <= k < |rows| && rows[k] == row;
    TakenOut(rows, k);
    rest := Without(rows, k);
  }

  /** With this pair taken first, acceptance pairs all the other rows. */
  lemma RestOfPair(close: Closeness, expected: seq<Row>, actual: seq<Row>, r: Row, c: Row)
    returns (rest: seq<Row>, partners: seq<Row>)
    requires |expected| == |actual| && AcceptedInAnyOrder(close, expected, actual)
    requires r in expected && c in actual && Match(close, r, c)
    ensures multiset(expected) == multiset{r} + multiset(rest) && multiset(actual) == multiset{c} + multiset(partners)
    ensures PairedBy(close, rest, partners)
  {
    rest := PickOut(expected, r);
    var left := PickOut(actual, c);
    assert PairedBy(close, [r], [c]);
    hide Match, Greedy, PairedBy;
    assert Greedy(close, [r] + rest, [c] + left);
    FrontPairsMatch(close, [r], [c], rest, left);
    partners := GreedyPairs(close, rest, left);
  }

  /** The row paired with this one, and the pairing without the two. */
  lemma PickPair(close: Closeness, expected: seq<Row>, partners: seq<Row>, row: Row)
    returns (rest: seq<Row>, left: seq<Row>, partner: Row)
    requires PairedBy(close, expected, partners) && row in expected
    ensures PairedBy(close, rest, left) && Match(close, row, partner)
    ensures multiset(expected) == multiset{row} + multiset(rest)
    ensures multiset(partners) == multiset{partner} + multiset(left)
  {
    var k :| 0 <= k < |expected| && expected[k] == row;
    PairTaken(close, expected, partners, k);
    rest, left, partner := Without(expected, k), Without(partners, k), partners[k];
  }

  /** The expected row paired with this actual one, and the pairing without the two. */
  lemma PickPartner(close: Closeness, expected: seq<Row>, partners: seq<Row>, partner: Row)
    returns (rest: seq<Row>, left: seq<Row>, row: Row)
    requires PairedBy(close, expected, partners) && partner in multiset(partners)
    ensures PairedBy(close, rest, left) && Match(close, row, partner)
    ensures multiset(expected) == multiset{row} + multiset(rest)
    ensures multiset(partners) == multiset{partner} + multiset(left)
  {
    assert partner in partners;
    var k :| 0 <= k < |partners| && partners[k] == partner;
    PairTaken(close, expected, partners, k);
    rest, left, row := Without(expected, k), Without(partners, k), expected[k];
  }

  /** Acceptance in every order lets rows that share a match share any other. */
  lemma AnyOrderExchanges(close: Closeness, expected: seq<Row>, actual: seq<Row>, r: Row, r': Row, c: Row, c': Row)
    requires |expected| == |actual| && AcceptedInAnyOrder(close, expected, actual)
    requires r in expected && r' in expected && c in actual && c' in actual
    requires Match(close, r, c) && Match(close, r, c') && Match(close, r', c)
    ensures Match(close, r', c')
  {
    if !Match(close, r', c') {
      hide Match, Greedy, PairedBy, AcceptedInAnyOrder;
      var rs, ps := RestOfPair(close, expected, actual, r, c);
      Remains(expected, rs, r, r');
      Remains(actual, ps, c, c');
      var rs', ps', c'' := PickPair(close, rs, ps, r');
      Remains(ps, ps', c'', c');
      var xs, ys, r'' := PickPartner(close, rs', ps', c');
      Gathered(expected, r, r', r'', rs, rs', xs);
      Gathered(actual, c, c'', c', ps, ps', ys);
      OneOrderIsRefused(close, expected, actual, xs, ys, r, r', r'', c, c', c'');
    }
  }

  /** The rows of a failed exchange, behind all others: with r, r' and r'' to be matched by c,
      c' and c'', one of two orders leaves the last row without a match. */
  lemma OneOrderIsRefused(close: Closeness, expected: seq<Row>, actual: seq<Row>, xs: seq<Row>, ys: seq<Row>,
                          r: Row, r': Row, r'': Row, c: Row, c': Row, c'': Row)
    requires PairedBy(close, xs, ys)
    requires multiset(xs + [r, r', r'']) == multiset(expected) && multiset(ys + [c, c'', c']) == multiset(actual)
    requires Match(close, r, c) && Match(close, r, c') && Match(close, r', c) && !Match(close, r', c')
    requires Match(close, r', c'') && Match(close, r'', c')
    ensures !AcceptedInAnyOrder(close, expected, actual)
  {
    hide Match, PairedBy, AcceptedInAnyOrder;
    Reordered(xs, r, r', r'');
    Reordered(ys, c, c'', c');
    if Match(close, r'', c'') {
      RefusedOrder(close, expected, actual, xs, ys, r'', r, r', c'', c, c');
    } else {
      RefusedOrder(close, expected, actual, xs, ys, r', r, r'', c, c', c'');
    }
  }

  lemma Remains(rows: seq<Row>, rest: seq<Row>, taken: Row, row: Row)
    requires multiset(rows) == multiset{taken} + multiset(rest) && row in multiset(rows) && row != taken
    ensures row in rest && row in multiset(rest)
  {
    assert row in multiset(rest);
  }

  lemma Gathered(rows: seq<Row>, a: Row, b: Row, c: Row, behindA: seq<Row>, behindB: seq<Row>, behindC: seq<Row>)
    requires multiset(rows) == multiset{a} + multiset(behindA)
    requires multiset(behindA) == multiset{b} + multiset(behindB)
    requires multiset(behindB) == multiset{c} + multiset(behindC)
    ensures multiset(behindC + [a, b, c]) == multiset(rows)
  {
    assert multiset([a, b, c]) == multiset{a, b, c};
    assert multiset{a, b, c} == multiset{a} + (multiset{b} + multiset{c});
  }

  lemma Appended(front: seq<Row>, a: Row, b: Row, c: Row)
    ensures multiset(front + [a, b, c]) == multiset(front) + multiset{a, b, c}
  {
    assert multiset([a, b, c]) == multiset{a, b, c};
  }

  lemma Turned(a: Row, b: Row, c: Row)
    ensures multiset{b, a, c} == multiset{a, b, c} == multiset{a, c, b}
  {
  }

  lemma Reordered(front: seq<Row>, a: Row, b: Row, c: Row)
    ensures multiset(front + [b, a, c]) == multiset(front + [a, b, c])
    ensures multiset(front + [a, c, b]) == multiset(front + [a, b, c])
    ensures multiset(front + [c, a, b]) == multiset(front + [a, b, c])
  {
    Appended(front, a, b, c);
    Appended(front, b, a, c);
    Appended(front, a, c, b);
    Appended(front, c, a, b);
    Turned(a, b, c);
    Turned(a, c, b);
  }

  /** An order in which the first two of three rows leave the third a row it does not match. */
  lemma RefusedOrder(close: Closeness, expected: seq<Row>, actual: seq<Row>, xs: seq<Row>, ys: seq<Row>,
                     e0: Row, e1: Row, e2: Row, a0: Row, a1: Row, a2: Row)
    requires PairedBy(close, xs, ys)
    requires multiset(xs + [e0, e1, e2]) == multiset(expected) && multiset(ys + [a0, a1, a2]) == multiset(actual)
    requires Match(close, e0, a0) && Match(close, e1, a1) && !Match(close, e2, a2)
    ensures !AcceptedInAnyOrder(close, expected, actual)
  {
    hide Match, Greedy, PairedBy, AcceptedInAnyOrder;
    LastOfThree(close, [e0, e1, e2], [a0, a1, a2]);
    FrontPairsMatch(close, xs, ys, [e0, e1, e2], [a0, a1, a2]);
    Refused(close, expected, actual, xs + [e0, e1, e2], ys + [a0, a1, a2]);
  }

  lemma Refused(close: Closeness, expected: seq<Row>, actual: seq<Row>, e: seq<Row>, a: seq<Row>)
    requires multiset(e) == multiset(expected) && multiset(a) == multiset(actual) && !Greedy(close, e, a)
    ensures !AcceptedInAnyOrder(close, expected, actual)
  {
  }

  /** Rows that can be paired are accepted in whatever order they come exactly when rows that
      share a match share all of them. */
  lemma OrderNeverMatters(close: Closeness, expected: seq<Row>, actual: seq<Row>)
    requires Pairable(close, expected, actual)
    ensures AcceptedInAnyOrder(close, expected, actual) <==> Exchangeable(close, expected, actual)
  {
    hide Match;
    var partners :| multiset(partners) == multiset(actual) && PairedBy(close, expected, partners);
    SameLength(expected, partners, actual);
    if AcceptedInAnyOrder(close, expected, actual) {
      forall r, r', c, c' | r in expected && r' in expected && c in actual && c' in actual
                            && Match(close, r, c) && Match(close, r, c') && Match(close, r', c)
        ensures Match(close, r', c')
      {
        AnyOrderExchanges(close, expected, actual, r, r', c, c');
      }
    }
    if Exchangeable(close, expected, actual) {
      forall e, a | multiset(e) == multiset(expected) && multiset(a) == multiset(actual) ensures Greedy(close, e, a) {
        var others := Rearranged(close, expected, partners, e);
        ExchangeableInAnyOrder(close, expected, actual, e, a);
        PairsAreFound(close, e, a, others);
      }
    }
  }

  lemma ExchangeableInAnyOrder(close: Closeness, expected: seq<Row>, actual: seq<Row>, e: seq<Row>, a: seq<Row>)
    requires Exchangeable(close, expected, actual)
    requires multiset(e) == multiset(expected) && multiset(a) == multiset(actual)
    ensures Exchangeable(close, e, a)
  {
    hide Match;
    assert forall r | r in e :: r in multiset(expected);
    assert forall c | c in a :: c in multiset(actual);
  }

  /** With floats closeness is not transitive, and the greedy search can miss a pairing. */
  lemma GreedyCanMissAPairing()
    ensures var expected := [[Float(Finite(0.0))], [Float(Finite(0.0000000009))]];
            var actual := [[Float(Finite(0.0000000005))], [Float(Finite(-0.0000000009))]];
            Pairable(IsClose, expected, actual) && !Greedy(IsClose, expected, actual)
  {
    var expected := [[Float(Finite(0.0))], [Float(Finite(0.0000000009))]];
    var u, v := [Float(Finite(0.0000000005))], [Float(Finite(-0.0000000009))];
    var actual := [u, v];
    assert Match(IsClose, expected[0], u) && Match(IsClose, expected[0], v) && Match(IsClose, expected[1], u);
    assert !CellMatch(IsClose, expected[1][0], v[0]);
    assert PairedBy(IsClose, expected, [v, u]) && multiset([v, u]) == multiset(actual);
    assert FirstMatch(IsClose, expected[0], actual, 0) == 0;
    assert Without(actual, 0) == [v];
    assert expected[1..] == [expected[1]];
    assert FirstMatch(IsClose, expected[1], [v], 0) == 1;
  }
}
