/** The table function that lists the servers: concurrent calls share one atomic offset,
    and each copies its part of a snapshot into an output chunk. */
module ServerList {
  import opened Wrappers

  /** The machine's word: the atomic addition wraps around here. */
  const WORD: nat := 0x1_0000_0000_0000_0000

  function Min(a: nat, b: nat): nat { if a < b then a else b }

  /** The rows a call may copy, with the addition saturating at the largest word. */
  function ChunkBounds(total: nat, start: nat, capacity: nat): Option<(nat, nat)> {
    if start >= total || capacity == 0 then None else Some((start, Min(Min(start + capacity, WORD - 1), total)))
  }

  function RowsAt<Row>(snapshots: seq<Row>, start: nat, capacity: nat): (rows: seq<Row>)
    requires |snapshots| < WORD
    ensures |rows| <= capacity
  {
    var bounds := ChunkBounds(|snapshots|, start, capacity);
    if bounds.None? then [] else snapshots[bounds.value.0..bounds.value.1]
  }

  class Listing<Row> {
    const snapshots: seq<Row>
    var offset: nat

    constructor (snapshots: seq<Row>)
      ensures this.snapshots == snapshots && offset == 0
    {
      this.snapshots := snapshots;
      offset := 0;
    }

    /** The atomic step of a call: the offset moves on, and its old value is the claim. */
    method FetchAdd(capacity: nat) returns (start: nat)
      modifies this
      ensures start == old(offset) && offset == (old(offset) + capacity) % 0x1_0000_0000_0000_0000
    {
      start := offset;
      offset := (offset + capacity) % WORD;
    }

    /** The rest of the call touches nothing that is shared. */
    method Emit(start: nat, output: array<Row>) returns (n: nat)
      requires |snapshots| < WORD
      modifies output
      ensures n <= output.Length && output[..n] == RowsAt(snapshots, start, output.Length)
      ensures output[n..] == old(output[..])[n..]
    {
      var bounds := ChunkBounds(|snapshots|, start, output.Length);
      if bounds.None? {
        return 0;
      }
      var (low, high) := bounds.value;
      for row := 0 to high - low
        invariant output[..row] == snapshots[low..low + row]
        invariant output[row..] == old(output[..])[row..]
      {
        output[row] := snapshots[low + row];
        assert snapshots[low..low + row + 1] == snapshots[low..low + row] + [snapshots[low + row]];
      }
      n := high - low;
    }

    method Func(output: array<Row>) returns (n: nat)
      requires |snapshots| < WORD
      modifies this, output
      ensures offset == (old(offset) + output.Length) % WORD
      ensures n <= output.Length && output[..n] == RowsAt(snapshots, old(offset), output.Length)
      ensures output[n..] == old(output[..])[n..]
    {
      var start := FetchAdd(output.Length);
      n := Emit(start, output);
    }
  }

  // ---------- any number of calls ----------

  function Sum(capacities: seq<nat>): nat {
    if capacities == [] then 0 else Sum(capacities[..|capacities| - 1]) + capacities[|capacities| - 1]
  }

  /** What the k-th atomic addition claims, whichever calls make the additions. */
  function Claim(capacities: seq<nat>, k: nat): nat
    requires k <= |capacities|
  {
    if k == 0 then 0 else (Claim(capacities, k - 1) + capacities[k - 1]) % WORD
  }

  /** The rows of the calls, in the order of their atomic additions. */
  function Listed<Row>(snapshots: seq<Row>, capacities: seq<nat>, k: nat): seq<Row>
    requires k <= |capacities| && |snapshots| < WORD
  {
    if k == 0 then []
    else Listed(snapshots, capacities, k - 1) + RowsAt(snapshots, Claim(capacities, k - 1), capacities[k - 1])
  }

  lemma {:induction false} SumGrows(capacities: seq<nat>, k: nat)
    requires k <= |capacities|
    ensures Sum(capacities[..k]) <= Sum(capacities)
    decreases |capacities|
  {
    if k == |capacities| {
      assert capacities[..k] == capacities;
    } else {
      var shorter := capacities[..|capacities| - 1];
      SumGrows(shorter, k);
      assert shorter[..k] == capacities[..k];
    }
  }

  /** A claim is the sum of the capacities before it, modulo the word. */
  lemma {:induction false} ClaimIsSum(capacities: seq<nat>, k: nat)
    requires k <= |capacities|
    ensures Claim(capacities, k) == Sum(capacities[..k]) % WORD
    ensures Sum(capacities[..k]) <= Sum(capacities)
  {
    SumGrows(capacities, k);
    if k > 0 {
      ClaimIsSum(capacities, k - 1);
      assert capacities[..k][..k - 1] == capacities[..k - 1];
      AddedModulo(Sum(capacities[..k - 1]), capacities[k - 1]);
    }
  }

  lemma AddedModulo(a: nat, b: nat)
    ensures (a % WORD + b) % WORD == (a + b) % WORD
  {
  }

  /** Until the capacities overflow a word, claims made one after the other never overlap. */
  lemma {:induction false} ClaimsAreDisjoint(capacities: seq<nat>, i: nat, j: nat)
    requires i < j < |capacities| && Sum(capacities) < WORD
    ensures Claim(capacities, i) + capacities[i] <= Claim(capacities, j)
  {
    ClaimIsSum(capacities, i);
    ClaimIsSum(capacities, j);
    SumGrows(capacities[..j], i + 1);
    assert capacities[..j][..i + 1] == capacities[..i + 1];
    assert capacities[..i + 1][..i] == capacities[..i];
  }

  /** A call whose claim carries on from a prefix extends it, and finds nothing only at the end. */
  lemma RowsExtendPrefix<Row>(snapshots: seq<Row>, start: nat, capacity: nat)
    requires |snapshots| < WORD
    ensures snapshots[..Min(|snapshots|, start)] + RowsAt(snapshots, start, capacity)
         == snapshots[..Min(|snapshots|, start + capacity)]
    ensures RowsAt(snapshots, start, capacity) == [] <==> start >= |snapshots| || capacity == 0
  {
    if start < |snapshots| {
      var upTo := Min(|snapshots|, start + capacity);
      assert snapshots[..start] + snapshots[start..upTo] == snapshots[..upTo];
    }
  }

  lemma SumUpTo(capacities: seq<nat>, k: nat)
    requires k < |capacities|
    ensures Sum(capacities[..k + 1]) == Sum(capacities[..k]) + capacities[k] <= Sum(capacities)
  {
    SumGrows(capacities, k + 1);
    assert capacities[..k + 1][..k] == capacities[..k];
  }

  // ---------- when every row is listed exactly once ----------

  /** Of the first `n` calls, none with room that comes behind the last row is brought back to
      a row by the wrapping of the offset. */
  ghost predicate NoneWrapsBack(total: nat, capacities: seq<nat>, n: nat)
    requires n <= |capacities|
  {
    forall k | 0 <= k < n && capacities[k] > 0 && Sum(capacities[..k]) >= total :: Sum(capacities[..k]) % WORD >= total
  }

  lemma NoneWrapsBackStep(total: nat, capacities: seq<nat>, n: nat)
    requires n < |capacities|
    ensures NoneWrapsBack(total, capacities, n + 1)
            <==> NoneWrapsBack(total, capacities, n)
                 && (capacities[n] > 0 && Sum(capacities[..n]) >= total ==> Sum(capacities[..n]) % WORD >= total)
  {
  }

  lemma {:induction false} ListedOrRepeated<Row>(snapshots: seq<Row>, capacities: seq<nat>, n: nat)
    requires n <= |capacities| && |snapshots| < WORD
    ensures if NoneWrapsBack(|snapshots|, capacities, n)
            then Listed(snapshots, capacities, n) == snapshots[..Min(|snapshots|, Sum(capacities[..n]))]
            else |Listed(snapshots, capacities, n)| > |snapshots|
  {
    hide Claim, RowsAt, NoneWrapsBack;
    if n == 0 {
      NothingListed(snapshots, capacities);
    } else {
      hide Sum;
      var k := n - 1;
      ListedOrRepeated(snapshots, capacities, k);
      NoneWrapsBackStep(|snapshots|, capacities, k);
      ClaimIsSum(capacities, k);
      SumUpTo(capacities, k);
      var sum := Sum(capacities[..k]);
      RowsExtendPrefix(snapshots, sum % WORD, capacities[k]);
      if sum < |snapshots| {
        assert sum % WORD == sum;
      }
    }
  }

  lemma NothingListed<Row>(snapshots: seq<Row>, capacities: seq<nat>)
    requires |snapshots| < WORD
    ensures Listed(snapshots, capacities, 0) == [] && Sum(capacities[..0]) == 0
    ensures NoneWrapsBack(|snapshots|, capacities, 0)
  {
  }

  /** The calls list a prefix of the snapshot, every row of it exactly once, if and only if
      none of them is brought back to a row by the wrapping of the offset. */
  lemma {:induction false} CallsListPrefix<Row>(snapshots: seq<Row>, capacities: seq<nat>, n: nat)
    requires n <= |capacities| && |snapshots| < WORD
    ensures Listed(snapshots, capacities, n) == snapshots[..Min(|snapshots|, Sum(capacities[..n]))]
            <==> NoneWrapsBack(|snapshots|, capacities, n)
  {
    ListedOrRepeated(snapshots, capacities, n);
  }

  lemma NoOverflowNoWrap(total: nat, capacities: seq<nat>, n: nat)
    requires n <= |capacities| && Sum(capacities) < WORD
    ensures NoneWrapsBack(total, capacities, n)
  {
    forall k | 0 <= k < n ensures Sum(capacities[..k]) < WORD {
      SumGrows(capacities, k);
    }
  }

  /** Once a call with room finds nothing, the calls before it have listed everything, each
      row exactly once, and all later ones find nothing either: both exactly as far as none
      of them is brought back. */
  lemma {:induction false} EmptyMeansComplete<Row>(snapshots: seq<Row>, capacities: seq<nat>, k: nat, n: nat)
    requires k < n <= |capacities| && |snapshots| < WORD
    requires capacities[k] > 0 && RowsAt(snapshots, Claim(capacities, k), capacities[k]) == []
    ensures Listed(snapshots, capacities, n) == snapshots <==> NoneWrapsBack(|snapshots|, capacities, n)
    ensures NoneWrapsBack(|snapshots|, capacities, n) ==>
              forall later | k <= later < n :: RowsAt(snapshots, Claim(capacities, later), capacities[later]) == []
  {
    hide Sum, Claim, RowsAt, Listed, NoneWrapsBack;
    CallsListPrefix(snapshots, capacities, n);
    forall later | k <= later <= n ensures Sum(capacities[..later]) >= |snapshots| {
      BehindTheLastRow(snapshots, capacities, k, later);
    }
    if NoneWrapsBack(|snapshots|, capacities, n) {
      forall later | k <= later < n ensures RowsAt(snapshots, Claim(capacities, later), capacities[later]) == [] {
        FindsNothing(snapshots, capacities, n, later);
      }
    }
  }

  lemma BehindTheLastRow<Row>(snapshots: seq<Row>, capacities: seq<nat>, k: nat, later: nat)
    requires k <= later <= |capacities| && k < |capacities| && |snapshots| < WORD
    requires capacities[k] > 0 && RowsAt(snapshots, Claim(capacities, k), capacities[k]) == []
    ensures Sum(capacities[..later]) >= |snapshots|
  {
    hide Sum, Claim, RowsAt;
    ClaimIsSum(capacities, k);
    ModuloBelow(Sum(capacities[..k]));
    RowsExtendPrefix(snapshots, Claim(capacities, k), capacities[k]);
    SumGrows(capacities[..later], k);
    assert capacities[..later][..k] == capacities[..k];
  }

  lemma ModuloBelow(a: nat)
    ensures a % WORD <= a && (a < WORD ==> a % WORD == a)
  {
  }

  lemma FindsNothing<Row>(snapshots: seq<Row>, capacities: seq<nat>, n: nat, later: nat)
    requires later < n <= |capacities| && |snapshots| < WORD
    requires Sum(capacities[..later]) >= |snapshots| && NoneWrapsBack(|snapshots|, capacities, n)
    ensures RowsAt(snapshots, Claim(capacities, later), capacities[later]) == []
  {
    hide Sum, Claim;
    ClaimIsSum(capacities, later);
    RowsExtendPrefix(snapshots, Claim(capacities, later), capacities[later]);
  }

  // ---------- callers that stop at an empty chunk ----------

  /** How many of the first `n` calls find nothing. */
  function Empties<Row>(snapshots: seq<Row>, capacities: seq<nat>, n: nat): nat
    requires n <= |capacities| && |snapshots| < WORD
  {
    if n == 0 then 0
    else Empties(snapshots, capacities, n - 1)
         + if RowsAt(snapshots, Claim(capacities, n - 1), capacities[n - 1]) == [] then 1 else 0
  }

  lemma {:induction false} EmptiesBound<Row>(snapshots: seq<Row>, capacities: seq<nat>, size: nat, callers: nat, n: nat)
    requires n <= |capacities| && |snapshots| + size * (callers + 1) < WORD
    requires (forall k | 0 <= k < n :: capacities[k] <= size) && Empties(snapshots, capacities, n) <= callers
    ensures Sum(capacities[..n]) <= |snapshots| + size * (Empties(snapshots, capacities, n) + 1)
  {
    hide Claim, RowsAt, Sum;
    if n == 0 {
      NothingListed(snapshots, capacities);
    } else {
      var k := n - 1;
      EmptiesBound(snapshots, capacities, size, callers, k);
      SumUpTo(capacities, k);
      ClaimIsSum(capacities, k);
      var before := Empties(snapshots, capacities, k);
      Scaled(size, before, callers);
      ModuloBelow(Sum(capacities[..k]));
      RowsExtendPrefix(snapshots, Claim(capacities, k), capacities[k]);
    }
  }

  lemma Scaled(size: nat, a: nat, b: nat)
    requires a <= b
    ensures size <= size * (a + 1) <= size * (b + 1) && size * (a + 2) == size * (a + 1) + size
  {
  }

  /** No wrapping is reached by callers that each stop at their first empty chunk: with chunks
      of at most `size` rows, they would have to be about 2^64 / `size` many. */
  lemma {:induction false} StoppingCallersNeverWrap<Row>(snapshots: seq<Row>, capacities: seq<nat>, size: nat, callers: nat)
    requires |snapshots| + size * (callers + 1) < WORD
    requires forall k | 0 <= k < |capacities| :: capacities[k] <= size
    requires Empties(snapshots, capacities, |capacities|) <= callers
    ensures Sum(capacities) < WORD && NoneWrapsBack(|snapshots|, capacities, |capacities|)
  {
    hide Sum, Empties, NoneWrapsBack;
    EmptiesBound(snapshots, capacities, size, callers, |capacities|);
    assert capacities[..|capacities|] == capacities;
    Scaled(size, Empties(snapshots, capacities, |capacities|), callers);
    NoOverflowNoWrap(|snapshots|, capacities, |capacities|);
  }

  // ---------- every interleaving of the calls ----------

  /** A call that has made its atomic addition and not yet filled its chunk, or has returned. */
  datatype Call<Row> = Claimed(start: nat, capacity: nat) | Returned(rows: seq<Row>)

  /** The shared offset and the calls, in the order of their additions. */
  datatype Progress<Row> = Progress(offset: nat, calls: seq<Call<Row>>)

  datatype Event = Add(capacity: nat) | Return(call: nat)

  function Next<Row>(snapshots: seq<Row>, p: Progress<Row>, e: Event): Option<Progress<Row>>
    requires |snapshots| < WORD
  {
    match e
    case Add(capacity) =>
      Some(Progress((p.offset + capacity) % WORD, p.calls + [Claimed(p.offset, capacity)]))
    case Return(call) =>
      if call < |p.calls| && p.calls[call].Claimed? then
        var c := p.calls[call];
        Some(p.(calls := p.calls[call := Returned(RowsAt(snapshots, c.start, c.capacity))]))
      else None
  }

  function After<Row>(snapshots: seq<Row>, events: seq<Event>): Option<Progress<Row>>
    requires |snapshots| < WORD
  {
    if events == [] then Some(Progress(0, []))
    else
      var before := After(snapshots, events[..|events| - 1]);
      if before.None? then None else Next(snapshots, before.value, events[|events| - 1])
  }

  /** The capacities of the calls, in the order of their additions. */
  function Capacities(events: seq<Event>): seq<nat> {
    if events == [] then []
    else
      var e := events[|events| - 1];
      Capacities(events[..|events| - 1]) + if e.Add? then [e.capacity] else []
  }

  ghost predicate Explained<Row>(snapshots: seq<Row>, p: Progress<Row>, capacities: seq<nat>)
    requires |snapshots| < WORD
  {
    && |p.calls| == |capacities| && p.offset == Claim(capacities, |capacities|)
    && forall k | 0 <= k < |p.calls| ::
         p.calls[k] == Claimed(Claim(capacities, k), capacities[k])
         || p.calls[k] == Returned(RowsAt(snapshots, Claim(capacities, k), capacities[k]))
  }

  lemma {:induction false} ClaimPrefix(capacities: seq<nat>, more: seq<nat>, k: nat)
    requires k <= |capacities|
    ensures Claim(capacities + more, k) == Claim(capacities, k)
  {
    if k > 0 {
      ClaimPrefix(capacities, more, k - 1);
    }
  }

  lemma AddIsExplained<Row>(snapshots: seq<Row>, p: Progress<Row>, capacities: seq<nat>, capacity: nat)
    requires |snapshots| < WORD && Explained(snapshots, p, capacities)
    ensures Explained(snapshots, Next(snapshots, p, Add(capacity)).value, capacities + [capacity])
  {
    hide RowsAt, Claim;
    var grown := capacities + [capacity];
    ClaimNext(grown, |capacities|);
    forall k: nat | k <= |capacities| ensures Claim(grown, k) == Claim(capacities, k) {
      ClaimPrefix(capacities, [capacity], k);
    }
  }

  lemma ClaimNext(capacities: seq<nat>, k: nat)
    requires k < |capacities|
    ensures Claim(capacities, k + 1) == (Claim(capacities, k) + capacities[k]) % WORD
  {
  }

  lemma ReturnIsExplained<Row>(snapshots: seq<Row>, p: Progress<Row>, capacities: seq<nat>, call: nat)
    requires |snapshots| < WORD && Explained(snapshots, p, capacities) && Next(snapshots, p, Return(call)).Some?
    ensures Explained(snapshots, Next(snapshots, p, Return(call)).value, capacities)
  {
  }

  /** However the calls interleave, each works on the claim that its place among the
      additions gives it. */
  lemma {:induction false} InterleavingsAreExplained<Row>(snapshots: seq<Row>, events: seq<Event>)
    requires |snapshots| < WORD && After(snapshots, events).Some?
    ensures Explained(snapshots, After(snapshots, events).value, Capacities(events))
  {
    if events != [] {
      var shorter, e := events[..|events| - 1], events[|events| - 1];
      hide Claim, RowsAt;
      InterleavingsAreExplained(snapshots, shorter);
      var p, capacities := After(snapshots, shorter).value, Capacities(shorter);
      match e
      case Add(capacity) => AddIsExplained(snapshots, p, capacities, capacity);
      case Return(call) =>
        ReturnIsExplained(snapshots, p, capacities, call);
        assert capacities + [] == capacities;
    } else {
      assert Claim([], 0) == 0;
    }
  }

  function Rows<Row>(calls: seq<Call<Row>>): seq<Row> {
    if calls == [] then []
    else
      var c := calls[|calls| - 1];
      Rows(calls[..|calls| - 1]) + if c.Returned? then c.rows else []
  }

  lemma {:induction false} RowsAreListed<Row>(snapshots: seq<Row>, p: Progress<Row>, capacities: seq<nat>, k: nat)
    requires |snapshots| < WORD && Explained(snapshots, p, capacities)
    requires k <= |p.calls| && forall i | 0 <= i < k :: p.calls[i].Returned?
    ensures Rows(p.calls[..k]) == Listed(snapshots, capacities, k)
  {
    hide RowsAt, Claim;
    if k > 0 {
      RowsAreListed(snapshots, p, capacities, k - 1);
      assert p.calls[..k][..k - 1] == p.calls[..k - 1];
    }
  }

  /** When all calls of a run have returned and one with room found nothing, the rows they
      returned are the snapshot, every row once and in order of the claims, if and only if no
      call was brought back by the wrapping of the offset. */
  lemma {:induction false} ConcurrentListingIsExact<Row>(snapshots: seq<Row>, events: seq<Event>, k: nat)
    requires |snapshots| < WORD && After(snapshots, events).Some?
    requires var calls := After(snapshots, events).value.calls;
             && (forall i | 0 <= i < |calls| :: calls[i].Returned?)
             && k < |calls| && calls[k].rows == []
    requires k < |Capacities(events)| && Capacities(events)[k] > 0
    ensures Rows(After(snapshots, events).value.calls) == snapshots
            <==> NoneWrapsBack(|snapshots|, Capacities(events), |Capacities(events)|)
  {
    var p, capacities := After(snapshots, events).value, Capacities(events);
    InterleavingsAreExplained(snapshots, events);
    RowsAreListed(snapshots, p, capacities, |p.calls|);
    assert p.calls[..|p.calls|] == p.calls;
    hide Listed, Claim, RowsAt, Sum, After, Capacities, NoneWrapsBack;
    EmptyMeansComplete(snapshots, capacities, k, |capacities|);
  }

  // ---------- when the offset wraps around ----------

  lemma {:induction false} SumOfEqual(capacities: seq<nat>, size: nat, n: nat)
    requires n <= |capacities| && forall k | 0 <= k < |capacities| :: capacities[k] == size
    ensures Sum(capacities[..n]) == n * size
  {
    if n > 0 {
      SumOfEqual(capacities, size, n - 1);
      SumUpTo(capacities, n - 1);
    }
  }

  /** Calls can be brought back: with chunks of any size that divides the word, such as 2048,
      one more than a word's worth of them, a hypothetical number, lists rows a second time. */
  lemma OverflowListsTwice<Row>(snapshots: seq<Row>, capacities: seq<nat>, size: nat, n: nat)
    requires 0 < |snapshots| < WORD && n * size == WORD && n < |capacities|
    requires forall k | 0 <= k < |capacities| :: capacities[k] == size
    ensures |Listed(snapshots, capacities, |capacities|)| > |snapshots|
  {
    hide Sum, Listed;
    SumOfEqual(capacities, size, n);
    assert size > 0 && Sum(capacities[..n]) % WORD == 0;
    ListedOrRepeated(snapshots, capacities, |capacities|);
  }
}
