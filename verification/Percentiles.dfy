/**
 Percentiles of durations: picked from the sorted list of all values, and picked while merging one
 sorted stream for each experiment and stopping at the highest rank that is needed.
 */
module Percentiles {
  import opened Options

  const MEDIAN: real := 0.5
  const HIGH: real := 0.95

  predicate AtMost(x: real, s: seq<real>) {
    forall i :: 0 <= i < |s| ==> x <= s[i]
  }

  predicate Ordered(s: seq<real>) {
    s == [] || (AtMost(s[0], s[1..]) && Ordered(s[1..]))
  }

  lemma AtMostMembers(x: real, s: seq<real>)
    ensures AtMost(x, s) <==> forall y :: y in s ==> x <= y
  {
    forall i | 0 <= i < |s| && forall y :: y in s ==> x <= y ensures x <= s[i] {
      assert s[i] in s;
    }
  }

  // ----- the plain definition

  function Insert(x: real, s: seq<real>): seq<real> {
    if s == [] || x <= s[0] then [x] + s else [s[0]] + Insert(x, s[1..])
  }

  function Sorted(values: seq<real>): seq<real> {
    if values == [] then [] else Insert(values[0], Sorted(values[1..]))
  }

  lemma {:induction false} InsertMembers(x: real, s: seq<real>)
    ensures multiset(Insert(x, s)) == multiset(s) + multiset{x}
    ensures forall y :: y in Insert(x, s) <==> y == x || y in s
  {
    if s != [] && x > s[0] {
      InsertMembers(x, s[1..]);
      assert s == [s[0]] + s[1..];
    }
  }

  lemma {:induction false} InsertSorts(x: real, s: seq<real>)
    requires Ordered(s)
    ensures Ordered(Insert(x, s))
  {
    if s == [] || x <= s[0] {
      assert ([x] + s)[1..] == s;
    } else {
      InsertSorts(x, s[1..]);
      var tail := Insert(x, s[1..]);
      assert Insert(x, s)[1..] == tail;
      InsertMembers(x, s[1..]);
      AtMostMembers(s[0], tail);
      AtMostMembers(s[0], s[1..]);
    }
  }

  lemma {:induction false} SortedSorts(values: seq<real>)
    ensures Ordered(Sorted(values)) && multiset(Sorted(values)) == multiset(values)
    ensures |Sorted(values)| == |values|
  {
    if values != [] {
      SortedSorts(values[1..]);
      InsertSorts(values[0], Sorted(values[1..]));
      InsertMembers(values[0], Sorted(values[1..]));
      assert values == [values[0]] + values[1..];
      assert |multiset(Sorted(values))| == |Sorted(values)| && |multiset(values)| == |values|;
    }
  }

  function Ceiling(x: real): int {
    if x == x.Floor as real then x.Floor else x.Floor + 1
  }

  function Rank(count: nat, fraction: real): int {
    var rank := Ceiling(count as real * fraction) - 1;
    if rank < 0 then 0 else rank
  }

  /** The value of that rank among all values, none when there are none. */
  function Percentile(values: seq<real>, fraction: real): Option<real> {
    if values == [] then None
    else
      SortedSorts(values);
      var rank := Rank(|values|, fraction);
      Some(Sorted(values)[if rank < |values| - 1 then rank else |values| - 1])
  }

  // ----- the merge

  function Concatenated(streams: seq<seq<real>>): seq<real> {
    if streams == [] then [] else streams[0] + Concatenated(streams[1..])
  }

  /** The smallest head, the first one among equals; none when all streams are exhausted. */
  method SmallestHead(rests: seq<seq<real>>) returns (best: Option<nat>)
    ensures best.None? ==> forall j :: 0 <= j < |rests| ==> rests[j] == []
    ensures best.Some? ==> best.value < |rests| && rests[best.value] != []
    ensures best.Some? ==> forall j :: 0 <= j < |rests| && rests[j] != [] ==> rests[best.value][0] <= rests[j][0]
    ensures best.Some? ==> forall j :: 0 <= j < best.value && rests[j] != [] ==> rests[best.value][0] < rests[j][0]
  {
    best := None;
    var i: nat := 0;
    while i < |rests|
      invariant i <= |rests|
      invariant best.None? ==> forall j :: 0 <= j < i ==> rests[j] == []
      invariant best.Some? ==> best.value < i && rests[best.value] != []
      invariant best.Some? ==> forall j :: 0 <= j < i && rests[j] != [] ==> rests[best.value][0] <= rests[j][0]
      invariant best.Some? ==> forall j :: 0 <= j < best.value && rests[j] != [] ==> rests[best.value][0] < rests[j][0]
    {
      if rests[i] != [] && (best.None? || rests[i][0] < rests[best.value][0]) {
        best := Some(i);
      }
      i := i + 1;
    }
  }

  /** Merging: what has been yielded is in order, and nothing that is left is smaller. */
  ghost predicate Merging(all: multiset<real>, yielded: seq<real>, rests: seq<seq<real>>) {
    && Ordered(yielded) && (forall j :: 0 <= j < |rests| ==> Ordered(rests[j]))
    && multiset(yielded) + multiset(Concatenated(rests)) == all
    && forall k :: 0 <= k < |yielded| ==> AtMost(yielded[k], Concatenated(rests))
  }

  lemma {:induction false} TakeHead(rests: seq<seq<real>>, i: nat)
    requires i < |rests| && rests[i] != []
    ensures multiset(Concatenated(rests))
         == multiset(Concatenated(rests[i := rests[i][1..]])) + multiset{rests[i][0]}
  {
    if i == 0 {
      assert rests[0] == [rests[0][0]] + rests[0][1..];
      assert rests[0 := rests[0][1..]][1..] == rests[1..];
    } else {
      TakeHead(rests[1..], i - 1);
      assert rests[i := rests[i][1..]][1..] == rests[1..][i - 1 := rests[i][1..]];
    }
  }

  lemma {:induction false} SmallestOfAll(rests: seq<seq<real>>, x: real)
    requires forall j :: 0 <= j < |rests| ==> Ordered(rests[j])
    requires forall j :: 0 <= j < |rests| && rests[j] != [] ==> x <= rests[j][0]
    ensures AtMost(x, Concatenated(rests))
  {
    if rests != [] {
      SmallestOfAll(rests[1..], x);
      if rests[0] != [] {
        assert rests[0] == [rests[0][0]] + rests[0][1..];
      }
      assert AtMost(x, rests[0]);
    }
  }

  lemma {:induction false} Appended(a: seq<real>, b: seq<real>)
    requires Ordered(a) && Ordered(b) && forall i :: 0 <= i < |a| ==> AtMost(a[i], b)
    ensures Ordered(a + b)
  {
    if a == [] {
      assert a + b == b;
    } else {
      Appended(a[1..], b);
      assert (a + b)[1..] == a[1..] + b;
    }
  }

  lemma MergeStep(all: multiset<real>, yielded: seq<real>, rests: seq<seq<real>>, i: nat)
    requires Merging(all, yielded, rests) && i < |rests| && rests[i] != []
    requires forall j :: 0 <= j < |rests| && rests[j] != [] ==> rests[i][0] <= rests[j][0]
    ensures Merging(all, yielded + [rests[i][0]], rests[i := rests[i][1..]])
  {
    var head, left, grown := rests[i][0], rests[i := rests[i][1..]], yielded + [rests[i][0]];
    TakeHead(rests, i);
    SmallestOfAll(rests, head);
    var before, behind := Concatenated(rests), Concatenated(left);
    assert head in multiset(before);
    forall k | 0 <= k < |yielded| ensures AtMost(yielded[k], [head]) {
      AtMostMembers(yielded[k], before);
    }
    Appended(yielded, [head]);
    forall k | 0 <= k < |grown| ensures AtMost(grown[k], behind) {
      assert AtMost(grown[k], before);
      Shrunk(grown[k], before, behind, head);
    }
  }

  lemma Shrunk(x: real, before: seq<real>, behind: seq<real>, head: real)
    requires AtMost(x, before) && multiset(before) == multiset(behind) + multiset{head}
    ensures AtMost(x, behind)
  {
    AtMostMembers(x, before);
    forall y | y in behind ensures x <= y {
      assert y in multiset(behind);
      assert y in multiset(before);
    }
    AtMostMembers(x, behind);
  }

  // ----- the merged prefix is the sorted prefix

  lemma NotAfter(a: seq<real>, b: seq<real>)
    requires a != [] && b != [] && Ordered(a) && multiset(a) == multiset(b)
    ensures a[0] <= b[0]
  {
    assert b[0] in multiset(b);
    assert b[0] in a;
  }

  lemma Behead(a: seq<real>)
    requires a != []
    ensures multiset(a[1..]) == multiset(a) - multiset{a[0]}
  {
    assert a == [a[0]] + a[1..];
  }

  lemma SameHead(a: seq<real>, b: seq<real>)
    requires a != [] && b != [] && Ordered(a) && Ordered(b) && multiset(a) == multiset(b)
    ensures a[0] == b[0] && multiset(a[1..]) == multiset(b[1..])
  {
    NotAfter(a, b);
    NotAfter(b, a);
    Behead(a);
    Behead(b);
  }

  lemma {:induction false} SameOrder(a: seq<real>, b: seq<real>)
    requires Ordered(a) && Ordered(b) && multiset(a) == multiset(b)
    ensures a == b
  {
    assert |a| == |multiset(a)| && |b| == |multiset(b)|;
    if a != [] {
      SameHead(a, b);
      SameOrder(a[1..], b[1..]);
      assert a == [a[0]] + a[1..] && b == [b[0]] + b[1..];
    }
  }

  lemma YieldedIsSorted(values: seq<real>, yielded: seq<real>, rests: seq<seq<real>>)
    requires Merging(multiset(values), yielded, rests)
    ensures |yielded| <= |Sorted(values)| == |values| && yielded == Sorted(values)[..|yielded|]
    ensures |values| == |yielded| + |Concatenated(rests)|
  {
    var left := Concatenated(rests);
    SortedSorts(values);
    SortedSorts(left);
    forall k | 0 <= k < |yielded| ensures AtMost(yielded[k], Sorted(left)) {
      AtMostMembers(yielded[k], left);
      forall y | y in Sorted(left) ensures yielded[k] <= y {
        assert y in multiset(Sorted(left));
      }
      AtMostMembers(yielded[k], Sorted(left));
    }
    Appended(yielded, Sorted(left));
    SameOrder(yielded + Sorted(left), Sorted(values));
  }

  lemma RanksFit(count: nat)
    requires count > 0
    ensures Rank(count, MEDIAN) <= Rank(count, HIGH) < count
  {
  }

  /** A value yielded at the rank of a percentile is that percentile. */
  lemma PickedAtRank(values: seq<real>, yielded: seq<real>, rests: seq<seq<real>>, fraction: real)
    requires Merging(multiset(values), yielded, rests)
    requires Rank(|values|, fraction) < |yielded|
    ensures Percentile(values, fraction) == Some(yielded[Rank(|values|, fraction)])
  {
    YieldedIsSorted(values, yielded, rests);
  }

  function Count(streams: seq<seq<real>>): nat {
    if streams == [] then 0 else |streams[0]| + Count(streams[1..])
  }

  lemma {:induction false} CountsAll(streams: seq<seq<real>>)
    ensures Count(streams) == |Concatenated(streams)|
  {
    if streams != [] {
      CountsAll(streams[1..]);
    }
  }

  lemma {:induction false} Exhausted(rests: seq<seq<real>>)
    requires forall j :: 0 <= j < |rests| ==> rests[j] == []
    ensures Concatenated(rests) == []
  {
    if rests != [] {
      Exhausted(rests[1..]);
    }
  }

  /** Both percentiles from one merge that stops at the higher rank. */
  method ModuleStatistics(streams: seq<seq<real>>) returns (p50: Option<real>, p95: Option<real>)
    requires forall j :: 0 <= j < |streams| ==> Ordered(streams[j])
    ensures p50 == Percentile(Concatenated(streams), 0.5)
    ensures p95 == Percentile(Concatenated(streams), 0.95)
  {
    ghost var values := Concatenated(streams);
    ghost var yielded: seq<real> := [];
    CountsAll(streams);
    var count := Count(streams);
    var low, high := Rank(count, MEDIAN), Rank(count, HIGH);
    if count > 0 { RanksFit(count); }
    p50, p95 := None, None;
    var rests := streams;
    var index := 0;
    while true
      invariant Merging(multiset(values), yielded, rests) && index == |yielded|
      invariant index <= high
      invariant p50 == (if low < index then Some(yielded[low]) else None) && p95 == None
      decreases |Concatenated(rests)|
    {
      YieldedIsSorted(values, yielded, rests);
      var best := SmallestHead(rests);
      if best.None? {
        Exhausted(rests);
        break;
      }
      TakeHead(rests, best.value);
      MergeStep(multiset(values), yielded, rests, best.value);
      var duration := rests[best.value][0];
      yielded := yielded + [duration];
      rests := rests[best.value := rests[best.value][1..]];
      YieldedIsSorted(values, yielded, rests);
      if index == low {
        p50 := Some(duration);
      }
      if index == high {
        p95 := Some(duration);
      }
      if index >= high {
        PickedAtRank(values, yielded, rests, MEDIAN);
        PickedAtRank(values, yielded, rests, HIGH);
        break;
      }
      index := index + 1;
    }
  }
}
