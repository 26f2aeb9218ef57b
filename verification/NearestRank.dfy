/** What a percentile is, without sorting: the one value of nearest rank. */
module NearestRank {
  import opened Options
  import opened Percentiles

  function CountAtMost(values: seq<real>, x: real): nat {
    if values == [] then 0 else (if values[0] <= x then 1 else 0) + CountAtMost(values[1..], x)
  }

  function CountBelow(values: seq<real>, x: real): nat {
    if values == [] then 0 else (if values[0] < x then 1 else 0) + CountBelow(values[1..], x)
  }

  /** At least the fraction of the values is no larger than `x`, and less than that is smaller. */
  predicate IsNearestRank(values: seq<real>, fraction: real, x: real) {
    && x in values
    && CountAtMost(values, x) as real >= fraction * |values| as real > CountBelow(values, x) as real
  }

  lemma {:induction false} InsertCounts(x: real, s: seq<real>, y: real)
    ensures CountAtMost(Insert(x, s), y) == CountAtMost(s, y) + if x <= y then 1 else 0
    ensures CountBelow(Insert(x, s), y) == CountBelow(s, y) + if x < y then 1 else 0
  {
    if s == [] || x <= s[0] {
      assert ([x] + s)[1..] == s;
    } else {
      InsertCounts(x, s[1..], y);
      assert Insert(x, s)[1..] == Insert(x, s[1..]);
    }
  }

  lemma {:induction false} SortedCounts(values: seq<real>, y: real)
    ensures CountAtMost(Sorted(values), y) == CountAtMost(values, y)
    ensures CountBelow(Sorted(values), y) == CountBelow(values, y)
  {
    if values != [] {
      SortedCounts(values[1..], y);
      InsertCounts(values[0], Sorted(values[1..]), y);
    }
  }

  lemma {:induction false} NoneBelow(s: seq<real>, x: real)
    requires AtMost(x, s)
    ensures CountBelow(s, x) == 0
  {
    if s != [] {
      NoneBelow(s[1..], x);
    }
  }

  lemma {:induction false} OrderedCounts(s: seq<real>, rank: nat)
    requires Ordered(s) && rank < |s|
    ensures CountAtMost(s, s[rank]) >= rank + 1 && CountBelow(s, s[rank]) <= rank
  {
    if rank == 0 {
      NoneBelow(s[1..], s[0]);
    } else {
      OrderedCounts(s[1..], rank - 1);
    }
  }

  lemma {:induction false} SmallerCounts(values: seq<real>, x: real, y: real)
    requires x < y
    ensures CountAtMost(values, x) <= CountBelow(values, y)
  {
    if values != [] {
      SmallerCounts(values[1..], x, y);
    }
  }

  /** The percentile is the one value of nearest rank. */
  lemma PercentileIsNearestRank(values: seq<real>, fraction: real, x: real)
    requires values != [] && 0.0 < fraction <= 1.0
    ensures Percentile(values, fraction) == Some(x) <==> IsNearestRank(values, fraction, x)
  {
    var p := Percentile(values, fraction).value;
    PercentileHasRank(values, fraction, p);
    if IsNearestRank(values, fraction, x) && x != p {
      if x < p { SmallerCounts(values, x, p); } else { SmallerCounts(values, p, x); }
    }
  }

  lemma PercentileHasRank(values: seq<real>, fraction: real, p: real)
    requires values != [] && 0.0 < fraction <= 1.0 && Percentile(values, fraction) == Some(p)
    ensures IsNearestRank(values, fraction, p)
  {
    RankIsNearest(|values|, fraction);
    ValueAtRank(values, Rank(|values|, fraction), p);
    BetweenCounts(CountAtMost(values, p), CountBelow(values, p), Rank(|values|, fraction), fraction * |values| as real);
  }

  lemma ValueAtRank(values: seq<real>, rank: nat, p: real)
    requires rank < |values| && (SortedSorts(values); Sorted(values)[rank] == p)
    ensures p in values && CountAtMost(values, p) >= rank + 1 && CountBelow(values, p) <= rank
  {
    SortedSorts(values);
    OrderedCounts(Sorted(values), rank);
    SortedCounts(values, p);
    assert p in multiset(Sorted(values));
  }

  lemma BetweenCounts(atMost: nat, below: nat, rank: nat, product: real)
    requires atMost >= rank + 1 && below <= rank && rank as real < product <= (rank + 1) as real
    ensures atMost as real >= product > below as real
  {
  }

  lemma RankIsNearest(count: nat, fraction: real)
    requires count > 0 && 0.0 < fraction <= 1.0
    ensures 0 <= Rank(count, fraction) < count
    ensures Rank(count, fraction) as real < fraction * count as real <= (Rank(count, fraction) + 1) as real
  {
    var x := count as real * fraction;
    assert 0.0 < x <= count as real;
  }
}
