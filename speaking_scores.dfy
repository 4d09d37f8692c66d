/**
 * Score arithmetic of the speaking agent (Agent/speaking_agent.py):
 * `_round_half`, Python's `round(x, 1)`, and `_aggregate_scores`, which
 * folds the per-part oracle records into one record of five category
 * averages and a band.
 *
 * Scores are exact reals. Python's `round` breaks ties towards the even
 * neighbour, and so does `RoundHalfEven` below.
 */
module SpeakingScores {
  import opened Wrappers
  import opened PyDict
  import opened JsonValue

  function Abs(x: real): real {
    if x < 0.0 then -x else x
  }

  /** The distance from the integer `k` to `x`. */
  function Dist(k: int, x: real): real {
    Abs(k as real - x)
  }

  /** Python `round(x)`: the nearest integer, a tie going to the even one. */
  function RoundHalfEven(x: real): (r: int)
    ensures forall k: int :: Dist(r, x) <= Dist(k, x)
    ensures Dist(r, x) <= 0.5
    ensures Dist(r, x) == 0.5 ==> r % 2 == 0
  {
    var f := x.Floor;
    var d := x - f as real;
    var r := if d < 0.5 then f
             else if d > 0.5 then f + 1
             else if f % 2 == 0 then f
             else f + 1;
    assert forall k: int :: Dist(r, x) <= Dist(k, x) by {
      forall k: int ensures Dist(r, x) <= Dist(k, x) {
        NearestOfFloorAndCeiling(x, k);
      }
    }
    r
  }

  /** Every integer is at least as far from `x` as the nearer of floor and floor + 1. */
  lemma NearestOfFloorAndCeiling(x: real, k: int)
    ensures Dist(x.Floor, x) == x - x.Floor as real
    ensures Dist(x.Floor + 1, x) == x.Floor as real + 1.0 - x
    ensures k <= x.Floor ==> Dist(x.Floor, x) <= Dist(k, x)
    ensures k > x.Floor ==> Dist(x.Floor + 1, x) <= Dist(k, x)
  {
  }

  /** The `k`-th multiple of one half. */
  function HalfStep(k: int): real {
    k as real / 2.0
  }

  /** The `k`-th multiple of one tenth. */
  function TenthStep(k: int): real {
    k as real / 10.0
  }

  predicate IsHalfStep(r: real) {
    (2.0 * r).Floor as real == 2.0 * r
  }

  predicate IsTenthStep(r: real) {
    (10.0 * r).Floor as real == 10.0 * r
  }

  /** `_round_half(x)`, that is `round(x * 2) / 2.0`: the multiple of 0.5
      nearest to `x`; of two equally near, the whole number. */
  function RoundHalf(x: real): (r: real)
    ensures IsHalfStep(r)
    ensures forall k: int :: Abs(r - x) <= Abs(HalfStep(k) - x)
    ensures Abs(r - x) <= 0.25
    ensures Abs(r - x) == 0.25 ==> r.Floor as real == r
  {
    HalfGridNearest(x, 2.0 * x, RoundHalfEven(2.0 * x));
    RoundHalfEven(2.0 * x) as real / 2.0
  }

  /** The half-grid point `k / 2` is nearest to `x` when `k` is nearest to `2x`. */
  lemma HalfGridNearest(x: real, y: real, k: int)
    requires y == 2.0 * x
    requires forall j: int :: Dist(k, y) <= Dist(j, y)
    requires Dist(k, y) <= 0.5
    requires Dist(k, y) == 0.5 ==> k % 2 == 0
    ensures IsHalfStep(k as real / 2.0)
    ensures forall j: int :: Abs(k as real / 2.0 - x) <= Abs(HalfStep(j) - x)
    ensures Abs(k as real / 2.0 - x) <= 0.25
    ensures Abs(k as real / 2.0 - x) == 0.25 ==> (k as real / 2.0).Floor as real == k as real / 2.0
  {
    var r := k as real / 2.0;
    HalfScaling(x, k);
    forall j: int ensures Abs(r - x) <= Abs(HalfStep(j) - x) {
      HalfScaling(x, j);
    }
    if Abs(r - x) == 0.25 {
      EvenHalfIsWhole(k);
    }
    assert 2.0 * r == k as real;
  }

  lemma HalfScaling(x: real, j: int)
    ensures Dist(j, 2.0 * x) == 2.0 * Abs(HalfStep(j) - x)
  {
  }

  lemma TenthScaling(x: real, j: int)
    ensures Dist(j, 10.0 * x) == 10.0 * Abs(TenthStep(j) - x)
  {
  }

  lemma EvenHalfIsWhole(k: int)
    requires k % 2 == 0
    ensures (k as real / 2.0).Floor as real == k as real / 2.0
  {
    var m := k / 2;
    assert k == 2 * m;
    assert k as real / 2.0 == m as real;
  }

  /** Python `round(x, 1)` on an exact value: the multiple of 0.1 nearest to
      `x`, a tie going to the even number of tenths. */
  function Round1(x: real): (r: real)
    ensures IsTenthStep(r)
    ensures forall k: int :: Abs(r - x) <= Abs(TenthStep(k) - x)
    ensures Abs(r - x) <= 0.05
    ensures Abs(r - x) == 0.05 ==> (10.0 * r).Floor % 2 == 0
  {
    TenthGridNearest(x, 10.0 * x, RoundHalfEven(10.0 * x));
    RoundHalfEven(10.0 * x) as real / 10.0
  }

  /** The tenth-grid point `k / 10` is nearest to `x` when `k` is nearest to `10x`. */
  lemma TenthGridNearest(x: real, y: real, k: int)
    requires y == 10.0 * x
    requires forall j: int :: Dist(k, y) <= Dist(j, y)
    requires Dist(k, y) <= 0.5
    requires Dist(k, y) == 0.5 ==> k % 2 == 0
    ensures IsTenthStep(k as real / 10.0)
    ensures forall j: int :: Abs(k as real / 10.0 - x) <= Abs(TenthStep(j) - x)
    ensures Abs(k as real / 10.0 - x) <= 0.05
    ensures Abs(k as real / 10.0 - x) == 0.05 ==> (10.0 * (k as real / 10.0)).Floor % 2 == 0
  {
    var r := k as real / 10.0;
    TenthScaling(x, k);
    forall j: int ensures Abs(r - x) <= Abs(TenthStep(j) - x) {
      TenthScaling(x, j);
    }
    assert 10.0 * r == k as real;
  }

  /** Half-up would give 6.5 and 7.0 here; ties to even gives 6.0 and 7.0. */
  lemma RoundHalfTiesToEven()
    ensures RoundHalf(6.25) == 6.0
    ensures RoundHalf(6.75) == 7.0
  {
    assert (2.0 * 6.25).Floor == 12;
    assert (2.0 * 6.75).Floor == 13;
  }

  /** Half-up would give 7.3 and 7.8 here; ties to even gives 7.2 and 7.8
      (7.25 is, for instance, the mean of 7, 7, 7 and 8). */
  lemma Round1TiesToEven()
    ensures Round1(7.25) == 7.2
    ensures Round1(7.75) == 7.8
  {
    assert (10.0 * 7.25).Floor == 72;
    assert (10.0 * 7.75).Floor == 77;
  }

  /** Rounding to the half grid keeps a value inside the band scale [0, 9]. */
  lemma RoundHalfInBandRange(x: real)
    requires 0.0 <= x <= 9.0
    ensures 0.0 <= RoundHalf(x) <= 9.0
  {
    assert Abs(RoundHalf(x) - x) <= Abs(HalfStep(0) - x);
    assert Abs(RoundHalf(x) - x) <= Abs(HalfStep(18) - x);
  }

  /** Rounding to one decimal keeps a value inside [0, 9]. */
  lemma Round1InBandRange(x: real)
    requires 0.0 <= x <= 9.0
    ensures 0.0 <= Round1(x) <= 9.0
  {
    assert Abs(Round1(x) - x) <= Abs(TenthStep(0) - x);
    assert Abs(Round1(x) - x) <= Abs(TenthStep(90) - x);
  }

  // ---- _aggregate_scores ----

  const Categories: seq<string> :=
    ["fluency", "coherence", "lexical_resource", "grammar", "pronunciation"]

  /** What one part adds to a category sum: `float(obj.get(c, 0))`, or 0.0
      when `.get` or `float` raises (a part that is not a dict, a null, a
      list, a string that is not a number). */
  function Contribution(obj: Json, c: string, parseFloat: FloatParser): (r: real)
    ensures !obj.JObj? || !HasKey(obj.fields, c) ==> r == 0.0
    ensures obj.JObj? && HasKey(obj.fields, c) && ToFloat(Get(obj.fields, c).value, parseFloat).Some? ==>
              r == ToFloat(Get(obj.fields, c).value, parseFloat).value
    ensures obj.JObj? && HasKey(obj.fields, c) && ToFloat(Get(obj.fields, c).value, parseFloat).None? ==> r == 0.0
  {
    match GetAttr(obj, c, JNum(0.0))
    case Err(_) => 0.0
    case Ok(v) =>
      match ToFloat(v, parseFloat)
      case Some(x) => x
      case None => 0.0
  }

  function Values(d: Dict<Json>): (vs: seq<Json>)
    ensures |vs| == |d|
    ensures forall i :: 0 <= i < |d| ==> vs[i] == d[i].1
  {
    seq(|d|, i requires 0 <= i < |d| => d[i].1)
  }

  /** `sums[c]` after the loop has seen the part records `objs`, in order. */
  function CategorySum(objs: seq<Json>, c: string, parseFloat: FloatParser): real {
    if objs == [] then 0.0
    else CategorySum(objs[..|objs| - 1], c, parseFloat) + Contribution(objs[|objs| - 1], c, parseFloat)
  }

  /** `avg[c]`: the category sum over every part, divided by the number of parts. */
  function CategoryAverage(perPart: Dict<Json>, c: string, parseFloat: FloatParser): real
    requires perPart != []
  {
    Round1(CategorySum(Values(perPart), c, parseFloat) / |perPart| as real)
  }

  /** `avg`: the five rounded category averages, in category order. */
  function Averages(perPart: Dict<Json>, parseFloat: FloatParser): (avg: seq<real>)
    requires perPart != []
    ensures |avg| == 5
  {
    seq(5, i requires 0 <= i < 5 => CategoryAverage(perPart, Categories[i], parseFloat))
  }

  /** `sum(avg[c] for c in cats) / len(cats)`. */
  function Mean5(avg: seq<real>): real
    requires |avg| == 5
  {
    (avg[0] + avg[1] + avg[2] + avg[3] + avg[4]) / 5.0
  }

  /** The category entries of the record, `{c: avg[c] for c in cats}`. */
  function CategoryFields(avg: seq<real>): (fields: Dict<Json>)
    requires |avg| == 5
    ensures |fields| == 5
    ensures forall i :: 0 <= i < 5 ==> fields[i] == (Categories[i], JNum(avg[i]))
  {
    seq(5, i requires 0 <= i < 5 => (Categories[i], JNum(avg[i])))
  }

  /** The record `_aggregate_scores(per_part)` returns: `{}` for no parts,
      otherwise the five category averages followed by the band, the
      multiple of 0.5 nearest to their mean. */
  function Aggregate(perPart: Dict<Json>, parseFloat: FloatParser): (r: Json)
    ensures r.JObj?
    ensures perPart == [] <==> r == JObj([])
    ensures perPart != [] ==> Keys(r.fields) == Categories + ["band"]
    ensures perPart != [] ==> forall i :: 0 <= i < 5 ==>
      r.fields[i].1 == JNum(CategoryAverage(perPart, Categories[i], parseFloat))
    ensures perPart != [] ==>
      var band := r.fields[5].1;
      && band.JNum? && IsHalfStep(band.n)
      && forall k: int :: Abs(band.n - Mean5(Averages(perPart, parseFloat))) <= Abs(HalfStep(k) - Mean5(Averages(perPart, parseFloat)))
  {
    if perPart == [] then JObj([])
    else
      var avg := Averages(perPart, parseFloat);
      var fields := CategoryFields(avg) + [("band", JNum(RoundHalf(Mean5(avg))))];
      assert Keys(fields) == Categories + ["band"];
      JObj(fields)
  }

  /** `_aggregate_scores`: one pass over the parts accumulating five sums and
      the count `n`, then the rounded averages and the band. */
  method AggregateScores(perPart: Dict<Json>, parseFloat: FloatParser) returns (r: Json)
    ensures r == Aggregate(perPart, parseFloat)
  {
    ghost var objs := Values(perPart);
    var sums: seq<real> := [0.0, 0.0, 0.0, 0.0, 0.0];
    var n := 0;
    while n < |perPart|
      invariant 0 <= n <= |perPart|
      invariant |sums| == 5
      invariant forall j :: 0 <= j < 5 ==> sums[j] == CategorySum(objs[..n], Categories[j], parseFloat)
    {
      var obj := perPart[n].1;
      assert objs[..n + 1][..n] == objs[..n];
      var j := 0;
      while j < 5
        invariant 0 <= j <= 5
        invariant |sums| == 5
        invariant forall i :: 0 <= i < j ==> sums[i] == CategorySum(objs[..n + 1], Categories[i], parseFloat)
        invariant forall i :: j <= i < 5 ==> sums[i] == CategorySum(objs[..n], Categories[i], parseFloat)
      {
        sums := sums[j := sums[j] + Contribution(obj, Categories[j], parseFloat)];
        j := j + 1;
      }
      n := n + 1;
    }
    if n == 0 {
      return JObj([]);
    }
    assert objs[..n] == objs;
    var avg := seq(5, i requires 0 <= i < 5 => Round1(sums[i] / n as real));
    assert avg == Averages(perPart, parseFloat);
    var band := RoundHalf(Mean5(avg));
    r := JObj(CategoryFields(avg) + [("band", JNum(band))]);
  }

  // ---- Properties of the aggregate ----

  /** Taking one record out of the middle of the sum. */
  lemma {:induction false} CategorySumRemove(objs: seq<Json>, k: nat, c: string, parseFloat: FloatParser)
    requires k < |objs|
    ensures CategorySum(objs, c, parseFloat)
         == CategorySum(objs[..k] + objs[k + 1..], c, parseFloat) + Contribution(objs[k], c, parseFloat)
  {
    var last := |objs| - 1;
    if k == last {
      assert objs[..k] + objs[k + 1..] == objs[..last];
    } else {
      var front := objs[..last];
      CategorySumRemove(front, k, c, parseFloat);
      var rest := objs[..k] + objs[k + 1..];
      assert rest[..|rest| - 1] == front[..k] + front[k + 1..];
      assert rest[|rest| - 1] == objs[last];
    }
  }

  /** Each category sum depends only on the multiset of part records. */
  lemma {:induction false} CategorySumPermutation(a: seq<Json>, b: seq<Json>, c: string, parseFloat: FloatParser)
    requires multiset(a) == multiset(b)
    ensures CategorySum(a, c, parseFloat) == CategorySum(b, c, parseFloat)
  {
    if a == [] {
      assert |b| == |multiset(b)| == 0;
    } else {
      var x := a[|a| - 1];
      assert a == a[..|a| - 1] + [x];
      assert x in multiset(b);
      var k :| 0 <= k < |b| && b[k] == x;
      var rest := b[..k] + b[k + 1..];
      assert b == b[..k] + [x] + b[k + 1..];
      assert multiset(rest) == multiset(b) - multiset{x};
      assert multiset(a[..|a| - 1]) == multiset(a) - multiset{x};
      CategorySumPermutation(a[..|a| - 1], rest, c, parseFloat);
      CategorySumRemove(b, k, c, parseFloat);
    }
  }

  /** Order independence: scoring the parts in another order, or under other
      part names, gives the same aggregate record. */
  lemma AggregateOrderIndependent(a: Dict<Json>, b: Dict<Json>, parseFloat: FloatParser)
    requires multiset(Values(a)) == multiset(Values(b))
    ensures Aggregate(a, parseFloat) == Aggregate(b, parseFloat)
  {
    assert |a| == |multiset(Values(a))| == |multiset(Values(b))| == |b|;
    if a != [] {
      forall i | 0 <= i < 5
        ensures CategoryAverage(a, Categories[i], parseFloat) == CategoryAverage(b, Categories[i], parseFloat)
      {
        CategorySumPermutation(Values(a), Values(b), Categories[i], parseFloat);
      }
      assert Averages(a, parseFloat) == Averages(b, parseFloat);
    }
  }

  /** A part whose record is empty (or unparseable) adds 0 to every sum but
      still counts in the divisor. */
  lemma EmptyPartCountsAsZero(perPart: Dict<Json>, p: string, c: string, parseFloat: FloatParser)
    ensures CategoryAverage(perPart + [(p, JObj([]))], c, parseFloat)
         == Round1(CategorySum(Values(perPart), c, parseFloat) / (|perPart| + 1) as real)
  {
    var objs := Values(perPart + [(p, JObj([]))]);
    assert objs[..|objs| - 1] == Values(perPart);
  }

  /** Every score of every part within `lo`..`hi` for every category. */
  predicate ScoresWithin(objs: seq<Json>, lo: real, hi: real, parseFloat: FloatParser) {
    forall o, c :: o in objs && c in Categories ==> lo <= Contribution(o, c, parseFloat) <= hi
  }

  lemma {:induction false} CategorySumBounds(objs: seq<Json>, c: string, parseFloat: FloatParser)
    requires ScoresWithin(objs, 0.0, 9.0, parseFloat) && c in Categories
    ensures 0.0 <= CategorySum(objs, c, parseFloat) <= 9.0 * |objs| as real
  {
    if objs != [] {
      var front := objs[..|objs| - 1];
      assert forall o :: o in front ==> o in objs;
      CategorySumBounds(front, c, parseFloat);
      assert objs[|objs| - 1] in objs;
    }
  }

  /** With part scores on the 0-9 scale, every average and the band stay on it. */
  lemma AggregateInBandRange(perPart: Dict<Json>, parseFloat: FloatParser)
    requires perPart != [] && ScoresWithin(Values(perPart), 0.0, 9.0, parseFloat)
    ensures forall i :: 0 <= i < 5 ==> 0.0 <= CategoryAverage(perPart, Categories[i], parseFloat) <= 9.0
    ensures var band := Aggregate(perPart, parseFloat).fields[5].1;
      band.JNum? && 0.0 <= band.n <= 9.0
  {
    forall i | 0 <= i < 5
      ensures 0.0 <= CategoryAverage(perPart, Categories[i], parseFloat) <= 9.0
    {
      AverageInBandRange(perPart, Categories[i], parseFloat);
    }
    var avg := Averages(perPart, parseFloat);
    assert forall i :: 0 <= i < 5 ==> avg[i] == CategoryAverage(perPart, Categories[i], parseFloat);
    RoundHalfInBandRange(Mean5(avg));
    BandOfAggregate(perPart, parseFloat);
  }

  lemma AverageInBandRange(perPart: Dict<Json>, c: string, parseFloat: FloatParser)
    requires perPart != [] && ScoresWithin(Values(perPart), 0.0, 9.0, parseFloat) && c in Categories
    ensures 0.0 <= CategoryAverage(perPart, c, parseFloat) <= 9.0
  {
    var s := CategorySum(Values(perPart), c, parseFloat);
    CategorySumBounds(Values(perPart), c, parseFloat);
    QuotientInBandRange(s, |perPart| as real);
    Round1InBandRange(s / |perPart| as real);
  }

  lemma QuotientInBandRange(s: real, n: real)
    requires n >= 1.0 && 0.0 <= s <= 9.0 * n
    ensures 0.0 <= s / n <= 9.0
  {
    var q := s / n;
    assert q * n == s;
    assert (9.0 - q) * n == 9.0 * n - s;
  }

  lemma BandOfAggregate(perPart: Dict<Json>, parseFloat: FloatParser)
    requires perPart != []
    ensures Aggregate(perPart, parseFloat).fields[5].1 == JNum(RoundHalf(Mean5(Averages(perPart, parseFloat))))
  {
  }

  /** A part record giving the score `v` in every category. */
  function Uniform(v: real): Json {
    JObj(CategoryFields([v, v, v, v, v]))
  }

  lemma UniformContribution(v: real, i: nat, parseFloat: FloatParser)
    requires i < 5
    ensures Contribution(Uniform(v), Categories[i], parseFloat) == v
  {
    var fields := CategoryFields([v, v, v, v, v]);
    assert forall j :: 0 <= j < 5 && j != i ==> Categories[j] != Categories[i];
    assert fields[i].0 == Categories[i];
  }

  lemma SixAndEightSum(i: nat, parseFloat: FloatParser)
    requires i < 5
    ensures CategorySum([Uniform(6.0), Uniform(8.0)], Categories[i], parseFloat) == 14.0
  {
    var c := Categories[i];
    UniformContribution(6.0, i, parseFloat);
    UniformContribution(8.0, i, parseFloat);
    assert [Uniform(6.0)][..0] == [];
    assert [Uniform(6.0), Uniform(8.0)][..1] == [Uniform(6.0)];
  }

  lemma SevenIsOnBothGrids()
    ensures Round1(7.0) == 7.0 && RoundHalf(7.0) == 7.0
  {
    assert (10.0 * 7.0).Floor == 70;
    assert (2.0 * 7.0).Floor == 14;
  }

  /** The worked example: two parts scored 6 and 8 everywhere average to 7.0
      in every category, and the band is 7.0. */
  lemma AggregateSixAndEight(parseFloat: FloatParser)
    ensures Aggregate([("part_1", Uniform(6.0)), ("part_2", Uniform(8.0))], parseFloat)
         == JObj(CategoryFields([7.0, 7.0, 7.0, 7.0, 7.0]) + [("band", JNum(7.0))])
  {
    var parts := [("part_1", Uniform(6.0)), ("part_2", Uniform(8.0))];
    assert Values(parts) == [Uniform(6.0), Uniform(8.0)];
    SevenIsOnBothGrids();
    forall i | 0 <= i < 5 ensures CategoryAverage(parts, Categories[i], parseFloat) == 7.0 {
      SixAndEightSum(i, parseFloat);
    }
    assert Averages(parts, parseFloat) == [7.0, 7.0, 7.0, 7.0, 7.0];
    assert Mean5([7.0, 7.0, 7.0, 7.0, 7.0]) == 7.0;
  }
}
