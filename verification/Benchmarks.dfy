/** Benchmark arithmetic over the reals: the 1-2-5 series, thresholds, order statistics. */
module Benchmarks {
  import opened Prelude

  // ---- Rounding up to the 1-2-5 series -------------------------------------------------------------

  function Pow10(k: int): (r: real)
    ensures r > 0.0
    decreases if k < 0 then -k else k
  {
    if k == 0 then 1.0 else if k > 0 then 10.0 * Pow10(k - 1) else Pow10(k + 1) / 10.0
  }

  lemma {:induction false} Invert(x: real)
    requires 0.0 < x < 1.0
    ensures 1.0 / x > 1.0
    ensures 10.0 * x < 1.0 ==> (1.0 / (10.0 * x)).Floor < (1.0 / x).Floor
  {
    if 10.0 * x < 1.0 {
      assert 1.0 / (10.0 * x) == (1.0 / x) / 10.0 && 1.0 / x > 10.0;
    }
  }

  /** The exponent of the power of ten at or below `x`. */
  function FloorLog10(x: real): int
    requires x > 0.0
    decreases if x >= 10.0 then x.Floor else if x < 1.0 then (1.0 / x).Floor + 1 else 0
  {
    if x >= 10.0 then
      FloorLog10(x / 10.0) + 1
    else if x < 1.0 then
      Invert(x);
      FloorLog10(10.0 * x) - 1
    else 0
  }

  function RoundUp2Sig(x: real): real {
    if x <= 0.0 then 0.01
    else
      var magnitude := Pow10(FloorLog10(x));
      var normalized := x / magnitude;
      var rounded := if normalized <= 1.0 then 1.0 else if normalized <= 2.0 then 2.0 else if normalized <= 5.0 then 5.0 else 10.0;
      rounded * magnitude
  }

  ghost predicate Member(r: real, d: real, k: int) { d in {1.0, 2.0, 5.0} && r == d * Pow10(k) }

  /** A member of the series: 1, 2 or 5 times a power of ten. */
  ghost predicate InSeries(r: real) { exists d, k :: Member(r, d, k) }

  lemma {:induction false} Pow10Step(k: int)
    ensures Pow10(k + 1) == 10.0 * Pow10(k)
  {
    if k < -1 {
      assert Pow10(k) == Pow10(k + 1) / 10.0;
    }
  }

  lemma {:induction false} Pow10Grows(j: int, k: int)
    requires j <= k
    ensures Pow10(j) <= Pow10(k)
    decreases k - j
  {
    if j < k {
      Pow10Grows(j, k - 1);
      Pow10Step(k - 1);
    }
  }

  lemma {:induction false} FloorLog10Means(x: real)
    requires x > 0.0
    ensures Pow10(FloorLog10(x)) <= x < Pow10(FloorLog10(x) + 1)
    decreases if x >= 10.0 then x.Floor else if x < 1.0 then (1.0 / x).Floor + 1 else 0
  {
    var k := FloorLog10(x);
    if x >= 10.0 {
      FloorLog10Means(x / 10.0);
      Pow10Step(k - 1);
      Pow10Step(k);
    } else if x < 1.0 {
      Invert(x);
      FloorLog10Means(10.0 * x);
      Pow10Step(k);
      Pow10Step(k + 1);
    } else {
      assert Pow10(1) == 10.0 * Pow10(0);
    }
  }

  /** The case analysis of the rounding, in terms of the power of ten below `x`. */
  lemma {:induction false} RoundCases(x: real) returns (m: real, k: int)
    requires x > 0.0
    ensures m == Pow10(k) && m <= x < 10.0 * m
    ensures RoundUp2Sig(x) == if x <= m then m else if x <= 2.0 * m then 2.0 * m else if x <= 5.0 * m then 5.0 * m else 10.0 * m
  {
    k := FloorLog10(x);
    m := Pow10(k);
    FloorLog10Means(x);
    Pow10Step(k);
    Divide(x, m, 1.0);
    Divide(x, m, 2.0);
    Divide(x, m, 5.0);
  }

  lemma {:induction false} Divide(x: real, m: real, d: real)
    requires m > 0.0
    ensures x / m <= d <==> x <= d * m
  {
    var q := x / m;
    assert x == q * m;
    if q <= d {
      assert (d - q) * m >= 0.0;
    } else {
      assert (q - d) * m > 0.0;
    }
  }

  /** For a positive number: the least member of the series not below it, and less than two and a half times it. */
  lemma {:induction false} RoundUpIsLeast(x: real)
    requires x > 0.0
    ensures var r := RoundUp2Sig(x);
      InSeries(r) && x <= r < 2.5 * x && forall s | InSeries(s) && x <= s :: r <= s
  {
    var m, k := RoundCases(x);
    var r := RoundUp2Sig(x);
    Pow10Step(k);
    assert Member(m, 1.0, k) && Member(2.0 * m, 2.0, k) && Member(5.0 * m, 5.0, k) && Member(10.0 * m, 1.0, k + 1);
    forall s | InSeries(s) && x <= s ensures r <= s {
      var d, j :| Member(s, d, j);
      NextMember(m, k, s, d, j);
    }
  }

  /** A member not below the power of ten `m` is m, 2m, 5m, or at least 10m. */
  lemma {:induction false} NextMember(m: real, k: int, s: real, d: real, j: int)
    requires m == Pow10(k) && Member(s, d, j) && m <= s
    ensures s == m || s == 2.0 * m || s == 5.0 * m || s >= 10.0 * m
  {
    if j > k {
      Pow10Grows(k + 1, j);
      Pow10Step(k);
      assert s >= Pow10(j);
    } else if j < k {
      MemberBelow(s, d, j);
      Pow10Step(j);
      Pow10Grows(j + 1, k);
    }
  }

  lemma {:induction false} MemberBelow(s: real, d: real, j: int)
    requires Member(s, d, j)
    ensures s <= 5.0 * Pow10(j)
  {
  }

  /** Rounding a member changes nothing. */
  lemma {:induction false} RoundUpIdempotent(x: real)
    ensures RoundUp2Sig(RoundUp2Sig(x)) == RoundUp2Sig(x)
  {
    hide RoundUp2Sig;
    PositiveResult(x);
    var r := RoundUp2Sig(x);
    RoundUpIsLeast(r);
  }

  lemma {:induction false} PositiveResult(x: real)
    ensures RoundUp2Sig(x) > 0.0 && InSeries(RoundUp2Sig(x))
    ensures x <= 0.0 ==> RoundUp2Sig(x) == 0.01
  {
    if x > 0.0 {
      RoundUpIsLeast(x);
    } else {
      Pow10Step(-1);
      Pow10Step(-2);
      assert Member(0.01, 1.0, -2);
    }
  }

  /** Rounding keeps order, except from numbers not above zero, which become 0.01, to smaller positive results. */
  lemma {:induction false} MonotoneIff(x: real, y: real)
    requires x <= y
    ensures RoundUp2Sig(x) <= RoundUp2Sig(y) <==> x > 0.0 || y <= 0.0 || y > 0.005
  {
    hide RoundUp2Sig;
    PositiveResult(x);
    PositiveResult(y);
    if x > 0.0 {
      RoundUpIsLeast(x);
      RoundUpIsLeast(y);
    } else if y > 0.0 {
      RoundUpIsLeast(y);
      Small();
      var d, j :| Member(RoundUp2Sig(y), d, j);
      NextMember(0.001, -3, if y > 0.001 then RoundUp2Sig(y) else 0.005, if y > 0.001 then d else 5.0, if y > 0.001 then j else -3);
    }
  }

  /** Zero rounds to more than a thousandth does. */
  lemma {:induction false} ZeroRoundsHigher()
    ensures RoundUp2Sig(0.0) > RoundUp2Sig(0.001)
  {
    MonotoneIff(0.0, 0.001);
  }

  lemma {:induction false} Small()
    ensures Pow10(-2) == 0.01 && Pow10(-3) == 0.001 && Member(0.005, 5.0, -3) && InSeries(0.005)
  {
    Pow10Step(-1);
    Pow10Step(-2);
    Pow10Step(-3);
    assert Member(0.005, 5.0, -3);
  }

  lemma {:induction false} RoundUpScales(x: real)
    requires x > 0.0
    ensures RoundUp2Sig(10.0 * x) == 10.0 * RoundUp2Sig(x)
  {
    var m, k := RoundCases(x);
    var n, j := RoundCases(10.0 * x);
    Pow10Step(k);
    if j > k + 1 {
      Pow10Grows(k + 2, j);
      Pow10Step(k + 1);
    } else if j < k + 1 {
      Pow10Grows(j + 1, k + 1);
      Pow10Step(j);
    }
  }

  datatype Threshold = Threshold(baselineMedianMs: real, warnMs: real, failMs: real)

  function ThresholdOf(base: real, median: real): Threshold {
    Threshold(RoundUp2Sig(median), RoundUp2Sig(MaxR(10.0 * base, 0.5)), RoundUp2Sig(MaxR(100.0 * base, 5.0)))
  }

  function MaxR(a: real, b: real): real { if a <= b then b else a }

  /** Every generated entry fails at exactly ten times its warning, which is at least ten times and less than 25 times a base that matters. */
  lemma {:induction false} FailIsTenTimesWarn(base: real, median: real)
    ensures var t := ThresholdOf(base, median);
      && t.failMs == 10.0 * t.warnMs && t.warnMs >= 0.5 && t.warnMs >= 10.0 * base
      && (base >= 0.05 ==> t.warnMs < 25.0 * base)
  {
    hide RoundUp2Sig;
    var x := MaxR(10.0 * base, 0.5);
    assert MaxR(100.0 * base, 5.0) == 10.0 * x;
    RoundUpScales(x);
    RoundUpIsLeast(x);
  }

  /** The warning is the least member of the series not below ten bases and half a millisecond; the baseline that of the median. */
  lemma {:induction false} ThresholdsAreLeast(base: real, median: real)
    ensures var t := ThresholdOf(base, median);
      && InSeries(t.warnMs) && t.warnMs >= 10.0 * base && t.warnMs >= 0.5
      && (forall s | InSeries(s) && s >= 10.0 * base && s >= 0.5 :: t.warnMs <= s)
      && (median > 0.0 ==>
            && InSeries(t.baselineMedianMs) && median <= t.baselineMedianMs
            && forall s | InSeries(s) && median <= s :: t.baselineMedianMs <= s)
  {
    hide RoundUp2Sig, InSeries;
    RoundUpIsLeast(MaxR(10.0 * base, 0.5));
    if median > 0.0 {
      RoundUpIsLeast(median);
    }
  }

  // ---- Order statistics ----------------------------------------------------------------------------

  ghost predicate Sorted(s: seq<real>) { forall i, j | 0 <= i < j < |s| :: s[i] <= s[j] }

  function Insert(s: seq<real>, x: real): seq<real> {
    if s == [] || x <= s[0] then [x] + s else [s[0]] + Insert(s[1..], x)
  }

  function Sort(s: seq<real>): seq<real> {
    if s == [] then [] else Insert(Sort(s[1..]), s[0])
  }

  function Sum(s: seq<real>): real {
    if s == [] then 0.0 else Sum(s[..|s| - 1]) + s[|s| - 1]
  }

  function Sq(x: real): real { x * x }

  function SquareSum(s: seq<real>, mean: real): real {
    if s == [] then 0.0 else SquareSum(s[..|s| - 1], mean) + Sq(s[|s| - 1] - mean)
  }

  function Ceil(x: real): int { if x == x.Floor as real then x.Floor else x.Floor + 1 }

  datatype Stats = Stats(samples: nat, minMs: real, maxMs: real, meanMs: real, medianMs: real,
                         p95Ms: Option<real>, p99Ms: Option<real>, variance: real)

  function At(sorted: seq<real>, q: real): real
    requires sorted != [] && 0.0 < q <= 1.0
  {
    RankInRange(|sorted|, q);
    sorted[Min(|sorted| - 1, Ceil(q * |sorted| as real) - 1)]
  }

  lemma {:induction false} RankInRange(n: nat, q: real)
    requires n > 0 && 0.0 < q <= 1.0
    ensures 1 <= Ceil(q * n as real) <= n
    ensures Ceil(q * n as real) as real >= q * n as real > Ceil(q * n as real) as real - 1.0
  {
    assert q * n as real > 0.0;
    assert (1.0 - q) * n as real >= 0.0;
  }

  /** The statistics of the samples; without samples there are none. */
  function ComputeStats(durations: seq<real>): Option<Stats> {
    if durations == [] then None
    else
      var sorted := Sort(durations);
      SortMeans(durations);
      var n := |sorted|;
      var mean := Sum(sorted) / n as real;
      var mid := n / 2;
      Some(Stats(n, sorted[0], sorted[n - 1], mean,
                 if n % 2 == 1 then sorted[mid] else (sorted[mid - 1] + sorted[mid]) / 2.0,
                 if n >= 20 then Some(At(sorted, 0.95)) else None,
                 if n >= 100 then Some(At(sorted, 0.99)) else None,
                 SquareSum(sorted, mean) / n as real))
  }

  lemma {:induction false} InsertKeeps(s: seq<real>, x: real)
    ensures multiset(Insert(s, x)) == multiset(s) + multiset{x} && |Insert(s, x)| == |s| + 1
  {
    if s == [] || x <= s[0] {
      assert multiset([x] + s) == multiset{x} + multiset(s);
    } else {
      InsertKeeps(s[1..], x);
      assert s == [s[0]] + s[1..];
    }
  }

  lemma {:induction false} InsertLower(s: seq<real>, x: real, low: real)
    requires low <= x && forall i | 0 <= i < |s| :: low <= s[i]
    ensures forall i | 0 <= i < |Insert(s, x)| :: low <= Insert(s, x)[i]
  {
    if s != [] && x > s[0] {
      InsertLower(s[1..], x, low);
    }
  }

  lemma {:induction false} InsertSorts(s: seq<real>, x: real)
    requires Sorted(s)
    ensures Sorted(Insert(s, x))
  {
    if s != [] && x > s[0] {
      InsertSorts(s[1..], x);
      InsertLower(s[1..], x, s[0]);
    }
  }

  lemma {:induction false} HeadApart(s: seq<real>)
    requires s != []
    ensures multiset(s) == multiset(s[1..]) + multiset{s[0]}
  {
    assert s == [s[0]] + s[1..];
  }

  lemma {:induction false} SortMeans(s: seq<real>)
    ensures Sorted(Sort(s)) && multiset(Sort(s)) == multiset(s) && |Sort(s)| == |s|
  {
    if s != [] {
      hide Insert, Sorted;
      SortMeans(s[1..]);
      InsertKeeps(Sort(s[1..]), s[0]);
      InsertSorts(Sort(s[1..]), s[0]);
      HeadApart(s);
    } else {
      assert Sorted([]);
    }
  }

  lemma {:induction false} HeadIsLeast(s: seq<real>, x: real)
    requires Sorted(s) && x in multiset(s)
    ensures s != [] && s[0] <= x
  {
    assert x in s;
    var i :| 0 <= i < |s| && s[i] == x;
  }

  lemma {:induction false} SameTails(s: seq<real>, t: seq<real>)
    requires s != [] && t != [] && s[0] == t[0] && multiset(s) == multiset(t)
    ensures multiset(s[1..]) == multiset(t[1..])
  {
    assert s == [s[0]] + s[1..] && t == [t[0]] + t[1..];
    assert multiset(s[1..]) == multiset(s) - multiset{s[0]};
    assert multiset(t[1..]) == multiset(t) - multiset{t[0]};
  }

  lemma {:induction false} SameHeads(s: seq<real>, t: seq<real>)
    requires Sorted(s) && Sorted(t) && multiset(s) == multiset(t) && s != []
    ensures t != [] && s[0] == t[0]
  {
    assert s[0] in multiset(s);
    HeadIsLeast(t, s[0]);
    assert t[0] in multiset(t);
    HeadIsLeast(s, t[0]);
  }

  lemma {:induction false} TailSorted(s: seq<real>)
    requires Sorted(s) && s != []
    ensures Sorted(s[1..])
  {
  }

  /** One multiset has one sorted listing. */
  lemma {:induction false} SortedIsUnique(s: seq<real>, t: seq<real>)
    requires Sorted(s) && Sorted(t) && multiset(s) == multiset(t)
    ensures s == t
  {
    hide Sorted;
    SameLength(s, t);
    if s != [] {
      SameHeads(s, t);
      SameTails(s, t);
      TailSorted(s);
      TailSorted(t);
      SortedIsUnique(s[1..], t[1..]);
      Rejoin(s, t);
    }
  }

  lemma {:induction false} Rejoin(s: seq<real>, t: seq<real>)
    requires s != [] && t != [] && s[0] == t[0] && s[1..] == t[1..]
    ensures s == t
  {
    assert s == [s[0]] + s[1..] && t == [t[0]] + t[1..];
  }

  lemma {:induction false} SameLength(s: seq<real>, t: seq<real>)
    requires multiset(s) == multiset(t)
    ensures |s| == |t|
  {
    assert |multiset(s)| == |s| && |multiset(t)| == |t|;
  }

  /** The order of measurement does not matter. */
  lemma {:induction false} StatsOfMultiset(s: seq<real>, t: seq<real>)
    requires multiset(s) == multiset(t)
    ensures ComputeStats(s) == ComputeStats(t)
  {
    hide Sort, Sum, SquareSum, At, Sorted;
    SortMeans(s);
    SortMeans(t);
    SameLength(s, t);
    SortedIsUnique(Sort(s), Sort(t));
  }

  /** How many samples are at or below `v`. */
  function AtOrBelow(s: seq<real>, v: real): nat {
    if s == [] then 0 else (if s[0] <= v then 1 else 0) + AtOrBelow(s[1..], v)
  }

  lemma {:induction false} AtLeast(s: seq<real>, v: real, k: nat)
    requires k <= |s| && forall i | 0 <= i < k :: s[i] <= v
    ensures AtOrBelow(s, v) >= k
  {
    if k > 0 {
      AtLeast(s[1..], v, k - 1);
    }
  }

  lemma {:induction false} AtMost(s: seq<real>, v: real, k: nat)
    requires k <= |s| && forall i | k <= i < |s| :: s[i] > v
    ensures AtOrBelow(s, v) <= k
  {
    if s != [] {
      AtMost(s[1..], v, if k > 0 then k - 1 else 0);
    }
  }

  /** In sorted samples the k-th is the least that at least k do not exceed. */
  lemma {:induction false} RankIsLeast(sorted: seq<real>, k: nat, w: real)
    requires Sorted(sorted) && 1 <= k <= |sorted|
    ensures AtOrBelow(sorted, sorted[k - 1]) >= k
    ensures AtOrBelow(sorted, w) >= k ==> sorted[k - 1] <= w
  {
    AtLeast(sorted, sorted[k - 1], k);
    if w < sorted[k - 1] {
      AtMost(sorted, w, k - 1);
    }
  }

  lemma {:induction false} AtIs(sorted: seq<real>, q: real)
    requires sorted != [] && 0.0 < q <= 1.0
    ensures var k := Ceil(q * |sorted| as real); 1 <= k <= |sorted| && At(sorted, q) == sorted[k - 1]
  {
    RankInRange(|sorted|, q);
  }

  lemma {:induction false} CeilMeans(x: real, m: int)
    ensures m as real >= x <==> m >= Ceil(x)
  {
  }

  /** The percentile is the least sample that at least the fraction `q` of the samples does not exceed. */
  lemma {:induction false} PercentileIsLeast(sorted: seq<real>, q: real)
    requires Sorted(sorted) && sorted != [] && 0.0 < q <= 1.0
    ensures IsPercentile(sorted, At(sorted, q), q)
  {
    hide AtOrBelow, Sorted, Ceil, At;
    AtIs(sorted, q);
    var x := q * |sorted| as real;
    var k := Ceil(x);
    var v := At(sorted, q);
    assert v == sorted[k - 1];
    RankIsLeast(sorted, k, v);
    CeilMeans(x, AtOrBelow(sorted, v));
    forall w | w in sorted && AtOrBelow(sorted, w) as real >= x ensures v <= w {
      CeilMeans(x, AtOrBelow(sorted, w));
      RankIsLeast(sorted, k, w);
    }
  }

  /** The same, in terms of the samples as they were measured. */
  lemma {:induction false} PercentilesOfSamples(durations: seq<real>)
    requires durations != []
    ensures var st, n := ComputeStats(durations).value, |durations| as real;
      && (st.p95Ms.Some? <==> |durations| >= 20) && (st.p99Ms.Some? <==> |durations| >= 100)
      && (st.p95Ms.Some? ==> IsPercentile(durations, st.p95Ms.value, 0.95))
      && (st.p99Ms.Some? ==> IsPercentile(durations, st.p99Ms.value, 0.99))
  {
    hide At, AtOrBelow, Sort, Sorted, Sum, SquareSum;
    SortMeans(durations);
    var sorted := Sort(durations);
    PercentileIsLeast(sorted, 0.95);
    PercentileIsLeast(sorted, 0.99);
    forall v ensures AtOrBelow(sorted, v) == AtOrBelow(durations, v) {
      SortCount(durations, v);
    }
    forall w ensures w in sorted <==> w in durations {
      assert w in sorted <==> w in multiset(sorted);
    }
  }

  ghost predicate IsPercentile(s: seq<real>, v: real, q: real) {
    && v in s && AtOrBelow(s, v) as real >= q * |s| as real
    && forall w | w in s && AtOrBelow(s, w) as real >= q * |s| as real :: v <= w
  }

  lemma {:induction false} InsertCount(s: seq<real>, x: real, v: real)
    ensures AtOrBelow(Insert(s, x), v) == AtOrBelow(s, v) + if x <= v then 1 else 0
  {
    if s == [] || x <= s[0] {
      assert ([x] + s)[1..] == s;
    } else {
      InsertCount(s[1..], x, v);
      assert ([s[0]] + Insert(s[1..], x))[1..] == Insert(s[1..], x);
    }
  }

  lemma {:induction false} SortCount(s: seq<real>, v: real)
    ensures AtOrBelow(Sort(s), v) == AtOrBelow(s, v)
  {
    if s != [] {
      SortCount(s[1..], v);
      InsertCount(Sort(s[1..]), s[0], v);
    }
  }

  lemma {:induction false} SumsConcat(a: seq<real>, b: seq<real>, mean: real)
    ensures Sum(a + b) == Sum(a) + Sum(b) && SquareSum(a + b, mean) == SquareSum(a, mean) + SquareSum(b, mean)
  {
    if b == [] {
      assert a + b == a;
    } else {
      hide Sq;
      SumsConcat(a, b[..|b| - 1], mean);
      assert (a + b)[..|a + b| - 1] == a + b[..|b| - 1];
    }
  }

  lemma {:induction false} SumsOne(x: real, s: seq<real>, mean: real)
    ensures Sum([x] + s) == x + Sum(s) && SquareSum([x] + s, mean) == Sq(x - mean) + SquareSum(s, mean)
  {
    SumsConcat([x], s, mean);
    assert [x][..0] == [];
  }

  lemma {:induction false} SumsOfInsert(s: seq<real>, x: real, mean: real)
    ensures Sum(Insert(s, x)) == Sum(s) + x && SquareSum(Insert(s, x), mean) == SquareSum(s, mean) + Sq(x - mean)
  {
    hide Sum, SquareSum, Sq;
    if s == [] || x <= s[0] {
      SumsOne(x, s, mean);
    } else {
      SumsOfInsert(s[1..], x, mean);
      SumsOne(s[0], s[1..], mean);
      SumsOne(s[0], Insert(s[1..], x), mean);
      assert s == [s[0]] + s[1..];
    }
  }

  lemma {:induction false} SumsOfSort(s: seq<real>, mean: real)
    ensures Sum(Sort(s)) == Sum(s) && SquareSum(Sort(s), mean) == SquareSum(s, mean)
  {
    if s != [] {
      hide Sum, SquareSum, Sq;
      SumsOfSort(s[1..], mean);
      SumsOfInsert(Sort(s[1..]), s[0], mean);
      SumsOne(s[0], s[1..], mean);
      assert s == [s[0]] + s[1..];
    }
  }

  lemma {:induction false} Quotient(sum: real, n: real)
    requires n > 0.0
    ensures sum / n * n == sum
  {
  }

  lemma {:induction false} ExtremesOfSort(durations: seq<real>)
    requires durations != []
    ensures var s := Sort(durations);
      && |s| == |durations| && s[0] in durations && s[|s| - 1] in durations
      && forall x | x in durations :: s[0] <= x <= s[|s| - 1]
  {
    hide Sort;
    SortMeans(durations);
    var s := Sort(durations);
    forall x ensures x in s <==> x in durations {
      assert x in s <==> x in multiset(s);
      assert x in durations <==> x in multiset(durations);
    }
  }

  /** Count, extremes, mean and variance, in terms of the samples as they were measured. */
  lemma {:induction false} StatsOfSamples(durations: seq<real>)
    requires durations != []
    ensures var st, n := ComputeStats(durations).value, |durations| as real;
      && st.samples == |durations| && st.minMs in durations && st.maxMs in durations
      && (forall x | x in durations :: st.minMs <= x <= st.maxMs)
      && st.meanMs * n == Sum(durations) && st.variance * n == SquareSum(durations, st.meanMs)
  {
    hide Sort, Sum, SquareSum, Sorted, At, ComputeStats;
    ExtremesOfSort(durations);
    var s := Sort(durations);
    var mean := Sum(s) / |s| as real;
    SumsOfSort(durations, mean);
    Quotient(Sum(s), |s| as real);
    Quotient(SquareSum(s, mean), |s| as real);
    StatsAre(durations);
  }

  lemma {:induction false} StatsAre(durations: seq<real>)
    requires durations != []
    ensures |Sort(durations)| == |durations|
    ensures var st, s := ComputeStats(durations).value, Sort(durations);
      && st.samples == |s| && st.minMs == s[0] && st.maxMs == s[|s| - 1] && st.meanMs == Sum(s) / |s| as real
      && st.variance == SquareSum(s, st.meanMs) / |s| as real
  {
    hide Sort, Sum, SquareSum, Sorted, At;
    SortMeans(durations);
  }

  /** The `k`-th least of the samples. */
  ghost predicate IsRanked(s: seq<real>, v: real, k: nat) {
    v in s && AtOrBelow(s, v) >= k && forall w | w in s && AtOrBelow(s, w) >= k :: v <= w
  }

  lemma {:induction false} RankedInSort(durations: seq<real>, k: nat)
    requires 1 <= k <= |durations|
    ensures |Sort(durations)| == |durations| && IsRanked(durations, Sort(durations)[k - 1], k)
  {
    hide AtOrBelow, Sort, Sorted;
    SortMeans(durations);
    var sorted := Sort(durations);
    var v := sorted[k - 1];
    assert v in multiset(sorted);
    RankIsLeast(sorted, k, v);
    SortCount(durations, v);
    forall w | w in durations && AtOrBelow(durations, w) >= k ensures v <= w {
      SortCount(durations, w);
      RankIsLeast(sorted, k, w);
    }
  }

  /** The median is the middle sample, or halfway between the two in the middle. */
  lemma {:induction false} MedianOfSamples(durations: seq<real>) returns (lo: real, hi: real)
    requires durations != []
    ensures var n := |durations|;
      && IsRanked(durations, lo, (n + 1) / 2) && IsRanked(durations, hi, n / 2 + 1)
      && 2.0 * ComputeStats(durations).value.medianMs == lo + hi && (n % 2 == 1 ==> lo == hi)
  {
    hide Sort, Sum, SquareSum, AtOrBelow, IsRanked, At;
    var n := |durations|;
    RankedInSort(durations, (n + 1) / 2);
    RankedInSort(durations, n / 2 + 1);
    lo, hi := Sort(durations)[(n + 1) / 2 - 1], Sort(durations)[n / 2];
  }

  /** The order of the statistics. */
  lemma {:induction false} StatsAreOrdered(durations: seq<real>)
    requires durations != []
    ensures var st := ComputeStats(durations).value;
      && st.minMs <= st.medianMs <= st.maxMs && st.minMs <= st.meanMs <= st.maxMs
      && (st.p95Ms.Some? ==> st.medianMs <= st.p95Ms.value <= st.maxMs)
      && (st.p99Ms.Some? ==> st.p95Ms.Some? && st.p95Ms.value <= st.p99Ms.value <= st.maxMs)
  {
    hide Sort, Sum, SquareSum;
    SortMeans(durations);
    var s := Sort(durations);
    var n := |s|;
    SumBounds(s, s[0], s[n - 1]);
    MeanBounds(Sum(s), n, s[0], s[n - 1]);
    RankInRange(n, 0.95);
    RankInRange(n, 0.99);
    if n >= 20 {
      RankOrder(n);
    }
  }

  lemma {:induction false} RankOrder(n: nat)
    requires n >= 20
    ensures n / 2 <= Ceil(0.95 * n as real) - 1 && Ceil(0.95 * n as real) <= Ceil(0.99 * n as real)
  {
  }

  lemma {:induction false} SumBounds(s: seq<real>, lo: real, hi: real)
    requires forall i | 0 <= i < |s| :: lo <= s[i] <= hi
    ensures lo * |s| as real <= Sum(s) <= hi * |s| as real
  {
    if s != [] {
      SumBounds(s[..|s| - 1], lo, hi);
      assert |s| as real == (|s| - 1) as real + 1.0;
    }
  }

  lemma {:induction false} MeanBounds(sum: real, n: nat, lo: real, hi: real)
    requires n > 0 && lo * n as real <= sum <= hi * n as real
    ensures lo <= sum / n as real <= hi
  {
    Divide(sum, n as real, hi);
    Divide(-sum, n as real, -lo);
    assert (-sum) / n as real == -(sum / n as real);
  }

  function Squares(s: seq<real>): real {
    if s == [] then 0.0 else Squares(s[..|s| - 1]) + Sq(s[|s| - 1])
  }

  lemma {:induction false} SquareSumIs(s: seq<real>, mean: real)
    ensures SquareSum(s, mean) == Spread(Squares(s), Sum(s), |s|, mean)
  {
    if s != [] {
      hide Sum, Squares, Spread, Sq;
      var init, x := s[..|s| - 1], s[|s| - 1];
      SquareSumIs(init, mean);
      SumSnoc(s);
      SpreadStep(Squares(init), Sum(init), |init|, mean, x);
    }
  }

  lemma {:induction false} SumSnoc(s: seq<real>)
    requires s != []
    ensures Sum(s) == Sum(s[..|s| - 1]) + s[|s| - 1]
    ensures Squares(s) == Squares(s[..|s| - 1]) + Sq(s[|s| - 1])
  {
  }

  /** The sum of squared deviations, from the sums of the squares and of the values. */
  function Spread(squares: real, sum: real, n: nat, mean: real): real {
    squares - 2.0 * mean * sum + n as real * mean * mean
  }

  lemma {:induction false} SpreadStep(squares: real, sum: real, n: nat, mean: real, x: real)
    ensures Spread(squares + Sq(x), sum + x, n + 1, mean) == Spread(squares, sum, n, mean) + Sq(x - mean)
  {
    assert (n + 1) as real == n as real + 1.0;
    assert Sq(x - mean) == x * x - 2.0 * mean * x + mean * mean;
    assert 2.0 * mean * (sum + x) == 2.0 * mean * sum + 2.0 * mean * x;
    assert (n as real + 1.0) * mean * mean == n as real * mean * mean + mean * mean;
  }

  lemma {:induction false} Product(a: real, b: real)
    requires (a >= 0.0 && b >= 0.0) || a == b
    ensures a * b >= 0.0
  {
  }

  /** What `n` values between `lo` and `hi` with this sum can have as sum of their squares. */
  function Cap(sum: real, n: nat, lo: real, hi: real): real { (lo + hi) * sum - n as real * lo * hi }

  lemma {:induction false} SquaresBound(s: seq<real>, lo: real, hi: real)
    requires forall i | 0 <= i < |s| :: lo <= s[i] <= hi
    ensures Squares(s) <= Cap(Sum(s), |s|, lo, hi)
  {
    if s != [] {
      hide Sum, Squares, Sq, Cap;
      var init, x := s[..|s| - 1], s[|s| - 1];
      SquaresBound(init, lo, hi);
      SumSnoc(s);
      SquareStep(Sum(init), |init|, x, lo, hi);
    } else {
      assert Sum(s) == 0.0 && Squares(s) == 0.0;
    }
  }

  lemma {:induction false} SquareStep(sum: real, n: nat, x: real, lo: real, hi: real)
    requires lo <= x <= hi
    ensures Cap(sum, n, lo, hi) + Sq(x) <= Cap(sum + x, n + 1, lo, hi)
  {
    assert (n + 1) as real == n as real + 1.0;
    Product(x - lo, hi - x);
    assert (x - lo) * (hi - x) == (lo + hi) * x - lo * hi - x * x;
    assert (lo + hi) * (sum + x) == (lo + hi) * sum + (lo + hi) * x;
    assert (n as real + 1.0) * lo * hi == n as real * lo * hi + lo * hi;
  }

  /** The variance is at most the product of the mean's distances from the extremes. */
  lemma {:induction false} VarianceBound(durations: seq<real>)
    requires durations != []
    ensures var st := ComputeStats(durations).value;
      0.0 <= st.variance <= (st.maxMs - st.meanMs) * (st.meanMs - st.minMs)
  {
    hide Sort, Sum, SquareSum, Squares, Sq;
    SortMeans(durations);
    var s := Sort(durations);
    var n, lo, hi := |s| as real, s[0], s[|s| - 1];
    var mean := Sum(s) / n;
    SquareSumIs(s, mean);
    SquaresBound(s, lo, hi);
    SquareSumPositive(s, mean);
    VarianceAlgebra(SquareSum(s, mean), Squares(s), Sum(s), n, mean, lo, hi);
  }

  lemma {:induction false} SquareSumPositive(s: seq<real>, mean: real)
    ensures SquareSum(s, mean) >= 0.0
  {
    if s != [] {
      SquareSumPositive(s[..|s| - 1], mean);
      Product(s[|s| - 1] - mean, s[|s| - 1] - mean);
    }
  }

  lemma {:induction false} VarianceAlgebra(dev: real, squares: real, sum: real, n: real, mean: real, lo: real, hi: real)
    requires n > 0.0 && mean == sum / n && dev >= 0.0
    requires dev == squares - 2.0 * mean * sum + n * mean * mean
    requires squares <= (lo + hi) * sum - n * lo * hi
    ensures 0.0 <= dev / n <= (hi - mean) * (mean - lo)
  {
    assert sum == n * mean;
    assert mean * sum == n * mean * mean;
    assert (lo + hi) * sum == n * ((lo + hi) * mean);
    assert n * ((hi - mean) * (mean - lo)) == n * ((lo + hi) * mean) - n * (mean * mean) - n * (lo * hi);
    Divide(dev, n, (hi - mean) * (mean - lo));
  }
}
