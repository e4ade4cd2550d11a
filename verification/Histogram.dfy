/** histogramPercentile of analytics-service/internal/promscrape/scraper.go, over the reals. */
module Histogram {

  datatype Bound = Finite(value: real) | Inf

  /** A cumulative bucket: how many samples are at most its bound. */
  datatype Bucket = Bucket(bound: Bound, count: nat)

  predicate Below(a: Bound, b: Bound) {
    a.Finite? && (b.Inf? || a.value < b.value)
  }

  ghost predicate Ascending(buckets: seq<Bucket>) {
    forall i, j :: 0 <= i < j < |buckets| ==> Below(buckets[i].bound, buckets[j].bound)
  }

  predicate Short(b: Bucket, target: real) {
    b.bound.Finite? && b.count as real < target
  }

  /** Bucket k is finite and the first to reach the target. */
  ghost predicate Crosses(buckets: seq<Bucket>, target: real, k: nat) {
    && k < |buckets| && buckets[k].bound.Finite? && buckets[k].count as real >= target
    && forall j :: 0 <= j < k ==> Short(buckets[j], target)
  }

  /** The first bucket from i on that is not short of the target. */
  function FirstAt(buckets: seq<Bucket>, target: real, i: nat): (k: nat)
    requires i <= |buckets|
    ensures i <= k <= |buckets|
    ensures forall j :: i <= j < k ==> Short(buckets[j], target)
    ensures k < |buckets| ==> !Short(buckets[k], target)
    decreases |buckets| - i
  {
    if i < |buckets| && Short(buckets[i], target) then FirstAt(buckets, target, i + 1) else i
  }

  function PrevBound(buckets: seq<Bucket>, k: nat): real
    requires k <= |buckets| && (k > 0 ==> buckets[k - 1].bound.Finite?)
  {
    if k == 0 then 0.0 else buckets[k - 1].bound.value
  }

  function PrevCount(buckets: seq<Bucket>, k: nat): nat
    requires k <= |buckets|
  {
    if k == 0 then 0 else buckets[k - 1].count
  }

  /** How far through bucket k the target is. */
  function Fraction(buckets: seq<Bucket>, target: real, k: nat): real
    requires k < |buckets| && buckets[k].count != PrevCount(buckets, k)
  {
    (target - PrevCount(buckets, k) as real) / (buckets[k].count as real - PrevCount(buckets, k) as real)
  }

  function Part(f: real, d: real): real {
    f * d
  }

  function Lerp(lo: real, hi: real, f: real): real {
    lo + Part(f, hi - lo)
  }

  /** Linear interpolation between the bounds of bucket k. */
  function Interpolate(buckets: seq<Bucket>, target: real, k: nat): real
    requires k < |buckets| && buckets[k].bound.Finite? && (k > 0 ==> buckets[k - 1].bound.Finite?)
  {
    var lo, hi := PrevBound(buckets, k), buckets[k].bound.value;
    if buckets[k].count == PrevCount(buckets, k) then hi else Lerp(lo, hi, Fraction(buckets, target, k))
  }

  /** The last finite bound of the first n buckets, or 0. */
  function LastFinite(buckets: seq<Bucket>, n: nat): real
    requires n <= |buckets|
  {
    if n == 0 then 0.0
    else if buckets[n - 1].bound.Finite? then buckets[n - 1].bound.value
    else LastFinite(buckets, n - 1)
  }

  function AtTarget(buckets: seq<Bucket>, target: real): real {
    var k := FirstAt(buckets, target, 0);
    if k < |buckets| && buckets[k].bound.Finite? then Interpolate(buckets, target, k)
    else LastFinite(buckets, |buckets|)
  }

  function Percentile(buckets: seq<Bucket>, total: nat, q: real): real {
    if buckets == [] || total == 0 then 0.0 else AtTarget(buckets, q * total as real)
  }

  /** Bucket k is finite and reaches the target, and no bucket before it is infinite or does. */
  ghost predicate FirstToReach(buckets: seq<Bucket>, target: real, k: nat) {
    && k < |buckets| && buckets[k].bound.Finite? && buckets[k].count as real >= target
    && forall j :: 0 <= j < k ==> buckets[j].bound.Finite? && (buckets[j].count as real) < target
  }

  /** The bound of bucket k is finite and none after it is. */
  ghost predicate LastFiniteAt(buckets: seq<Bucket>, k: nat) {
    k < |buckets| && buckets[k].bound.Finite? && forall j :: k < j < |buckets| ==> buckets[j].bound.Inf?
  }

  lemma FractionTimes(lo: real, hi: real, part: real, whole: real)
    requires whole != 0.0
    ensures (Lerp(lo, hi, part / whole) - lo) * whole == part * (hi - lo)
  {
    var f := part / whole;
    assert f * whole == part;
    assert (Lerp(lo, hi, f) - lo) * whole == f * (hi - lo) * whole == f * whole * (hi - lo);
  }

  lemma {:induction false} LastFiniteIs(buckets: seq<Bucket>, n: nat, k: nat)
    requires k < n <= |buckets| && buckets[k].bound.Finite? && forall j :: k < j < n ==> buckets[j].bound.Inf?
    ensures LastFinite(buckets, n) == buckets[k].bound.value
  {
    if k < n - 1 {
      LastFiniteIs(buckets, n - 1, k);
    }
  }

  lemma {:induction false} NoneFinite(buckets: seq<Bucket>, n: nat)
    requires n <= |buckets| && forall j :: 0 <= j < n ==> buckets[j].bound.Inf?
    ensures LastFinite(buckets, n) == 0.0
  {
    if n > 0 {
      NoneFinite(buckets, n - 1);
    }
  }

  /** In the first bucket that reaches the target the estimate divides the way from the bound before, or from 0, to the
      bucket's own bound as the target divides the counts; a bucket without samples gives its bound. */
  lemma PercentileIsLinear(buckets: seq<Bucket>, total: nat, q: real, target: real, k: nat)
    requires total > 0 && target == q * total as real && FirstToReach(buckets, target, k)
    ensures var r := Percentile(buckets, total, q);
            var lo, hi := if k == 0 then 0.0 else buckets[k - 1].bound.value, buckets[k].bound.value;
            var below, reached := if k == 0 then 0 else buckets[k - 1].count, buckets[k].count;
            if reached == below then r == hi
            else (r - lo) * (reached as real - below as real) == (target - below as real) * (hi - lo)
  {
    var i := FirstAt(buckets, target, 0);
    assert i < k ==> Short(buckets[i], target);
    assert k < i ==> Short(buckets[k], target);
    var lo, hi, below := PrevBound(buckets, k), buckets[k].bound.value, PrevCount(buckets, k);
    if buckets[k].count != below {
      FractionTimes(lo, hi, target - below as real, buckets[k].count as real - below as real);
    }
  }

  /** If no bucket reaches the target it is the last finite bound, or 0 where there is none. */
  lemma PercentileIsLastBound(buckets: seq<Bucket>, total: nat, q: real, target: real, k: nat)
    requires total > 0 && target == q * total as real && forall i: nat :: !FirstToReach(buckets, target, i)
    ensures LastFiniteAt(buckets, k) ==> Percentile(buckets, total, q) == buckets[k].bound.value
    ensures (forall j :: 0 <= j < |buckets| ==> buckets[j].bound.Inf?) ==> Percentile(buckets, total, q) == 0.0
  {
    var i := FirstAt(buckets, target, 0);
    assert !FirstToReach(buckets, target, i);
    if LastFiniteAt(buckets, k) {
      LastFiniteIs(buckets, |buckets|, k);
    }
    if forall j :: 0 <= j < |buckets| ==> buckets[j].bound.Inf? {
      NoneFinite(buckets, |buckets|);
    }
  }

  /** The two scans.  The source divides before it tests for an empty bucket and then drops the quotient;
      here the test comes first. */
  method HistogramPercentile(buckets: seq<Bucket>, total: nat, q: real) returns (r: real)
    ensures r == Percentile(buckets, total, q)
    ensures buckets == [] || total == 0 ==> r == 0.0
  {
    if |buckets| == 0 || total == 0 {
      return 0.0;
    }
    var target := q * total as real;
    var prevBound, prevCount := 0.0, 0;
    var i := 0;
    while i < |buckets| && buckets[i].bound.Finite?
      invariant i <= |buckets|
      invariant forall j :: 0 <= j < i ==> Short(buckets[j], target)
      invariant FirstAt(buckets, target, 0) == FirstAt(buckets, target, i)
      invariant prevBound == PrevBound(buckets, i) && prevCount == PrevCount(buckets, i)
    {
      var b := buckets[i];
      if b.count as real >= target {
        if b.count == prevCount {
          return b.bound.value;
        }
        var fraction := (target - prevCount as real) / (b.count as real - prevCount as real);
        return prevBound + fraction * (b.bound.value - prevBound);
      }
      prevBound, prevCount := b.bound.value, b.count;
      i := i + 1;
    }
    var n := |buckets|;
    while n > 0
      invariant 0 <= n <= |buckets|
      invariant LastFinite(buckets, |buckets|) == LastFinite(buckets, n)
    {
      if buckets[n - 1].bound.Finite? {
        return buckets[n - 1].bound.value;
      }
      n := n - 1;
    }
    return 0.0;
  }

  // ------------------------------------------------------------ No division by zero

  /** A quantile in use, of a histogram that saw something. */
  predicate Asked(total: nat, q: real) {
    0.0 < q <= 1.0 && total > 0
  }

  lemma TargetInRange(total: nat, q: real)
    requires Asked(total, q)
    ensures 0.0 < q * total as real <= total as real
  {
    var t := total as real;
    assert t >= 1.0;
    assert q * t > 0.0;
    assert (1.0 - q) * t >= 0.0;
  }

  lemma FractionOf(x: real, y: real)
    requires 0.0 < x <= y
    ensures 0.0 < x / y <= 1.0
  {
    assert x / y * y == x;
  }

  /** The bucket that is interpolated is never empty, so the divisor is positive and the fraction lies in (0, 1]. */
  lemma NeverDividesByZero(buckets: seq<Bucket>, target: real, k: nat)
    requires target > 0.0 && Crosses(buckets, target, k)
    ensures buckets[k].count > PrevCount(buckets, k)
    ensures 0.0 < Fraction(buckets, target, k) <= 1.0
  {
    if k > 0 {
      assert Short(buckets[k - 1], target);
    }
    FractionOf(target - PrevCount(buckets, k) as real, buckets[k].count as real - PrevCount(buckets, k) as real);
  }

  /** Ascending bounds of which the first is not negative, or has no samples: the scan starts from bound 0. */
  ghost predicate RisesFromZero(buckets: seq<Bucket>) {
    && Ascending(buckets)
    && (buckets != [] && buckets[0].bound.Finite? ==> buckets[0].bound.value >= 0.0 || buckets[0].count == 0)
  }

  lemma Positive(x: real, y: real)
    requires x >= 0.0 && y >= 0.0
    ensures x * y >= 0.0 && (x > 0.0 && y > 0.0 ==> x * y > 0.0)
  {
  }

  lemma PartOf(d: real, f: real)
    requires d >= 0.0 && 0.0 < f <= 1.0
    ensures 0.0 <= Part(f, d) <= d && (d > 0.0 ==> Part(f, d) > 0.0)
  {
    Positive(f, d);
    Positive(1.0 - f, d);
    assert (1.0 - f) * d == d - f * d;
  }

  lemma Between(lo: real, hi: real, f: real)
    requires lo <= hi && 0.0 < f <= 1.0
    ensures lo <= Lerp(lo, hi, f) <= hi && (lo < hi ==> lo < Lerp(lo, hi, f))
  {
    PartOf(hi - lo, f);
  }

  lemma BoundsAround(buckets: seq<Bucket>, k: nat)
    requires RisesFromZero(buckets) && k < |buckets| && buckets[k].bound.Finite?
    requires buckets[k].count > PrevCount(buckets, k)
    ensures k > 0 ==> buckets[k - 1].bound.Finite? && buckets[k - 1].bound.value < buckets[k].bound.value
    ensures PrevBound(buckets, k) <= buckets[k].bound.value
  {
    if k > 0 {
      assert Below(buckets[k - 1].bound, buckets[k].bound);
    }
  }

  lemma CrossingIsFirst(buckets: seq<Bucket>, target: real, k: nat)
    requires Crosses(buckets, target, k)
    ensures FirstAt(buckets, target, 0) == k
  {
    var j := FirstAt(buckets, target, 0);
    assert j < |buckets| && !Short(buckets[j], target);
  }

  lemma InBucket(buckets: seq<Bucket>, target: real, k: nat)
    requires target > 0.0 && RisesFromZero(buckets) && Crosses(buckets, target, k)
    ensures k > 0 ==> buckets[k - 1].bound.Finite? && buckets[k - 1].bound.value < AtTarget(buckets, target)
    ensures PrevBound(buckets, k) <= AtTarget(buckets, target) <= buckets[k].bound.value
  {
    NeverDividesByZero(buckets, target, k);
    BoundsAround(buckets, k);
    CrossingIsFirst(buckets, target, k);
    Between(PrevBound(buckets, k), buckets[k].bound.value, Fraction(buckets, target, k));
  }

  /** The result lies in the bucket that crosses: (previous bound, bound], or from 0 to the first bound. */
  lemma ResultInBucket(buckets: seq<Bucket>, total: nat, q: real, k: nat)
    requires Asked(total, q) && RisesFromZero(buckets) && Crosses(buckets, q * total as real, k)
    ensures k > 0 ==> buckets[k - 1].bound.Finite? && buckets[k - 1].bound.value < Percentile(buckets, total, q)
    ensures PrevBound(buckets, k) <= Percentile(buckets, total, q) <= buckets[k].bound.value
  {
    TargetInRange(total, q);
    InBucket(buckets, q * total as real, k);
  }

  // ------------------------------------------------------------ Monotone in q

  lemma {:induction false} LastFiniteIsLargest(buckets: seq<Bucket>, n: nat, i: nat)
    requires Ascending(buckets) && i < n <= |buckets| && buckets[i].bound.Finite?
    ensures buckets[i].bound.value <= LastFinite(buckets, n)
  {
    if buckets[n - 1].bound.Finite? {
      if i < n - 1 {
        assert Below(buckets[i].bound, buckets[n - 1].bound);
      }
    } else {
      LastFiniteIsLargest(buckets, n - 1, i);
    }
  }

  lemma FirstAtGrows(buckets: seq<Bucket>, s: real, t: real)
    requires s <= t
    ensures FirstAt(buckets, s, 0) <= FirstAt(buckets, t, 0)
  {
    var j, k := FirstAt(buckets, s, 0), FirstAt(buckets, t, 0);
    assert k < j ==> Short(buckets[k], s);
  }

  lemma QuotientGrows(x: real, y: real, d: real)
    requires x <= y && d > 0.0
    ensures x / d <= y / d
  {
    assert y / d - x / d == (y - x) / d;
  }

  lemma LerpGrows(lo: real, hi: real, f: real, g: real)
    requires f <= g && lo <= hi
    ensures Lerp(lo, hi, f) <= Lerp(lo, hi, g)
  {
    Positive(g - f, hi - lo);
  }

  /** Two targets in the same bucket. */
  lemma MonotoneInside(buckets: seq<Bucket>, s: real, t: real, k: nat)
    requires 0.0 < s <= t && RisesFromZero(buckets) && Crosses(buckets, s, k) && Crosses(buckets, t, k)
    ensures AtTarget(buckets, s) <= AtTarget(buckets, t)
  {
    NeverDividesByZero(buckets, s, k);
    BoundsAround(buckets, k);
    CrossingIsFirst(buckets, s, k);
    CrossingIsFirst(buckets, t, k);
    var d := buckets[k].count as real - PrevCount(buckets, k) as real;
    QuotientGrows(s - PrevCount(buckets, k) as real, t - PrevCount(buckets, k) as real, d);
    LerpGrows(PrevBound(buckets, k), buckets[k].bound.value, Fraction(buckets, s, k), Fraction(buckets, t, k));
  }

  lemma MonotoneInTarget(buckets: seq<Bucket>, s: real, t: real)
    requires 0.0 < s <= t && RisesFromZero(buckets)
    ensures AtTarget(buckets, s) <= AtTarget(buckets, t)
  {
    FirstAtGrows(buckets, s, t);
    var j, k := FirstAt(buckets, s, 0), FirstAt(buckets, t, 0);
    if j < |buckets| && buckets[j].bound.Finite? {
      InBucket(buckets, s, j);
      if k < |buckets| && buckets[k].bound.Finite? {
        InBucket(buckets, t, k);
        if j == k {
          MonotoneInside(buckets, s, t, k);
        } else if j < k - 1 {
          assert Below(buckets[j].bound, buckets[k - 1].bound);
        }
      } else {
        LastFiniteIsLargest(buckets, |buckets|, j);
      }
    } else if j < |buckets| {
      assert !Short(buckets[j], t);
    }
  }

  /** A larger quantile never gets a smaller answer.  Counts need not even be cumulative. */
  lemma MonotoneInQ(buckets: seq<Bucket>, total: nat, p: real, q: real)
    requires Asked(total, p) && Asked(total, q) && p <= q && RisesFromZero(buckets)
    ensures Percentile(buckets, total, p) <= Percentile(buckets, total, q)
  {
    TargetInRange(total, p);
    Positive(q - p, total as real);
    MonotoneInTarget(buckets, p * total as real, q * total as real);
  }

  lemma InFirstBucket(buckets: seq<Bucket>, target: real)
    requires buckets != [] && buckets[0].bound.Finite? && buckets[0].count > 0 && target <= buckets[0].count as real
    ensures AtTarget(buckets, target) * buckets[0].count as real == target * buckets[0].bound.value
  {
    assert FirstAt(buckets, target, 0) == 0;
    var c := buckets[0].count as real;
    assert AtTarget(buckets, target) == target / c * buckets[0].bound.value;
    assert target / c * c == target;
  }

  lemma FallsStrictly(x: real, y: real, s: real, t: real, c: real, b: real)
    requires s < t && c > 0.0 && b < 0.0 && x * c == s * b && y * c == t * b
    ensures x > y
  {
    Positive(t - s, -b);
    if x <= y {
      Positive(y - x, c);
    }
  }

  /** In a first bucket with samples and a negative bound the estimate falls from 0 towards the bound. */
  lemma TargetsFall(buckets: seq<Bucket>, s: real, t: real)
    requires Ascending(buckets) && !RisesFromZero(buckets) && 0.0 < s < t <= 1.0
    ensures AtTarget(buckets, s) > AtTarget(buckets, t)
  {
    InFirstBucket(buckets, s);
    InFirstBucket(buckets, t);
    FallsStrictly(AtTarget(buckets, s), AtTarget(buckets, t), s, t, buckets[0].count as real, buckets[0].bound.value);
  }

  lemma QuotientTimes(x: real, y: real)
    requires y > 0.0
    ensures x / y * y == x
  {
  }

  lemma QuantileFor(total: nat, target: real) returns (q: real)
    requires total > 0 && 0.0 < target <= 1.0
    ensures Asked(total, q) && q * total as real == target
  {
    q := target / total as real;
    FractionOf(target, total as real);
    QuotientTimes(target, total as real);
  }

  lemma NegativeBoundFalls(buckets: seq<Bucket>, total: nat) returns (p: real, q: real)
    requires Ascending(buckets) && total > 0 && !RisesFromZero(buckets)
    ensures Asked(total, p) && Asked(total, q) && p <= q
    ensures Percentile(buckets, total, p) > Percentile(buckets, total, q)
  {
    TargetsFall(buckets, 0.5, 1.0);
    p := QuantileFor(total, 0.5);
    q := QuantileFor(total, 1.0);
    if p > q {
      Positive(p - q, total as real);
    }
  }

  /** For ascending bounds a larger quantile never gets a smaller answer exactly if the scan's start at bound 0 suits
      the first bucket. */
  lemma MonotoneIff(buckets: seq<Bucket>, total: nat)
    requires Ascending(buckets) && total > 0
    ensures (forall p, q :: Asked(total, p) && Asked(total, q) && p <= q ==>
               Percentile(buckets, total, p) <= Percentile(buckets, total, q))
            <==> RisesFromZero(buckets)
  {
    if RisesFromZero(buckets) {
      forall p, q | Asked(total, p) && Asked(total, q) && p <= q
        ensures Percentile(buckets, total, p) <= Percentile(buckets, total, q)
      {
        MonotoneInQ(buckets, total, p, q);
      }
    } else {
      var p, q := NegativeBoundFalls(buckets, total);
    }
  }

  // ------------------------------------------------------------ The samples behind the buckets

  function CountLe(samples: seq<real>, x: real): nat {
    if samples == [] then 0
    else CountLe(samples[..|samples| - 1], x) + if samples[|samples| - 1] <= x then 1 else 0
  }

  function CountLt(samples: seq<real>, x: real): nat {
    if samples == [] then 0
    else CountLt(samples[..|samples| - 1], x) + if samples[|samples| - 1] < x then 1 else 0
  }

  /** x is the r-th smallest sample. */
  predicate IsRanked(samples: seq<real>, r: int, x: real) {
    x in samples && CountLt(samples, x) < r <= CountLe(samples, x)
  }

  function CountIn(samples: seq<real>, b: Bound): nat {
    if b.Inf? then |samples| else CountLe(samples, b.value)
  }

  /** The buckets a histogram with these bounds shows after these samples. */
  function Observe(bounds: seq<Bound>, samples: seq<real>): seq<Bucket> {
    seq(|bounds|, i requires 0 <= i < |bounds| => Bucket(bounds[i], CountIn(samples, bounds[i])))
  }

  /** The rank of the sample asked for: the target rounded up. */
  function Ceiling(t: real): int {
    if t.Floor as real == t then t.Floor else t.Floor + 1
  }

  lemma RankRoundsUp(t: real, c: nat)
    ensures c as real >= t <==> c >= Ceiling(t)
  {
    assert t.Floor as real <= t < t.Floor as real + 1.0;
  }

  lemma {:induction false} CountsGrow(samples: seq<real>, x: real, y: real)
    ensures x <= y ==> CountLe(samples, x) <= CountLe(samples, y)
    ensures x < y ==> CountLe(samples, x) <= CountLt(samples, y)
    ensures CountLt(samples, x) <= CountLe(samples, x) <= |samples|
  {
    if samples != [] {
      CountsGrow(samples[..|samples| - 1], x, y);
    }
  }

  /** A finite bucket reaches the target exactly when it holds the true sample. */
  lemma BucketHoldsSample(bounds: seq<Bound>, samples: seq<real>, target: real, x: real, i: nat)
    requires IsRanked(samples, Ceiling(target), x) && i < |bounds| && bounds[i].Finite?
    ensures x <= bounds[i].value <==> Observe(bounds, samples)[i].count as real >= target
  {
    RankRoundsUp(target, Observe(bounds, samples)[i].count);
    CountsGrow(samples, x, bounds[i].value);
    CountsGrow(samples, bounds[i].value, x);
  }

  /** The bucket the estimate comes from is the one the true sample is in. */
  lemma TrueSampleInBucket(bounds: seq<Bound>, samples: seq<real>, target: real, x: real, k: nat)
    requires IsRanked(samples, Ceiling(target), x) && Crosses(Observe(bounds, samples), target, k)
    ensures x <= bounds[k].value
    ensures k > 0 ==> bounds[k - 1].Finite? && bounds[k - 1].value < x
  {
    BucketHoldsSample(bounds, samples, target, x, k);
    if k > 0 {
      assert Short(Observe(bounds, samples)[k - 1], target);
      BucketHoldsSample(bounds, samples, target, x, k - 1);
    }
  }

  /** Some bucket crosses exactly when some finite bucket holds the true sample. */
  lemma SomeBucketCrosses(bounds: seq<Bound>, samples: seq<real>, target: real, x: real, i: nat)
    requires IsRanked(samples, Ceiling(target), x) && Ascending(Observe(bounds, samples))
    requires i < |bounds| && bounds[i].Finite? && x <= bounds[i].value
    ensures Crosses(Observe(bounds, samples), target, FirstAt(Observe(bounds, samples), target, 0))
  {
    var buckets := Observe(bounds, samples);
    BucketHoldsSample(bounds, samples, target, x, i);
    var k := FirstAt(buckets, target, 0);
    assert i < k ==> Short(buckets[i], target);
    if k < i {
      assert Below(buckets[k].bound, buckets[i].bound);
    }
  }

  lemma {:induction false} RankedExists(samples: seq<real>, r: nat)
    requires 1 <= r <= |samples|
    ensures exists x :: IsRanked(samples, r, x)
  {
    var n := |samples| - 1;
    var last, rest := samples[n], samples[..n];
    assert samples == rest + [last];
    CountsGrow(samples, last, last);
    if IsRanked(samples, r, last) {
    } else if r <= CountLt(samples, last) {
      CountsGrow(rest, last, last);
      RankedExists(rest, r);
      var x :| IsRanked(rest, r, x);
      CountsGrow(rest, last, x);
      assert IsRanked(samples, r, x);
    } else {
      CountsGrow(rest, last, last);
      RankedExists(rest, r - 1);
      var x :| IsRanked(rest, r - 1, x);
      CountsGrow(rest, x, last);
      assert IsRanked(samples, r, x);
    }
  }

  lemma SharedBucket(bounds: seq<Bound>, samples: seq<real>, target: real, x: real, i: nat) returns (k: nat)
    requires target > 0.0 && RisesFromZero(Observe(bounds, samples))
    requires IsRanked(samples, Ceiling(target), x)
    requires i < |bounds| && bounds[i].Finite? && x <= bounds[i].value
    ensures k <= i && InShared(bounds, k, x) && InShared(bounds, k, AtTarget(Observe(bounds, samples), target))
  {
    var buckets := Observe(bounds, samples);
    SomeBucketCrosses(bounds, samples, target, x, i);
    k := FirstAt(buckets, target, 0);
    TrueSampleInBucket(bounds, samples, target, x, k);
    InBucket(buckets, target, k);
    BucketHoldsSample(bounds, samples, target, x, i);
    assert i < k ==> Short(buckets[i], target);
  }

  /** y is in bucket k; the first bucket is open below. */
  predicate InShared(bounds: seq<Bound>, k: int, y: real) {
    && 0 <= k < |bounds| && bounds[k].Finite? && y <= bounds[k].value
    && (k > 0 ==> bounds[k - 1].Finite? && bounds[k - 1].value < y)
  }

  /** x is the true q-quantile: the sample of rank ceil(q * total). */
  predicate IsQuantile(samples: seq<real>, q: real, x: real) {
    IsRanked(samples, Ceiling(q * |samples| as real), x)
  }

  /** The estimate and the true quantile share a bucket whenever a finite bucket holds the true one. */
  lemma EstimateSharesBucket(bounds: seq<Bound>, samples: seq<real>, q: real, x: real, i: nat)
    requires Asked(|samples|, q) && RisesFromZero(Observe(bounds, samples)) && IsQuantile(samples, q, x)
    requires i < |bounds| && bounds[i].Finite? && x <= bounds[i].value
    ensures exists k ::
              InShared(bounds, k, x) && InShared(bounds, k, Percentile(Observe(bounds, samples), |samples|, q))
  {
    TargetInRange(|samples|, q);
    var k := SharedBucket(bounds, samples, q * |samples| as real, x, i);
  }

  lemma RankInRange(t: real, n: nat)
    requires 0.0 < t <= n as real
    ensures 1 <= Ceiling(t) <= n
  {
    RankRoundsUp(t, n);
    RankRoundsUp(t, 0);
  }

  /** The true quantile exists. */
  lemma TrueQuantileExists(samples: seq<real>, q: real)
    requires Asked(|samples|, q)
    ensures exists x :: IsQuantile(samples, q, x)
  {
    TargetInRange(|samples|, q);
    var t := q * |samples| as real;
    RankInRange(t, |samples|);
    RankedExists(samples, Ceiling(t));
    var x :| IsRanked(samples, Ceiling(t), x);
    assert IsQuantile(samples, q, x);
  }

  /** When the true quantile is past every finite bound, the estimate is the last finite bound. */
  lemma EstimateIsClamped(bounds: seq<Bound>, samples: seq<real>, q: real, x: real)
    requires Asked(|samples|, q) && bounds != [] && IsQuantile(samples, q, x)
    requires forall i :: 0 <= i < |bounds| && bounds[i].Finite? ==> bounds[i].value < x
    ensures Percentile(Observe(bounds, samples), |samples|, q) == LastFinite(Observe(bounds, samples), |bounds|)
  {
    var buckets, target := Observe(bounds, samples), q * |samples| as real;
    var k := FirstAt(buckets, target, 0);
    if k < |buckets| && buckets[k].bound.Finite? {
      BucketHoldsSample(bounds, samples, target, x, k);
    }
  }
}
