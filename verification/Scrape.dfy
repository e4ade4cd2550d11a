/** Merging scraped series: ParseHTTPHistogram and AggregateHTTP of
    analytics-service/internal/promscrape/scraper.go. */
module Scrape {
  import opened Histogram

  type Counts = map<Bound, nat>

  function At(m: Counts, b: Bound): nat {
    if b in m then m[b] else 0
  }

  /** The counts of every bucket with this bound, summed. */
  function SumAt(buckets: seq<Bucket>, b: Bound): nat {
    if buckets == [] then 0
    else
      var last := buckets[|buckets| - 1];
      SumAt(buckets[..|buckets| - 1], b) + if last.bound == b then last.count else 0
  }

  ghost predicate Has(buckets: seq<Bucket>, b: Bound) {
    exists i :: 0 <= i < |buckets| && buckets[i].bound == b
  }

  /** m holds the sums of these buckets. */
  ghost predicate Sums(m: Counts, buckets: seq<Bucket>) {
    forall b :: (b in m <==> Has(buckets, b)) && At(m, b) == SumAt(buckets, b)
  }

  lemma SumsSnoc(m: Counts, buckets: seq<Bucket>, x: Bucket)
    requires Sums(m, buckets)
    ensures Sums(m[x.bound := At(m, x.bound) + x.count], buckets + [x])
  {
    var all := buckets + [x];
    assert all[..|buckets|] == buckets;
    forall b
      ensures Has(all, b) <==> Has(buckets, b) || b == x.bound
    {
      assert all[|buckets|] == x;
      if Has(buckets, b) {
        var i :| 0 <= i < |buckets| && buckets[i].bound == b;
        assert all[i].bound == b;
      }
    }
  }

  /** bucketMap[b.UpperBound] += b.Count, over one series. */
  method AddBuckets(start: Counts, ghost before: seq<Bucket>, buckets: seq<Bucket>) returns (m: Counts)
    requires Sums(start, before)
    ensures Sums(m, before + buckets)
  {
    m := start;
    assert before + buckets[..0] == before;
    for i := 0 to |buckets|
      invariant Sums(m, before + buckets[..i])
    {
      SumsSnoc(m, before + buckets[..i], buckets[i]);
      assert before + buckets[..i + 1] == before + buckets[..i] + [buckets[i]];
      m := m[buckets[i].bound := At(m, buckets[i].bound) + buckets[i].count];
    }
    assert buckets[..|buckets|] == buckets;
  }

  /** The buckets that hold exactly the map's entries. */
  ghost predicate Lists(buckets: seq<Bucket>, m: Counts) {
    && (forall i :: 0 <= i < |buckets| ==> buckets[i].bound in m && m[buckets[i].bound] == buckets[i].count)
    && (forall b :: b in m ==> Has(buckets, b))
  }

  lemma BoundsComparable(a: Bound, b: Bound)
    ensures a == b || Below(a, b) || Below(b, a)
  {
  }

  /** Copy the map out in any order, keeping the copy sorted by bound. */
  method SortedBuckets(m: Counts) returns (sorted: seq<Bucket>)
    ensures Ascending(sorted) && Lists(sorted, m)
  {
    sorted := [];
    var left := m.Keys;
    while left != {}
      invariant left <= m.Keys
      invariant Ascending(sorted)
      invariant forall i :: 0 <= i < |sorted| ==>
                  sorted[i].bound in m && sorted[i].bound !in left && m[sorted[i].bound] == sorted[i].count
      invariant forall b :: b in m && b !in left ==> Has(sorted, b)
      decreases |left|
    {
      var b :| b in left;
      var x := Bucket(b, m[b]);
      var i := 0;
      while i < |sorted| && Below(sorted[i].bound, b)
        invariant i <= |sorted|
        invariant forall j :: 0 <= j < i ==> Below(sorted[j].bound, b)
      {
        i := i + 1;
      }
      InsertKeepsOrder(sorted, i, x);
      InsertHas(sorted, i, x);
      sorted := sorted[..i] + [x] + sorted[i..];
      left := left - {b};
    }
  }

  lemma InsertKeepsOrder(sorted: seq<Bucket>, i: nat, x: Bucket)
    requires Ascending(sorted) && i <= |sorted|
    requires forall j :: 0 <= j < i ==> Below(sorted[j].bound, x.bound)
    requires i < |sorted| ==> !Below(sorted[i].bound, x.bound) && sorted[i].bound != x.bound
    ensures Ascending(sorted[..i] + [x] + sorted[i..])
  {
    if i < |sorted| {
      BoundsComparable(sorted[i].bound, x.bound);
    }
    var all := sorted[..i] + [x] + sorted[i..];
    forall a, b | 0 <= a < b < |all|
      ensures Below(all[a].bound, all[b].bound)
    {
      if b > i && a == i && b > i + 1 {
        assert Below(sorted[i].bound, sorted[b - 1].bound);
      }
    }
  }

  lemma InsertHas(sorted: seq<Bucket>, i: nat, x: Bucket)
    requires i <= |sorted|
    ensures forall b :: Has(sorted, b) || b == x.bound ==> Has(sorted[..i] + [x] + sorted[i..], b)
  {
    var all := sorted[..i] + [x] + sorted[i..];
    assert all[i] == x;
    forall b | Has(sorted, b)
      ensures Has(all, b)
    {
      var j :| 0 <= j < |sorted| && sorted[j].bound == b;
      assert all[if j < i then j else j + 1].bound == b;
    }
  }

  /** A map has one ascending listing. */
  lemma {:induction false} ListingIsUnique(xs: seq<Bucket>, ys: seq<Bucket>, m: Counts)
    requires Ascending(xs) && Ascending(ys) && Lists(xs, m) && Lists(ys, m)
    ensures xs == ys
  {
    if xs == [] {
      assert forall b :: !Has(xs, b);
    } else {
      assert Has(ys, xs[0].bound);
      assert Has(xs, ys[0].bound);
      assert xs[0] == ys[0];
      var m' := m - {xs[0].bound};
      TailLists(xs, m);
      TailLists(ys, m);
      ListingIsUnique(xs[1..], ys[1..], m');
      assert xs == [xs[0]] + xs[1..] && ys == [ys[0]] + ys[1..];
    }
  }

  lemma TailLists(xs: seq<Bucket>, m: Counts)
    requires xs != [] && Ascending(xs) && Lists(xs, m)
    ensures Ascending(xs[1..]) && Lists(xs[1..], m - {xs[0].bound})
  {
    forall b | b in m && b != xs[0].bound
      ensures Has(xs[1..], b)
    {
      var i :| 0 <= i < |xs| && xs[i].bound == b;
      assert xs[1..][i - 1].bound == b;
    }
    forall i | 0 <= i < |xs[1..]|
      ensures xs[1..][i].bound != xs[0].bound
    {
      assert Below(xs[0].bound, xs[i + 1].bound);
    }
  }

  // ------------------------------------------------------------ Merged series are pooled samples

  function Flatten<T>(xss: seq<seq<T>>): seq<T> {
    if xss == [] then [] else Flatten(xss[..|xss| - 1]) + xss[|xss| - 1]
  }

  ghost predicate Ordered(bounds: seq<Bound>) {
    forall i, j :: 0 <= i < j < |bounds| ==> Below(bounds[i], bounds[j])
  }

  /** What each of several histograms with the same bounds shows. */
  function ObserveAll(bounds: seq<Bound>, groups: seq<seq<real>>): seq<seq<Bucket>> {
    seq(|groups|, i requires 0 <= i < |groups| => Observe(bounds, groups[i]))
  }

  lemma {:induction false} CountsAdd(s: seq<real>, t: seq<real>, b: Bound)
    ensures CountIn(s + t, b) == CountIn(s, b) + CountIn(t, b)
  {
    if t == [] {
      assert s + t == s;
    } else {
      CountsAdd(s, t[..|t| - 1], b);
      assert (s + t)[..|s + t| - 1] == s + t[..|t| - 1];
    }
  }

  lemma {:induction false} SumsAdd(xs: seq<Bucket>, ys: seq<Bucket>, b: Bound)
    ensures SumAt(xs + ys, b) == SumAt(xs, b) + SumAt(ys, b)
  {
    if ys == [] {
      assert xs + ys == xs;
    } else {
      SumsAdd(xs, ys[..|ys| - 1], b);
      assert (xs + ys)[..|xs + ys| - 1] == xs + ys[..|ys| - 1];
    }
  }

  lemma {:induction false} SumOfDistinct(buckets: seq<Bucket>, i: nat)
    requires Ascending(buckets) && i < |buckets|
    ensures SumAt(buckets, buckets[i].bound) == buckets[i].count
  {
    var n := |buckets| - 1;
    if i < n {
      assert Below(buckets[i].bound, buckets[n].bound);
      SumOfDistinct(buckets[..n], i);
    } else {
      SumOfAbsent(buckets[..n], buckets[n].bound);
    }
  }

  lemma {:induction false} SumOfAbsent(buckets: seq<Bucket>, b: Bound)
    requires forall i :: 0 <= i < |buckets| ==> buckets[i].bound != b
    ensures SumAt(buckets, b) == 0
  {
    if buckets != [] {
      SumOfAbsent(buckets[..|buckets| - 1], b);
    }
  }

  lemma {:induction false} PooledCount(bounds: seq<Bound>, groups: seq<seq<real>>, i: nat)
    requires i < |bounds| && Ordered(bounds)
    ensures SumAt(Flatten(ObserveAll(bounds, groups)), bounds[i]) == CountIn(Flatten(groups), bounds[i])
  {
    if groups != [] {
      var n := |groups| - 1;
      PooledCount(bounds, groups[..n], i);
      assert ObserveAll(bounds, groups)[..n] == ObserveAll(bounds, groups[..n]);
      SumsAdd(Flatten(ObserveAll(bounds, groups[..n])), Observe(bounds, groups[n]), bounds[i]);
      CountsAdd(Flatten(groups[..n]), groups[n], bounds[i]);
      SumOfDistinct(Observe(bounds, groups[n]), i);
    }
  }

  lemma {:induction false} FlattenHas(bounds: seq<Bound>, groups: seq<seq<real>>, b: Bound)
    ensures Has(Flatten(ObserveAll(bounds, groups)), b) <==> groups != [] && b in bounds
  {
    if groups != [] {
      var n := |groups| - 1;
      FlattenHas(bounds, groups[..n], b);
      var xs, ys := Flatten(ObserveAll(bounds, groups[..n])), Observe(bounds, groups[n]);
      assert ObserveAll(bounds, groups)[..n] == ObserveAll(bounds, groups[..n]);
      assert Flatten(ObserveAll(bounds, groups)) == xs + ys;
      assert Has(ys, b) <==> b in bounds by {
        if b in bounds {
          var i :| 0 <= i < |bounds| && bounds[i] == b;
          assert ys[i].bound == b;
        }
      }
      HasAppend(xs, ys, b);
    }
  }

  lemma HasAppend(xs: seq<Bucket>, ys: seq<Bucket>, b: Bound)
    ensures Has(xs + ys, b) <==> Has(xs, b) || Has(ys, b)
  {
    var all := xs + ys;
    if Has(xs, b) {
      var i :| 0 <= i < |xs| && xs[i].bound == b;
      assert all[i].bound == b;
    }
    if Has(ys, b) {
      var i :| 0 <= i < |ys| && ys[i].bound == b;
      assert all[|xs| + i].bound == b;
    }
  }

  /** Merging series with equal bounds shows exactly the histogram of all their samples together, so the
      merged counts are cumulative and every result about Observe applies to them. */
  lemma MergeIsPooling(bounds: seq<Bound>, groups: seq<seq<real>>, m: Counts, sorted: seq<Bucket>)
    requires groups != [] && Ordered(bounds)
    requires Sums(m, Flatten(ObserveAll(bounds, groups))) && Ascending(sorted) && Lists(sorted, m)
    ensures sorted == Observe(bounds, Flatten(groups))
  {
    var pooled := Observe(bounds, Flatten(groups));
    forall i | 0 <= i < |bounds|
      ensures bounds[i] in m && m[bounds[i]] == pooled[i].count
    {
      FlattenHas(bounds, groups, bounds[i]);
      PooledCount(bounds, groups, i);
      assert At(m, bounds[i]) == SumAt(Flatten(ObserveAll(bounds, groups)), bounds[i]);
    }
    forall b | b in m
      ensures Has(pooled, b)
    {
      FlattenHas(bounds, groups, b);
      var i :| 0 <= i < |bounds| && bounds[i] == b;
      assert pooled[i].bound == b;
    }
    ListingIsUnique(sorted, pooled, m);
  }

  // ------------------------------------------------------------ Series with different bounds

  /** What each of several histograms shows, each with its own bounds. */
  function ObserveEach(lists: seq<seq<Bound>>, groups: seq<seq<real>>): seq<seq<Bucket>>
    requires |lists| == |groups|
  {
    seq(|lists|, i requires 0 <= i < |lists| => Observe(lists[i], groups[i]))
  }

  /** The samples counted under b: those of the series that have this bound. */
  function CountedAt(lists: seq<seq<Bound>>, groups: seq<seq<real>>, b: Bound): nat
    requires |lists| == |groups|
  {
    if lists == [] then 0
    else
      var n := |lists| - 1;
      CountedAt(lists[..n], groups[..n], b) + if b in lists[n] then CountIn(groups[n], b) else 0
  }

  lemma OneSeries(bounds: seq<Bound>, samples: seq<real>, b: Bound)
    requires Ordered(bounds)
    ensures SumAt(Observe(bounds, samples), b) == if b in bounds then CountIn(samples, b) else 0
    ensures Has(Observe(bounds, samples), b) <==> b in bounds
  {
    var buckets := Observe(bounds, samples);
    if b in bounds {
      var i :| 0 <= i < |bounds| && bounds[i] == b;
      assert buckets[i].bound == b;
      SumOfDistinct(buckets, i);
    } else {
      SumOfAbsent(buckets, b);
    }
  }

  ghost predicate InSome(lists: seq<seq<Bound>>, b: Bound) {
    exists i :: 0 <= i < |lists| && b in lists[i]
  }

  lemma {:induction false} EachCounted(lists: seq<seq<Bound>>, groups: seq<seq<real>>, b: Bound)
    requires |lists| == |groups| && forall i :: 0 <= i < |lists| ==> Ordered(lists[i])
    ensures SumAt(Flatten(ObserveEach(lists, groups)), b) == CountedAt(lists, groups, b)
    ensures Has(Flatten(ObserveEach(lists, groups)), b) <==> InSome(lists, b)
  {
    if lists != [] {
      var n := |lists| - 1;
      var xs, ys := Flatten(ObserveEach(lists[..n], groups[..n])), Observe(lists[n], groups[n]);
      EachCounted(lists[..n], groups[..n], b);
      assert ObserveEach(lists, groups)[..n] == ObserveEach(lists[..n], groups[..n]);
      OneSeries(lists[n], groups[n], b);
      SumsAdd(xs, ys, b);
      HasAppend(xs, ys, b);
      assert forall i :: 0 <= i < n ==> lists[i] == lists[..n][i];
    }
  }

  lemma {:induction false} SumsExist(buckets: seq<Bucket>) returns (m: Counts)
    ensures Sums(m, buckets)
  {
    if buckets == [] {
      m := map[];
    } else {
      var n := |buckets| - 1;
      m := SumsExist(buckets[..n]);
      SumsSnoc(m, buckets[..n], buckets[n]);
      m := m[buckets[n].bound := At(m, buckets[n].bound) + buckets[n].count];
      assert buckets == buckets[..n] + [buckets[n]];
    }
  }

  ghost predicate Merged(m: Counts, lists: seq<seq<Bound>>, groups: seq<seq<real>>) {
    |lists| == |groups| && Sums(m, Flatten(ObserveEach(lists, groups)))
  }

  lemma MergedCounts(m: Counts, lists: seq<seq<Bound>>, groups: seq<seq<real>>, b: Bound)
    requires Merged(m, lists, groups) && forall i :: 0 <= i < |lists| ==> Ordered(lists[i])
    ensures b in m <==> InSome(lists, b)
    ensures At(m, b) == CountedAt(lists, groups, b)
  {
    EachCounted(lists, groups, b);
  }

  /** Counts never fall towards larger bounds, as those of a histogram do not. */
  ghost predicate Cumulative(m: Counts) {
    forall b, c :: b in m && c in m && Below(b, c) ==> m[b] <= m[c]
  }

  /** Above its least bound each series has every bound that any series has. */
  ghost predicate UpwardClosed(lists: seq<seq<Bound>>) {
    forall i, b, c :: 0 <= i < |lists| && b in lists[i] && InSome(lists, c) && Below(b, c) ==> c in lists[i]
  }

  lemma {:induction false} CountsRise(lists: seq<seq<Bound>>, groups: seq<seq<real>>, b: Bound, c: Bound)
    requires |lists| == |groups| && Below(b, c)
    requires forall i :: 0 <= i < |lists| && b in lists[i] ==> c in lists[i]
    ensures CountedAt(lists, groups, b) <= CountedAt(lists, groups, c)
  {
    if lists != [] {
      var n := |lists| - 1;
      CountsRise(lists[..n], groups[..n], b, c);
      CountsGrow(groups[n], b.value, if c.Finite? then c.value else b.value);
    }
  }

  /** One sample in series i, none in the others. */
  function Only(n: nat, i: nat, x: real): seq<seq<real>> {
    seq(n, k => if k == i then [x] else [])
  }

  lemma OneSample(x: real, b: Bound)
    requires b.Finite? ==> x <= b.value
    ensures CountIn([x], b) == 1
  {
    var samples := [x];
    if b.Finite? {
      assert samples[..|samples| - 1] == [];
      assert CountLe(samples, b.value) == CountLe([], b.value) + 1;
    }
  }

  lemma {:induction false} OnlyCounted(lists: seq<seq<Bound>>, i: nat, x: real, b: Bound)
    requires b.Finite? ==> x <= b.value
    ensures CountedAt(lists, Only(|lists|, i, x), b) == if i < |lists| && b in lists[i] then 1 else 0
  {
    if lists != [] {
      var n := |lists| - 1;
      OnlyCounted(lists[..n], i, x, b);
      assert Only(|lists|, i, x)[..n] == Only(n, i, x);
      OneSample(x, b);
      assert CountIn([], b) == 0;
    }
  }

  lemma MissingBoundFalls(lists: seq<seq<Bound>>, i: nat, b: Bound, c: Bound)
    returns (groups: seq<seq<real>>, m: Counts)
    requires forall k :: 0 <= k < |lists| ==> Ordered(lists[k])
    requires i < |lists| && b in lists[i] && InSome(lists, c) && Below(b, c) && c !in lists[i]
    ensures Merged(m, lists, groups) && !Cumulative(m)
  {
    groups := Only(|lists|, i, b.value);
    m := SumsExist(Flatten(ObserveEach(lists, groups)));
    MergedCounts(m, lists, groups, b);
    MergedCounts(m, lists, groups, c);
    OnlyCounted(lists, i, b.value, b);
    OnlyCounted(lists, i, b.value, c);
    assert InSome(lists, b);
  }

  /** Merged counts are cumulative for all samples exactly if no series lacks a bound above one it has. */
  lemma MergeIsCumulativeIff(lists: seq<seq<Bound>>)
    requires forall i :: 0 <= i < |lists| ==> Ordered(lists[i])
    ensures (forall groups, m :: Merged(m, lists, groups) ==> Cumulative(m)) <==> UpwardClosed(lists)
  {
    if UpwardClosed(lists) {
      forall groups, m | Merged(m, lists, groups)
        ensures Cumulative(m)
      {
        forall b, c | b in m && c in m && Below(b, c)
          ensures m[b] <= m[c]
        {
          MergedCounts(m, lists, groups, b);
          MergedCounts(m, lists, groups, c);
          CountsRise(lists, groups, b, c);
        }
      }
    } else {
      var i, b, c :| 0 <= i < |lists| && b in lists[i] && InSome(lists, c) && Below(b, c) && c !in lists[i];
      var groups, m := MissingBoundFalls(lists, i, b, c);
    }
  }

  /** m shows under each bound all samples of all series up to it. */
  ghost predicate Pools(m: Counts, groups: seq<seq<real>>) {
    forall b :: b in m ==> m[b] == CountIn(Flatten(groups), b)
  }

  ghost predicate SameBounds(lists: seq<seq<Bound>>) {
    forall i, b :: 0 <= i < |lists| && InSome(lists, b) ==> b in lists[i]
  }

  lemma {:induction false} AllCounted(lists: seq<seq<Bound>>, groups: seq<seq<real>>, b: Bound)
    requires |lists| == |groups| && forall i :: 0 <= i < |lists| ==> b in lists[i]
    ensures CountedAt(lists, groups, b) == CountIn(Flatten(groups), b)
  {
    if lists == [] {
      assert CountIn([], b) == 0;
    } else {
      var n := |lists| - 1;
      AllCounted(lists[..n], groups[..n], b);
      CountsAdd(Flatten(groups[..n]), groups[n], b);
    }
  }

  lemma {:induction false} OnlyPooled(n: nat, i: nat, x: real, b: Bound)
    requires i < n && (b.Finite? ==> x <= b.value)
    ensures CountIn(Flatten(Only(n, i, x)), b) == 1
  {
    var lists := seq(n, _ => [b]);
    AllCounted(lists, Only(n, i, x), b);
    OnlyCounted(lists, i, x, b);
  }

  /** Merging is pooling for all samples exactly if all series have the same bounds. */
  lemma MergeIsPoolingIff(lists: seq<seq<Bound>>)
    requires forall i :: 0 <= i < |lists| ==> Ordered(lists[i])
    ensures (forall groups, m :: Merged(m, lists, groups) ==> Pools(m, groups)) <==> SameBounds(lists)
  {
    if SameBounds(lists) {
      forall groups, m | Merged(m, lists, groups)
        ensures Pools(m, groups)
      {
        forall b | b in m
          ensures m[b] == CountIn(Flatten(groups), b)
        {
          MergedCounts(m, lists, groups, b);
          AllCounted(lists, groups, b);
        }
      }
    } else {
      var i, b :| 0 <= i < |lists| && InSome(lists, b) && b !in lists[i];
      var x := if b.Finite? then b.value else 0.0;
      var groups := Only(|lists|, i, x);
      var m := SumsExist(Flatten(ObserveEach(lists, groups)));
      MergedCounts(m, lists, groups, b);
      OnlyCounted(lists, i, x, b);
      OnlyPooled(|lists|, i, x, b);
      assert Merged(m, lists, groups) && !Pools(m, groups);
    }
  }
}
