/** The two reports built from one scrape, per endpoint (ParseHTTPHistogram) and gateway-wide
    (AggregateHTTP), of analytics-service/internal/promscrape/scraper.go. */
module Endpoints {
  import opened Wrappers
  import opened Histogram
  import opened Scrape

  datatype Key = Key(verb: string, path: string)

  /** A histogram of seconds: how many samples, what they add up to, and its buckets. */
  datatype Hist = Hist(count: nat, sum: real, buckets: seq<Bucket>)

  /** One series of http_request_duration_seconds; a series may carry no histogram. */
  datatype Series = Series(key: Key, status: string, hist: Option<Hist>)
  {
    function Count(): nat {
      if hist.Some? then hist.value.count else 0
    }

    function Seconds(): real {
      if hist.Some? then hist.value.sum else 0.0
    }

    /** What ParseHTTPHistogram adds to the endpoint's errors. */
    function Errors(): nat {
      if status != "" && (status[0] == '4' || status[0] == '5') then Count() else 0
    }
  }

  datatype Data = Data(total: nat, seconds: real, errors: nat, buckets: seq<Bucket>)

  function Add(d: Data, s: Series): Data
    requires s.hist.Some?
  {
    Data(d.total + s.Count(), d.seconds + s.Seconds(), d.errors + s.Errors(), d.buckets + s.hist.value.buckets)
  }

  /** What the series of one endpoint add up to, if it has any. */
  function DataOf(series: seq<Series>, k: Key): Option<Data> {
    if series == [] then None
    else
      var before, s := DataOf(series[..|series| - 1], k), series[|series| - 1];
      if s.hist.None? || s.key != k then before
      else Some(Add(if before.Some? then before.value else Data(0, 0.0, 0, []), s))
  }

  function Get<K, V>(m: map<K, V>, k: K): Option<V> {
    if k in m then Some(m[k]) else None
  }

  method Group(series: seq<Series>) returns (agg: map<Key, Data>)
    ensures forall k :: Get(agg, k) == DataOf(series, k)
  {
    agg := map[];
    for i := 0 to |series|
      invariant forall k :: Get(agg, k) == DataOf(series[..i], k)
    {
      var s := series[i];
      assert series[..i + 1][..i] == series[..i];
      if s.hist.None? {
        continue;
      }
      var data := Data(0, 0.0, 0, []);
      if s.key in agg {
        data := agg[s.key];
      }
      assert Get(agg, s.key) == DataOf(series[..i], s.key);
      agg := agg[s.key := Add(data, s)];
    }
    assert series[..|series|] == series;
  }

  datatype Endpoint = Endpoint(key: Key, requests: nat, sumMs: real, avgMs: real, errors: nat,
                               p50Ms: real, p95Ms: real, p99Ms: real)

  /** r is 1000 times the q-percentile of these buckets merged and sorted. */
  ghost predicate IsPercentile(buckets: seq<Bucket>, total: nat, q: real, r: real) {
    forall m, sorted :: Sums(m, buckets) && Ascending(sorted) && Lists(sorted, m) ==>
      r == Percentile(sorted, total, q) * 1000.0
  }

  lemma MergeIsUnique(buckets: seq<Bucket>, m: Counts, m': Counts)
    requires Sums(m, buckets) && Sums(m', buckets)
    ensures m == m'
  {
    forall b | b in m
      ensures b in m' && m[b] == m'[b]
    {
      assert Has(buckets, b) && At(m, b) == SumAt(buckets, b) == At(m', b);
    }
    forall b | b in m'
      ensures b in m
    {
      assert Has(buckets, b);
    }
  }

  lemma SomePercentile(buckets: seq<Bucket>, m: Counts, sorted: seq<Bucket>, total: nat, q: real)
    requires Sums(m, buckets) && Ascending(sorted) && Lists(sorted, m)
    ensures IsPercentile(buckets, total, q, Percentile(sorted, total, q) * 1000.0)
  {
    forall m', sorted' | Sums(m', buckets) && Ascending(sorted') && Lists(sorted', m')
      ensures sorted' == sorted
    {
      MergeIsUnique(buckets, m, m');
      ListingIsUnique(sorted, sorted', m);
    }
  }

  ghost predicate IsEndpoint(series: seq<Series>, e: Endpoint) {
    var d := DataOf(series, e.key);
    && d.Some? && d.value.total > 0 && e.requests == d.value.total && e.errors == d.value.errors
    && e.sumMs == d.value.seconds * 1000.0 && e.avgMs == d.value.seconds / e.requests as real * 1000.0
    && IsPercentile(d.value.buckets, e.requests, 0.50, e.p50Ms)
    && IsPercentile(d.value.buckets, e.requests, 0.95, e.p95Ms)
    && IsPercentile(d.value.buckets, e.requests, 0.99, e.p99Ms)
  }

  method Summarise(k: Key, d: Data) returns (e: Endpoint)
    requires d.total > 0
    ensures e.key == k && e.requests == d.total && e.errors == d.errors
    ensures e.sumMs == d.seconds * 1000.0 && e.avgMs == d.seconds / d.total as real * 1000.0
    ensures IsPercentile(d.buckets, d.total, 0.50, e.p50Ms)
    ensures IsPercentile(d.buckets, d.total, 0.95, e.p95Ms)
    ensures IsPercentile(d.buckets, d.total, 0.99, e.p99Ms)
  {
    assert Sums(map[], []);
    var m := AddBuckets(map[], [], d.buckets);
    assert [] + d.buckets == d.buckets;
    var sorted := SortedBuckets(m);
    var p50 := HistogramPercentile(sorted, d.total, 0.50);
    var p95 := HistogramPercentile(sorted, d.total, 0.95);
    var p99 := HistogramPercentile(sorted, d.total, 0.99);
    SomePercentile(d.buckets, m, sorted, d.total, 0.50);
    SomePercentile(d.buckets, m, sorted, d.total, 0.95);
    SomePercentile(d.buckets, m, sorted, d.total, 0.99);
    var avg := d.seconds / d.total as real * 1000.0;
    return Endpoint(k, d.total, d.seconds * 1000.0, avg, d.errors, p50 * 1000.0, p95 * 1000.0, p99 * 1000.0);
  }

  ghost predicate Distinct(results: seq<Endpoint>) {
    forall i, j :: 0 <= i < j < |results| ==> results[i].key != results[j].key
  }

  ghost predicate Busiest(results: seq<Endpoint>) {
    forall i, j :: 0 <= i < j < |results| ==> results[i].requests >= results[j].requests
  }

  ghost predicate Reports(results: seq<Endpoint>, k: Key) {
    exists i :: 0 <= i < |results| && results[i].key == k
  }

  /** Endpoints with requests, busiest first. */
  method ParseHTTPHistogram(series: seq<Series>) returns (results: seq<Endpoint>)
    ensures Distinct(results) && Busiest(results)
    ensures forall i :: 0 <= i < |results| ==> IsEndpoint(series, results[i])
    ensures forall k :: DataOf(series, k).Some? && DataOf(series, k).value.total > 0 ==> Reports(results, k)
  {
    var agg := Group(series);
    results := [];
    var left := agg.Keys;
    while left != {}
      invariant left <= agg.Keys
      invariant Distinct(results) && Busiest(results)
      invariant forall i :: 0 <= i < |results| ==> IsEndpoint(series, results[i]) && results[i].key !in left
      invariant forall k :: k in agg && k !in left && agg[k].total > 0 ==> Reports(results, k)
      decreases |left|
    {
      var k :| k in left;
      assert Get(agg, k) == DataOf(series, k);
      left := left - {k};
      if agg[k].total == 0 {
        continue;
      }
      var e := Summarise(k, agg[k]);
      ghost var before := results;
      results := Insert(results, e);
      forall k' | Reports(before, k')
        ensures Reports(results, k')
      {
        var i :| 0 <= i < |before| && before[i].key == k';
        assert before[i] in results;
      }
      assert e in results;
      assert IsEndpoint(series, e);
      forall i | 0 <= i < |results|
        ensures IsEndpoint(series, results[i]) && results[i].key !in left
      {
        assert results[i] in results;
      }
    }
    forall k | DataOf(series, k).Some? && DataOf(series, k).value.total > 0
      ensures Reports(results, k)
    {
      assert Get(agg, k) == DataOf(series, k);
    }
  }

  method Insert(results: seq<Endpoint>, e: Endpoint) returns (r: seq<Endpoint>)
    requires Distinct(results) && Busiest(results) && !Reports(results, e.key)
    ensures Distinct(r) && Busiest(r)
    ensures forall x :: x in r <==> x in results || x == e
  {
    var i := 0;
    while i < |results| && results[i].requests >= e.requests
      invariant i <= |results|
      invariant forall j :: 0 <= j < i ==> results[j].requests >= e.requests
    {
      i := i + 1;
    }
    r := results[..i] + [e] + results[i..];
    forall a, b | 0 <= a < b < |r|
      ensures r[a].key != r[b].key
    {
      assert forall j :: 0 <= j < |results| ==> results[j].key != e.key;
    }
  }

  // ------------------------------------------------------------ The gateway-wide report

  /** Some weight of the series, summed. */
  function Sum(series: seq<Series>, w: Series -> nat): nat {
    if series == [] then 0 else Sum(series[..|series| - 1], w) + w(series[|series| - 1])
  }

  /** The latencies of all requests, summed. */
  function Seconds(series: seq<Series>): real {
    if series == [] then 0.0 else Seconds(series[..|series| - 1]) + series[|series| - 1].Seconds()
  }

  function AllBuckets(series: seq<Series>): seq<Bucket> {
    if series == [] then []
    else
      var s := series[|series| - 1];
      AllBuckets(series[..|series| - 1]) + if s.hist.Some? then s.hist.value.buckets else []
  }

  /** Requests answered with this status. */
  function With(status: string): Series -> nat {
    (s: Series) => if s.status == status then s.Count() else 0
  }

  /** Requests answered with a status that begins like this, other than one. */
  function Beginning(prefix: string, other: string): Series -> nat {
    (s: Series) => if prefix <= s.status && s.status != other then s.Count() else 0
  }

  function Requests(): Series -> nat {
    (s: Series) => s.Count()
  }

  function Failures(): Series -> nat {
    (s: Series) => s.Errors()
  }

  datatype Aggregate = Aggregate(requests: nat, clientErrors: nat, serverErrors: nat, timeouts: nat,
                                 avgMs: real, p50Ms: real, p95Ms: real, p99Ms: real)

  method AggregateHTTP(series: seq<Series>) returns (a: Aggregate)
    ensures a.requests == Sum(series, Requests())
    ensures a.clientErrors == Sum(series, Beginning("4", "504"))
    ensures a.serverErrors == Sum(series, Beginning("5", "504"))
    ensures a.timeouts == Sum(series, With("504"))
    ensures if a.requests == 0 then a.avgMs == a.p50Ms == a.p95Ms == a.p99Ms == 0.0
            else && a.avgMs == Seconds(series) / a.requests as real * 1000.0
                 && IsPercentile(AllBuckets(series), a.requests, 0.50, a.p50Ms)
                 && IsPercentile(AllBuckets(series), a.requests, 0.95, a.p95Ms)
                 && IsPercentile(AllBuckets(series), a.requests, 0.99, a.p99Ms)
  {
    var total, clientErrors, serverErrors, timeouts := 0, 0, 0, 0;
    var totalSum := 0.0;
    var m: Counts := map[];
    for i := 0 to |series|
      invariant total == Sum(series[..i], Requests()) && totalSum == Seconds(series[..i])
      invariant clientErrors == Sum(series[..i], Beginning("4", "504"))
      invariant serverErrors == Sum(series[..i], Beginning("5", "504"))
      invariant timeouts == Sum(series[..i], With("504"))
      invariant Sums(m, AllBuckets(series[..i]))
    {
      var s := series[i];
      assert series[..i + 1][..i] == series[..i];
      if s.hist.None? {
        assert AllBuckets(series[..i + 1]) == AllBuckets(series[..i]);
        continue;
      }
      var count := s.hist.value.count;
      total := total + count;
      totalSum := totalSum + s.hist.value.sum;
      if s.status == "504" {
        timeouts := timeouts + count;
      } else if |s.status| > 0 && s.status[0] == '5' {
        serverErrors := serverErrors + count;
      } else if |s.status| > 0 && s.status[0] == '4' {
        clientErrors := clientErrors + count;
      }
      m := AddBuckets(m, AllBuckets(series[..i]), s.hist.value.buckets);
    }
    assert series[..|series|] == series;
    if total == 0 {
      return Aggregate(total, clientErrors, serverErrors, timeouts, 0.0, 0.0, 0.0, 0.0);
    }
    var sorted := SortedBuckets(m);
    var p50 := HistogramPercentile(sorted, total, 0.50);
    var p95 := HistogramPercentile(sorted, total, 0.95);
    var p99 := HistogramPercentile(sorted, total, 0.99);
    SomePercentile(AllBuckets(series), m, sorted, total, 0.50);
    SomePercentile(AllBuckets(series), m, sorted, total, 0.95);
    SomePercentile(AllBuckets(series), m, sorted, total, 0.99);
    var avg := totalSum / total as real * 1000.0;
    return Aggregate(total, clientErrors, serverErrors, timeouts, avg, p50 * 1000.0, p95 * 1000.0, p99 * 1000.0);
  }

  // ------------------------------------------------------------ The two reports agree

  function TotalOf(d: Option<Data>): nat {
    if d.Some? then d.value.total else 0
  }

  function ErrorsOf(d: Option<Data>): nat {
    if d.Some? then d.value.errors else 0
  }

  function SecondsOf(d: Option<Data>): real {
    if d.Some? then d.value.seconds else 0.0
  }

  function SumMs(results: seq<Endpoint>): real {
    if results == [] then 0.0 else SumMs(results[..|results| - 1]) + results[|results| - 1].sumMs
  }

  function SumRequests(results: seq<Endpoint>): nat {
    if results == [] then 0 else SumRequests(results[..|results| - 1]) + results[|results| - 1].requests
  }

  function SumErrors(results: seq<Endpoint>): nat {
    if results == [] then 0 else SumErrors(results[..|results| - 1]) + results[|results| - 1].errors
  }

  /** The totals of these endpoints over a set of series. */
  function PerEndpoint(series: seq<Series>, results: seq<Endpoint>): (nat, nat, real) {
    if results == [] then (0, 0, 0.0)
    else
      var p, d := PerEndpoint(series, results[..|results| - 1]), DataOf(series, results[|results| - 1].key);
      (p.0 + TotalOf(d), p.1 + ErrorsOf(d), p.2 + SecondsOf(d))
  }

  lemma {:induction false} OneMoreSeries(series: seq<Series>, s: Series, results: seq<Endpoint>)
    requires Distinct(results)
    ensures var p, p' := PerEndpoint(series, results), PerEndpoint(series + [s], results);
            if Reports(results, s.key) then p' == (p.0 + s.Count(), p.1 + s.Errors(), p.2 + s.Seconds()) else p' == p
  {
    assert (series + [s])[..|series|] == series;
    if results != [] {
      var n := |results| - 1;
      OneMoreSeries(series, s, results[..n]);
      if Reports(results[..n], s.key) {
        var i :| 0 <= i < n && results[..n][i].key == s.key;
        assert results[i].key == s.key;
      } else if results[n].key != s.key {
        assert forall i :: 0 <= i < n ==> results[..n][i] == results[i];
      }
    }
  }

  /** This series has a row, or nothing to report. */
  ghost predicate Covered(s: Series, results: seq<Endpoint>) {
    if s.Count() > 0 then Reports(results, s.key) else s.Seconds() == 0.0
  }

  lemma CoveredSeries(series: seq<Series>, s: Series, results: seq<Endpoint>)
    requires Distinct(results) && Covered(s, results)
    ensures var p, p' := PerEndpoint(series, results), PerEndpoint(series + [s], results);
            p' == (p.0 + s.Count(), p.1 + s.Errors(), p.2 + s.Seconds())
  {
    OneMoreSeries(series, s, results);
  }

  lemma {:induction false} EndpointsCover(series: seq<Series>, results: seq<Endpoint>)
    requires Distinct(results) && forall i :: 0 <= i < |series| ==> Covered(series[i], results)
    ensures PerEndpoint(series, results) == (Sum(series, Requests()), Sum(series, Failures()), Seconds(series))
  {
    if series == [] {
      NoSeries(results);
    } else {
      var n := |series| - 1;
      EndpointsCover(series[..n], results);
      CoveredSeries(series[..n], series[n], results);
      assert series == series[..n] + [series[n]];
    }
  }

  lemma {:induction false} NoSeries(results: seq<Endpoint>)
    ensures PerEndpoint([], results) == (0, 0, 0.0)
  {
    if results != [] {
      NoSeries(results[..|results| - 1]);
    }
  }

  lemma {:induction false} CountedIsPositive(series: seq<Series>, i: nat)
    requires i < |series| && series[i].Count() > 0
    ensures TotalOf(DataOf(series, series[i].key)) > 0
  {
    if i < |series| - 1 {
      CountedIsPositive(series[..|series| - 1], i);
    }
  }

  lemma {:induction false} ReportedTotals(series: seq<Series>, results: seq<Endpoint>)
    requires forall i :: 0 <= i < |results| ==> IsEndpoint(series, results[i])
    ensures PerEndpoint(series, results).0 == SumRequests(results)
    ensures PerEndpoint(series, results).1 == SumErrors(results)
    ensures PerEndpoint(series, results).2 * 1000.0 == SumMs(results)
  {
    if results != [] {
      var n := |results| - 1;
      ReportedTotals(series, results[..n]);
      assert IsEndpoint(series, results[n]);
      assert PerEndpoint(series, results).2
          == PerEndpoint(series, results[..n]).2 + SecondsOf(DataOf(series, results[n].key));
    }
  }

  lemma {:induction false} ErrorsAreClasses(series: seq<Series>)
    ensures Sum(series, Failures()) == Sum(series, Beginning("4", "504")) + Sum(series, Beginning("5", "504"))
                                       + Sum(series, With("504"))
    ensures Sum(series, Failures()) <= Sum(series, Requests())
  {
    if series != [] {
      ErrorsAreClasses(series[..|series| - 1]);
    }
  }

  /** Every request, error and millisecond is in exactly one endpoint row: the rows add up to the gateway-wide report,
      whose three error classes are disjoint. */
  lemma ReportsAgree(series: seq<Series>, results: seq<Endpoint>)
    requires Distinct(results) && forall i :: 0 <= i < |results| ==> IsEndpoint(series, results[i])
    requires forall k :: DataOf(series, k).Some? && DataOf(series, k).value.total > 0 ==> Reports(results, k)
    requires forall i :: 0 <= i < |series| && series[i].Count() == 0 ==> series[i].Seconds() == 0.0
    ensures SumRequests(results) == Sum(series, Requests()) && SumMs(results) == Seconds(series) * 1000.0
    ensures SumErrors(results) == Sum(series, Beginning("4", "504")) + Sum(series, Beginning("5", "504"))
                                  + Sum(series, With("504")) <= SumRequests(results)
  {
    forall i | 0 <= i < |series|
      ensures Covered(series[i], results)
    {
      if series[i].Count() > 0 {
        CountedIsPositive(series, i);
      }
    }
    EndpointsCover(series, results);
    ReportedTotals(series, results);
    ErrorsAreClasses(series);
  }

  // ------------------------------------------------------------ Series with one set of bounds

  /** The sums of these histograms' buckets, by bound. */
  lemma PooledSums(bounds: seq<Bound>, groups: seq<seq<real>>, m: Counts)
    requires groups != [] && Ordered(bounds)
    requires m == map b | b in bounds :: CountIn(Flatten(groups), b)
    ensures Sums(m, Flatten(ObserveAll(bounds, groups)))
  {
    var buckets := Flatten(ObserveAll(bounds, groups));
    forall b
      ensures (b in m <==> Has(buckets, b)) && At(m, b) == SumAt(buckets, b)
    {
      FlattenHas(bounds, groups, b);
      if b in bounds {
        var i :| 0 <= i < |bounds| && bounds[i] == b;
        PooledCount(bounds, groups, i);
      } else {
        assert forall i :: 0 <= i < |buckets| ==> buckets[i].bound != b;
        SumOfAbsent(buckets, b);
      }
    }
  }

  /** What is reported for them is the percentile of one histogram of all their samples. */
  lemma PooledPercentile(bounds: seq<Bound>, groups: seq<seq<real>>, total: nat, q: real, r: real)
    requires groups != [] && Ordered(bounds)
    requires IsPercentile(Flatten(ObserveAll(bounds, groups)), total, q, r)
    ensures r == Percentile(Observe(bounds, Flatten(groups)), total, q) * 1000.0
  {
    var m := map b | b in bounds :: CountIn(Flatten(groups), b);
    PooledSums(bounds, groups, m);
    var pooled := Observe(bounds, Flatten(groups));
    forall b | b in m
      ensures Has(pooled, b)
    {
      var i :| 0 <= i < |bounds| && bounds[i] == b;
      assert pooled[i].bound == b;
    }
    assert Lists(pooled, m);
  }

  /** The series are histograms of these samples over these bounds. */
  ghost predicate Observed(series: seq<Series>, bounds: seq<Bound>, groups: seq<seq<real>>) {
    && |series| == |groups|
    && forall i :: 0 <= i < |series| ==>
         && series[i].hist.Some? && series[i].hist.value.count == |groups[i]|
         && series[i].hist.value.buckets == Observe(bounds, groups[i])
  }

  lemma {:induction false} ObservedTotals(series: seq<Series>, bounds: seq<Bound>, groups: seq<seq<real>>)
    requires Observed(series, bounds, groups)
    ensures AllBuckets(series) == Flatten(ObserveAll(bounds, groups))
    ensures Sum(series, Requests()) == |Flatten(groups)|
  {
    if series != [] {
      var n := |series| - 1;
      ObservedTotals(series[..n], bounds, groups[..n]);
      assert ObserveAll(bounds, groups)[..n] == ObserveAll(bounds, groups[..n]);
    }
  }

  /** The gateway-wide percentile, in milliseconds, shares a bucket of the common bounds with the true quantile of
      every request the gateway has served. */
  lemma GatewayPercentile(series: seq<Series>, bounds: seq<Bound>, groups: seq<seq<real>>, q: real, r: real, x: real,
                          i: nat)
    requires Observed(series, bounds, groups) && Asked(Sum(series, Requests()), q)
    requires IsPercentile(AllBuckets(series), Sum(series, Requests()), q, r)
    requires RisesFromZero(Observe(bounds, Flatten(groups))) && IsQuantile(Flatten(groups), q, x)
    requires i < |bounds| && bounds[i].Finite? && x <= bounds[i].value
    ensures exists k :: InShared(bounds, k, x) && InShared(bounds, k, r / 1000.0)
  {
    ObservedTotals(series, bounds, groups);
    assert groups != [];
    assert Ordered(bounds) by {
      assert forall j :: 0 <= j < |bounds| ==> Observe(bounds, Flatten(groups))[j].bound == bounds[j];
    }
    PooledPercentile(bounds, groups, Sum(series, Requests()), q, r);
    EstimateSharesBucket(bounds, Flatten(groups), q, x, i);
    assert r / 1000.0 == Percentile(Observe(bounds, Flatten(groups)), Sum(series, Requests()), q);
  }
}
