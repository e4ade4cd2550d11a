/** The sliding-window limiters of api-gateway/internal/ratelimit/ratelimit.go and
    auth-service/middleware/ratelimit.go.  Times and windows are integer nanoseconds. */
module RateLimit {

  const SECOND := 1_000_000_000

  /** A sorted-set key: its scores (member and score are the same timestamp) and when it expires. */
  datatype Key = Key(scores: set<int>, expiresAt: int)

  const Absent := Key({}, 0)

  /** int(Window.Seconds()) * 2, in nanoseconds. */
  function Ttl(window: int): int {
    if window >= 0 then window / SECOND * 2 * SECOND else 0
  }

  /** The key as Redis sees it: gone once its expiry has passed. */
  function Live(k: Key, now: int): set<int> {
    if now >= k.expiresAt then {} else k.scores
  }

  /** ZREMRANGEBYSCORE key 0 windowStart. */
  function Trim(scores: set<int>, windowStart: int): set<int> {
    set s | s in scores && !(0 <= s <= windowStart)
  }

  /** ZCOUNT key windowStart +inf. */
  function CountFrom(scores: set<int>, windowStart: int): nat {
    |set s | s in scores && s >= windowStart|
  }

  /** ZADD, then EXPIRE: a time to live of zero deletes the key. */
  function Record(scores: set<int>, now: int, ttl: int): Key {
    if ttl <= 0 then Absent else Key(scores + {now}, now + ttl)
  }

  /** The script: the key afterwards, and the count before this request. */
  function Script(k: Key, window: int, now: int): (Key, nat) {
    var kept := Trim(Live(k, now), now - window);
    (Record(kept, now, Ttl(window)), CountFrom(kept, now - window))
  }

  /** The key after requests at these times, oldest first. */
  function After(window: int, times: seq<int>): Key {
    if times == [] then Absent
    else Script(After(window, times[..|times| - 1]), window, times[|times| - 1]).0
  }

  /** The count that request number i is given. */
  function CountAt(window: int, times: seq<int>, i: nat): nat
    requires i < |times|
  {
    Script(After(window, times[..i]), window, times[i]).1
  }

  // ------------------------------------------------------------ The unbounded log

  /** How many of these requests came after lo. */
  function Recent(times: seq<int>, lo: int): nat {
    if times == [] then 0
    else Recent(times[..|times| - 1], lo) + if times[|times| - 1] > lo then 1 else 0
  }

  /** Request times: strictly increasing, and a window or more after the epoch. */
  ghost predicate Clock(window: int, times: seq<int>) {
    && (forall i, j :: 0 <= i < j < |times| ==> times[i] < times[j])
    && (forall i :: 0 <= i < |times| ==> times[i] >= window)
  }

  lemma {:induction false} RecentIsCardinality(times: seq<int>, lo: int)
    requires forall i, j :: 0 <= i < j < |times| ==> times[i] < times[j]
    ensures |set t | t in times && t > lo| == Recent(times, lo)
  {
    if times == [] {
      assert (set t | t in times && t > lo) == {};
    } else {
      var n := |times| - 1;
      RecentIsCardinality(times[..n], lo);
      var before, all := set t | t in times[..n] && t > lo, set t | t in times && t > lo;
      assert times[n] !in before;
      assert times == times[..n] + [times[n]];
      assert all == if times[n] > lo then before + {times[n]} else before;
    }
  }

  /** What the stored key knows of the log. */
  ghost predicate Holds(k: Key, window: int, times: seq<int>) {
    if times == [] then k == Absent
    else var last := times[|times| - 1];
         && k.expiresAt == last + Ttl(window)
         && (forall s :: s in k.scores ==> s in times)
         && (forall t :: t in times && t > last - window ==> t in k.scores)
  }

  lemma TtlCoversWindow(window: int)
    requires window >= SECOND
    ensures Ttl(window) >= window && Ttl(window) > 0
  {
    assert window < (window / SECOND + 1) * SECOND;
  }

  /** The scores that survive the trim are the logged requests still inside the window. */
  lemma KeptAreRecent(k: Key, window: int, times: seq<int>, now: int, t: int)
    requires window >= SECOND && Clock(window, times + [now]) && Holds(k, window, times)
    ensures t in Trim(Live(k, now), now - window) && t >= now - window <==> t in times && t > now - window
  {
    TtlCoversWindow(window);
    var ts := times + [now];
    if t in times {
      var i :| 0 <= i < |times| && times[i] == t;
      var last := |times| - 1;
      assert ts[i] == t && ts[last] == times[last] && ts[last] < ts[last + 1];
      assert t <= times[last] && t >= window;
    }
  }

  lemma StepCounts(k: Key, window: int, times: seq<int>, now: int)
    requires window >= SECOND && Clock(window, times + [now]) && Holds(k, window, times)
    ensures Script(k, window, now).1 == Recent(times, now - window)
  {
    var kept := Trim(Live(k, now), now - window);
    assert (set s | s in kept && s >= now - window) == (set t | t in times && t > now - window) by {
      forall t
        ensures t in kept && t >= now - window <==> t in times && t > now - window
      {
        KeptAreRecent(k, window, times, now, t);
      }
    }
    var ts := times + [now];
    forall i, j | 0 <= i < j < |times|
      ensures times[i] < times[j]
    {
      assert ts[i] < ts[j];
    }
    RecentIsCardinality(times, now - window);
  }

  lemma StepHolds(k: Key, window: int, times: seq<int>, now: int)
    requires window >= SECOND && Clock(window, times + [now]) && Holds(k, window, times)
    ensures Holds(Script(k, window, now).0, window, times + [now])
  {
    TtlCoversWindow(window);
    var k' := Script(k, window, now).0;
    forall t | t in times + [now] && t > now - window
      ensures t in k'.scores
    {
      KeptAreRecent(k, window, times, now, t);
    }
  }

  lemma {:induction false} KeyHolds(window: int, times: seq<int>)
    requires window >= SECOND && Clock(window, times)
    ensures Holds(After(window, times), window, times)
  {
    if times != [] {
      var n := |times| - 1;
      KeyHolds(window, times[..n]);
      assert times == times[..n] + [times[n]];
      StepHolds(After(window, times[..n]), window, times[..n], times[n]);
    }
  }

  /** Trimming and expiry never lose a request that still counts. */
  lemma CountsLikeUnboundedLog(window: int, times: seq<int>, i: nat)
    requires window >= SECOND && Clock(window, times) && i < |times|
    ensures CountAt(window, times, i) == Recent(times[..i], times[i] - window)
  {
    KeyHolds(window, times[..i]);
    assert Clock(window, times[..i] + [times[i]]);
    StepCounts(After(window, times[..i]), window, times[..i], times[i]);
  }

  lemma {:induction false} ShortWindowForgets(window: int, times: seq<int>)
    requires 0 < window < SECOND
    ensures After(window, times) == Absent
  {
    if times != [] {
      ShortWindowForgets(window, times[..|times| - 1]);
    }
  }

  /** A window of at least one second is what the stored key needs: below it the truncated expiry is
      zero and nothing is ever counted, which is right only for a window of one nanosecond. */
  lemma ExactIffWindowIsASecond(window: int)
    requires window > 0
    ensures (forall times, i :: Clock(window, times) && 0 <= i < |times| ==>
               CountAt(window, times, i) == Recent(times[..i], times[i] - window))
            <==> window >= SECOND || window == 1
  {
    if window >= SECOND {
      forall times, i | Clock(window, times) && 0 <= i < |times|
        ensures CountAt(window, times, i) == Recent(times[..i], times[i] - window)
      {
        CountsLikeUnboundedLog(window, times, i);
      }
    } else if window == 1 {
      forall times, i | Clock(window, times) && 0 <= i < |times|
        ensures CountAt(window, times, i) == Recent(times[..i], times[i] - window)
      {
        ShortWindowForgets(window, times[..i]);
        NothingWithinOne(times, i, i);
      }
    } else {
      var times := [window, window + 1];
      assert Clock(window, times);
      assert times[..1] == [window];
      ShortWindowForgets(window, times[..1]);
      assert CountAt(window, times, 1) == 0;
      assert Recent([], times[1] - window) == 0;
      assert Recent(times[..1], times[1] - window) == 1;
    }
  }

  lemma {:induction false} NothingWithinOne(times: seq<int>, i: nat, n: nat)
    requires Clock(1, times) && n <= i < |times|
    ensures Recent(times[..n], times[i] - 1) == 0
  {
    if n > 0 {
      NothingWithinOne(times, i, n - 1);
      assert times[..n][..n - 1] == times[..n - 1];
    }
  }

  // ------------------------------------------------------------ Admission

  /** count < limit. */
  predicate Admits(ceiling: int, count: nat) {
    count < ceiling
  }

  /** The X-RateLimit-Remaining header. */
  function Remaining(ceiling: int, count: nat): nat {
    if ceiling - count - 1 < 0 then 0 else ceiling - count - 1
  }

  /** How many of these requests fall in the window that starts at a and are admitted. */
  function AdmittedIn(window: int, ceiling: int, times: seq<int>, a: int): nat {
    if times == [] then 0
    else
      var n := |times| - 1;
      AdmittedIn(window, ceiling, times[..n], a)
      + if a <= times[n] < a + window && Admits(ceiling, CountAt(window, times, n)) then 1 else 0
  }

  lemma {:induction false} AdmittedAreRecent(window: int, ceiling: int, times: seq<int>, a: int, lo: int)
    requires lo < a
    ensures AdmittedIn(window, ceiling, times, a) <= Recent(times, lo)
  {
    if times != [] {
      AdmittedAreRecent(window, ceiling, times[..|times| - 1], a, lo);
    }
  }

  /** No interval of window length, wherever it starts, admits more than the ceiling. */
  lemma {:induction false} NoWindowExceedsCeiling(window: int, ceiling: int, times: seq<int>, a: int)
    requires window >= SECOND && ceiling >= 0 && Clock(window, times)
    ensures AdmittedIn(window, ceiling, times, a) <= ceiling
  {
    if times != [] {
      var n := |times| - 1;
      NoWindowExceedsCeiling(window, ceiling, times[..n], a);
      if a <= times[n] < a + window {
        CountsLikeUnboundedLog(window, times, n);
        AdmittedAreRecent(window, ceiling, times[..n], a, times[n] - window);
      }
    }
  }

  lemma {:induction false} RecentGrows(times: seq<int>, i: nat, j: nat, lo: int, lo': int)
    requires i <= j <= |times| && lo <= lo'
    ensures Recent(times[..j], lo') <= Recent(times[..i], lo) + (j - i)
  {
    if j > i {
      RecentGrows(times, i, j - 1, lo, lo');
      assert times[..j][..j - 1] == times[..j - 1];
    } else if i > 0 {
      RecentGrows(times, i - 1, i - 1, lo, lo');
      assert times[..i][..i - 1] == times[..i - 1];
    }
  }

  /** After request i, the next Remaining requests are all admitted, whatever their spacing. */
  lemma RemainingIsHonoured(window: int, ceiling: int, times: seq<int>, i: nat, j: nat)
    requires window >= SECOND && Clock(window, times) && i < j < |times|
    requires j <= i + Remaining(ceiling, CountAt(window, times, i))
    ensures Admits(ceiling, CountAt(window, times, j))
  {
    CountsLikeUnboundedLog(window, times, i);
    CountsLikeUnboundedLog(window, times, j);
    RecentGrows(times, i, j, times[i] - window, times[j] - window);
  }

  lemma {:induction false} RecentBurst(times: seq<int>, i: nat, j: nat, lo: int)
    requires i <= j <= |times| && forall k :: i <= k < j ==> times[k] > lo
    ensures Recent(times[..j], lo) == Recent(times[..i], lo) + (j - i)
  {
    if j > i {
      RecentBurst(times, i, j - 1, lo);
      assert times[..j][..j - 1] == times[..j - 1];
    }
  }

  /** The header does not undersell: while no counted request has left the window, the request after
      the remaining ones is refused. */
  lemma RemainingIsTight(window: int, ceiling: int, times: seq<int>, i: nat, j: nat)
    requires window >= SECOND && Clock(window, times) && i < j < |times|
    requires j == i + Remaining(ceiling, CountAt(window, times, i)) + 1
    requires times[i] > times[j] - window
    requires Recent(times[..i], times[j] - window) == Recent(times[..i], times[i] - window)
    ensures !Admits(ceiling, CountAt(window, times, j))
  {
    CountsLikeUnboundedLog(window, times, i);
    CountsLikeUnboundedLog(window, times, j);
    RecentBurst(times, i, j, times[j] - window);
  }
}
