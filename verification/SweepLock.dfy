/** The lock around RunSweep in job-service/internal/cleanup/cleanup.go: any number of replicas, each acquiring with
    SETNX and a time to live, releasing with a compare-and-delete. */
module SweepLock {
  import opened Wrappers

  type Token = nat

  /** lockTTL, in seconds. */
  const TTL := 600

  datatype Lock = Lock(token: Token, expiresAt: int)

  /** The running sweeps by token, with their start; ended holds the tokens of the finished ones. */
  datatype World = World(now: int, lock: Option<Lock>, running: map<Token, int>, ended: set<Token>)

  datatype Step =
    | Wait(seconds: nat)
    | Attempt(token: Token)    // SETNX: runs a sweep or skips
    | Release(token: Token)    // the deferred release of a sweep that has run

  const Start := World(0, None, map[], {})

  /** The lock as Redis sees it. */
  predicate Live(w: World) {
    w.lock.Some? && w.now < w.lock.value.expiresAt
  }

  predicate Enabled(w: World, step: Step) {
    match step
    case Wait(_) => true
    case Attempt(t) => t !in w.running && t !in w.ended
    case Release(t) => t in w.running
  }

  function Apply(w: World, step: Step): World
    requires Enabled(w, step)
  {
    match step
    case Wait(n) => w.(now := w.now + n)
    case Attempt(t) =>
      if Live(w) then w.(ended := w.ended + {t})
      else w.(lock := Some(Lock(t, w.now + TTL)), running := w.running[t := w.now])
    case Release(t) =>
      w.(lock := if Live(w) && w.lock.value.token == t then None else w.lock,
         running := w.running - {t}, ended := w.ended + {t})
  }

  predicate Legal(w: World, steps: seq<Step>)
    decreases |steps|
  {
    steps == [] || (Enabled(w, steps[0]) && Legal(Apply(w, steps[0]), steps[1..]))
  }

  function Exec(w: World, steps: seq<Step>): World
    requires Legal(w, steps)
    decreases |steps|
  {
    if steps == [] then w else Exec(Apply(w, steps[0]), steps[1..])
  }

  ghost predicate Reachable(w: World) {
    exists steps :: Legal(Start, steps) && Exec(Start, steps) == w
  }

  /** A sweep within its time to live holds the lock, and a live lock is held by a running sweep. */
  ghost predicate Inv(w: World) {
    && w.running.Keys !! w.ended
    && (forall t :: t in w.running ==> w.running[t] <= w.now)
    && (forall t :: t in w.running && w.now < w.running[t] + TTL ==> w.lock == Some(Lock(t, w.running[t] + TTL)))
    && (Live(w) ==>
          w.lock.value.token in w.running && w.lock.value.expiresAt == w.running[w.lock.value.token] + TTL)
  }

  lemma {:induction false} RunsKeepInv(w: World, steps: seq<Step>)
    requires Inv(w) && Legal(w, steps)
    ensures Inv(Exec(w, steps))
    decreases |steps|
  {
    if steps != [] {
      assert Inv(Apply(w, steps[0]));
      RunsKeepInv(Apply(w, steps[0]), steps[1..]);
    }
  }

  lemma InvHolds(w: World)
    requires Reachable(w)
    ensures Inv(w)
  {
    var steps :| Legal(Start, steps) && Exec(Start, steps) == w;
    RunsKeepInv(Start, steps);
  }

  /** Two sweeps overlap only when one of them has outlived the time to live. */
  lemma OverlapNeedsOverrun(w: World, s: Token, t: Token)
    requires Reachable(w) && s in w.running && t in w.running && s != t
    ensures w.now >= w.running[s] + 600 || w.now >= w.running[t] + 600
  {
    InvHolds(w);
  }

  /** A release never takes the lock from another sweep that is within its time to live. */
  lemma ReleaseSparesOthers(w: World, s: Token, t: Token)
    requires Reachable(w) && s in w.running && t in w.running && s != t && w.now < w.running[t] + 600
    ensures var w' := Apply(w, Release(s)); Live(w') && w'.lock.value.token == t
  {
    InvHolds(w);
  }

  predicate HeldBy(w: World, t: Token) {
    Live(w) && w.lock.value.token == t
  }

  lemma {:induction false} ClockRuns(w: World, steps: seq<Step>)
    requires Legal(w, steps)
    ensures Exec(w, steps).now >= w.now
    decreases |steps|
  {
    if steps != [] {
      ClockRuns(Apply(w, steps[0]), steps[1..]);
    }
  }

  /** A token is used once: what it no longer holds it never holds again. */
  lemma {:induction false} NeverAgain(w: World, steps: seq<Step>, t: Token)
    requires Legal(w, steps) && (t in w.running || t in w.ended) && !HeldBy(w, t)
    ensures !HeldBy(Exec(w, steps), t)
    decreases |steps|
  {
    if steps != [] {
      NeverAgain(Apply(w, steps[0]), steps[1..], t);
    }
  }

  lemma {:induction false} HeldOn(w: World, steps: seq<Step>, t: Token)
    requires Inv(w) && Legal(w, steps) && HeldBy(w, t)
    ensures HeldBy(Exec(w, steps), t) <==> Release(t) !in steps && Exec(w, steps).now < w.running[t] + TTL
    decreases |steps|
  {
    if steps != [] {
      var w' := Apply(w, steps[0]);
      assert Inv(w') by { RunsKeepInv(w, steps[..1]); }
      assert steps == [steps[0]] + steps[1..];
      ClockRuns(w', steps[1..]);
      if HeldBy(w', t) {
        HeldOn(w', steps[1..], t);
      } else {
        NeverAgain(w', steps[1..], t);
      }
    }
  }

  /** Whatever other replicas do, a sweep that holds the lock goes on holding it exactly until it releases it or its
      time to live is over. */
  lemma HeldUntilReleasedOrExpired(w: World, steps: seq<Step>, t: Token)
    requires Reachable(w) && Legal(w, steps) && HeldBy(w, t)
    ensures t in w.running
    ensures HeldBy(Exec(w, steps), t) <==> Release(t) !in steps && Exec(w, steps).now < w.running[t] + 600
  {
    InvHolds(w);
    HeldOn(w, steps, t);
  }

  /** An attempt is turned away exactly when some running sweep holds the lock. */
  lemma SkipsOnlyForRunning(w: World, t: Token)
    requires Reachable(w) && Enabled(w, Attempt(t))
    ensures t in Apply(w, Attempt(t)).running <==>
            !exists s :: s in w.running && w.now < w.running[s] + 600
  {
    InvHolds(w);
  }
}
