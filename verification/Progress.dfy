/** Progress writes of convert-from-pdf/internal/worker: the throttle of progress.go, and the guarded
    update in the onProgress callback of worker.go. */
module Progress {

  /** The throttle's limits, from the environment; either may be zero or negative. */
  datatype Limits = Limits(minDelta: int, minInterval: int)

  /** The stored progress, and the throttle's baseline with its time. */
  datatype State = State(stored: int, lastPct: int, lastWrite: int)

  datatype Callback = Callback(percent: int, now: int)

  function Clamp(percent: int): (r: int)
    ensures 20 <= r <= 90
    ensures 20 <= percent <= 90 ==> r == percent
    ensures (percent <= 20 ==> r == 20) && (percent >= 90 ==> r == 90)
  {
    if percent < 20 then 20 else if percent > 90 then 90 else percent
  }

  /** UPDATE ... SET progress = pct WHERE progress < pct. */
  function Raise(stored: int, pct: int): int {
    if stored < pct then pct else stored
  }

  predicate ShouldWrite(l: Limits, s: State, pct: int, now: int) {
    pct - s.lastPct >= l.minDelta || now - s.lastWrite >= l.minInterval
  }

  function Next(l: Limits, s: State, c: Callback): State {
    var pct := Clamp(c.percent);
    if ShouldWrite(l, s, pct, c.now) then State(Raise(s.stored, pct), pct, c.now) else s
  }

  /** The start of a run: the status update raises the stored progress to 20 and the throttle starts there. */
  function Begin(stored: int, now: int): State {
    State(Raise(stored, 20), 20, now)
  }

  function After(l: Limits, s: State, calls: seq<Callback>): State {
    if calls == [] then s else Next(l, After(l, s, calls[..|calls| - 1]), calls[|calls| - 1])
  }

  class Throttle {
    const limits: Limits
    var lastPct: int
    var lastWrite: int

    constructor (limits: Limits, startPct: int, now: int)
      ensures this.limits == limits && lastPct == startPct && lastWrite == now
    {
      this.limits, lastPct, lastWrite := limits, startPct, now;
    }

    method ShouldWriteNow(pct: int, now: int) returns (write: bool)
      modifies this
      ensures write == (pct - old(lastPct) >= limits.minDelta || now - old(lastWrite) >= limits.minInterval)
      ensures write ==> lastPct == pct && lastWrite == now
      ensures !write ==> lastPct == old(lastPct) && lastWrite == old(lastWrite)
    {
      if pct - lastPct >= limits.minDelta || now - lastWrite >= limits.minInterval {
        lastPct, lastWrite := pct, now;
        return true;
      }
      return false;
    }
  }

  /** One run of the worker on a job: its row and its throttle. */
  class Run {
    var progress: int
    const throttle: Throttle

    constructor (stored: int, limits: Limits, now: int)
      ensures StateNow() == Begin(stored, now) && throttle.limits == limits && fresh(throttle)
      ensures StateNow() == State(if stored < 20 then 20 else stored, 20, now)
    {
      progress := if stored < 20 then 20 else stored;
      throttle := new Throttle(limits, 20, now);
    }

    function StateNow(): State
      reads this, throttle
    {
      State(progress, throttle.lastPct, throttle.lastWrite)
    }

    method OnProgress(percent: int, now: int)
      modifies this, throttle
      ensures StateNow() == Next(throttle.limits, old(StateNow()), Callback(percent, now))
      ensures var s, l := old(StateNow()), throttle.limits;
              var pct := if percent < 20 then 20 else if percent > 90 then 90 else percent;
              StateNow() == if pct - s.lastPct >= l.minDelta || now - s.lastWrite >= l.minInterval
                            then State(if s.stored < pct then pct else s.stored, pct, now) else s
    {
      var clamped := percent;
      if clamped < 20 {
        clamped := 20;
      }
      if clamped > 90 {
        clamped := 90;
      }
      var write := throttle.ShouldWriteNow(clamped, now);
      if write && progress < clamped {
        progress := clamped;
      }
    }
  }

  // ------------------------------------------------------------ Every run of callbacks

  /** Stored progress only grows, stays within 20..90 when it starts no higher than 90, and is never behind the
      throttle's baseline. */
  lemma {:induction false} ProgressNeverRegresses(l: Limits, stored: int, start: int, calls: seq<Callback>, i: nat)
    requires i <= |calls|
    ensures var s, t := After(l, Begin(stored, start), calls[..i]), After(l, Begin(stored, start), calls);
            && stored <= s.stored <= t.stored && 20 <= t.lastPct <= t.stored
            && (stored <= 90 ==> t.stored <= 90)
  {
    if i < |calls| {
      var n := |calls| - 1;
      ProgressNeverRegresses(l, stored, start, calls[..n], i);
      assert calls[..n][..i] == calls[..i];
    } else if i > 0 {
      assert calls[..i] == calls;
      ProgressNeverRegresses(l, stored, start, calls[..i - 1], i - 1);
      assert calls[..i - 1][..i - 1] == calls[..i - 1];
    } else {
      assert calls == [];
    }
  }

  /** One callback leaves stored progress less than minDelta behind it. */
  lemma CallbackTrails(l: Limits, s: State, c: Callback)
    requires l.minDelta > 0 && s.lastPct <= s.stored
    ensures Next(l, s, c).stored > Clamp(c.percent) - l.minDelta
  {
  }

  /** Stored progress trails everything reported so far, not only the latest callback, by less than minDelta: a
      converter that falls back and restarts lower does not widen the gap. */
  lemma TrailsEverything(l: Limits, stored: int, start: int, calls: seq<Callback>, i: nat)
    requires l.minDelta > 0 && i < |calls|
    ensures After(l, Begin(stored, start), calls).stored > Clamp(calls[i].percent) - l.minDelta
  {
    var s := After(l, Begin(stored, start), calls[..i]);
    ProgressNeverRegresses(l, stored, start, calls[..i], i);
    assert calls[..i + 1][..i] == calls[..i];
    CallbackTrails(l, s, calls[i]);
    ProgressNeverRegresses(l, stored, start, calls, i + 1);
  }

  /** The bound needs a positive minDelta: without one a single callback of any value breaks it. */
  lemma TrailsIffPositiveDelta(l: Limits)
    ensures (forall stored, start, calls: seq<Callback>, i :: 0 <= i < |calls| ==>
               After(l, Begin(stored, start), calls).stored > Clamp(calls[i].percent) - l.minDelta)
            <==> l.minDelta > 0
  {
    if l.minDelta > 0 {
      forall stored, start, calls: seq<Callback>, i | 0 <= i < |calls|
        ensures After(l, Begin(stored, start), calls).stored > Clamp(calls[i].percent) - l.minDelta
      {
        TrailsEverything(l, stored, start, calls, i);
      }
    } else {
      var calls := [Callback(20, 0)];
      assert calls[..0] == [];
      assert After(l, Begin(20, 0), calls).stored == 20 <= Clamp(calls[0].percent) - l.minDelta;
    }
  }

  /** Stored progress never claims more than was reported: it is the starting value or a callback's. */
  lemma {:induction false} NeverOverstates(l: Limits, stored: int, start: int, calls: seq<Callback>)
    ensures var t := After(l, Begin(stored, start), calls).stored;
            t == Raise(stored, 20) || exists i :: 0 <= i < |calls| && t == Clamp(calls[i].percent)
  {
    if calls != [] {
      var n := |calls| - 1;
      NeverOverstates(l, stored, start, calls[..n]);
      var t, u := After(l, Begin(stored, start), calls).stored, After(l, Begin(stored, start), calls[..n]).stored;
      if t == u && t != Raise(stored, 20) {
        var i :| 0 <= i < n && u == Clamp(calls[..n][i].percent);
        assert calls[..n][i] == calls[i];
      }
    }
  }

  // ------------------------------------------------------------ Writes out of order

  /** The guarded updates, in the order the database executes them. */
  function Writes(stored: int, pcts: seq<int>): int {
    if pcts == [] then stored else Raise(Writes(stored, pcts[..|pcts| - 1]), pcts[|pcts| - 1])
  }

  lemma {:induction false} WritesKeepMaximum(stored: int, pcts: seq<int>)
    ensures Writes(stored, pcts) == stored || Writes(stored, pcts) in pcts
    ensures stored <= Writes(stored, pcts) && forall p :: p in pcts ==> p <= Writes(stored, pcts)
  {
    if pcts != [] {
      WritesKeepMaximum(stored, pcts[..|pcts| - 1]);
      assert pcts == pcts[..|pcts| - 1] + [pcts[|pcts| - 1]];
    }
  }

  /** Callbacks that race between the throttle and the database end at the same stored progress in any order. */
  lemma OrderDoesNotMatter(stored: int, pcts: seq<int>, reordered: seq<int>)
    requires multiset(pcts) == multiset(reordered)
    ensures Writes(stored, pcts) == Writes(stored, reordered)
  {
    WritesKeepMaximum(stored, pcts);
    WritesKeepMaximum(stored, reordered);
    forall p
      ensures p in pcts <==> p in reordered
    {
      assert p in pcts <==> p in multiset(pcts);
      assert p in reordered <==> p in multiset(reordered);
    }
  }
}
