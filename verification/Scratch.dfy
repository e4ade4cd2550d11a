/** The scratch-space guard of convert-to-pdf/internal/worker/worker.go and tmpfs.go in one worker pod:
    a handler slot semaphore, a per-job budget test, and a one-slot semaphore for large jobs. */
module Scratch {

  const HALF := 0x8000_0000_0000_0000

  /** Two's-complement int64. */
  function Wrap(x: int): (r: int)
    ensures -HALF <= r < HALF
    ensures -HALF <= x < HALF ==> r == x
  {
    (x + HALF) % (2 * HALF) - HALF
  }

  lemma WrapAdds(x: int, y: int)
    ensures Wrap(Wrap(x) + y) == Wrap(x + y)
  {
  }

  /** Go's division truncates towards zero. */
  function Quotient(x: int, d: int): int
    requires d > 0
  {
    if x >= 0 then x / d else -(-x / d)
  }

  function Positive(x: int): nat {
    if x < 0 then 0 else x
  }

  /** Limits read from the environment; any of them may be negative. */
  datatype Limits = Limits(budget: int, threshold: int, pct: int)
  {
    function Factor(): nat {
      if pct < 0 then 0 else pct
    }

    /** projectedFootprint, as computed. */
    function Projected(total: int): int {
      Wrap(total + Quotient(Wrap(total * Factor()), 100))
    }

    /** What a job with these inputs may use: the inputs and an output Factor() percent as large. */
    function Footprint(total: nat): nat {
      total + total * Factor() / 100
    }

    /** Nothing overflows. */
    predicate Measurable(total: nat) {
      total * Factor() < HALF && Footprint(total) < HALF
    }

    /** The guard admits inputs of this total, which it sees modulo 2^64. */
    predicate Passes(total: nat) {
      Projected(Wrap(total)) <= budget
    }

    predicate IsLarge(total: nat) {
      Wrap(total) > threshold
    }

    /** The guard is not deceived by these inputs: what it admits fits, and is measured as it is. */
    predicate Honest(total: nat) {
      Passes(total) ==> Footprint(total) <= Positive(budget) && total < HALF
    }
  }

  /** What is computed is an int64 that agrees with the exact value modulo 2^64. */
  lemma WrapIsCongruent(x: int)
    ensures -0x8000_0000_0000_0000 <= Wrap(x) < 0x8000_0000_0000_0000
    ensures (x - Wrap(x)) % 0x1_0000_0000_0000_0000 == 0
  {
    assert x - Wrap(x) == 2 * HALF * ((x + HALF) / (2 * HALF));
  }

  /** For a total that is itself an int64 the computed projection is the inputs and pct percent of them, a negative pct
      counting as none, exactly if nothing overflows. */
  lemma ProjectedIsFootprint(l: Limits, total: nat)
    requires total < HALF
    ensures var pct := if l.pct < 0 then 0 else l.pct;
            && l.Footprint(total) == total + total * pct / 100
            && (l.Projected(total) == total + total * pct / 100
                <==> total * pct < 0x8000_0000_0000_0000 && total + total * pct / 100 < 0x8000_0000_0000_0000)
  {
    var scaled := total * l.Factor();
    assert scaled >= 0;
    if scaled < HALF {
      assert Wrap(scaled) == scaled && Quotient(scaled, 100) == scaled / 100;
    } else if scaled / 100 < HALF {
      WrapFallsShort(scaled);
      var q := Quotient(Wrap(scaled), 100);
      assert 0 < scaled / 100 - q < 2 * HALF;
      WrapDiffers(total + scaled / 100, total + q);
    }
  }

  /** An output of at most pct percent of the inputs. */
  predicate Foreseen(pct: int, total: nat, output: nat) {
    100 * output <= if pct < 0 then 0 else total * pct
  }

  /** Where nothing overflows the guard admits a job exactly if its inputs fit the budget together with every output
      it foresees, and a job is large exactly if its inputs exceed the threshold. */
  lemma PassesIffOutputsFit(l: Limits, total: nat)
    requires total < HALF && l.Measurable(total)
    ensures l.Passes(total) <==> forall output :: Foreseen(l.pct, total, output) ==> total + output <= l.budget
    ensures l.IsLarge(total) <==> total > l.threshold
  {
    ProjectedIsFootprint(l, total);
    var most := total * l.Factor() / 100;
    assert Foreseen(l.pct, total, most);
  }

  /** So the guard is not deceived where nothing overflows. */
  lemma MeasurableIsHonest(l: Limits, total: nat)
    requires l.Measurable(total)
    ensures l.Honest(total)
  {
    ProjectedIsFootprint(l, total);
  }

  lemma WrapFallsShort(x: int)
    requires HALF <= x
    ensures Wrap(x) <= x - 2 * HALF
    ensures Quotient(Wrap(x), 100) < x / 100
    ensures x / 100 < HALF ==> x / 100 - Quotient(Wrap(x), 100) < 2 * HALF
  {
  }

  lemma WrapDiffers(x: int, y: int)
    requires 0 < x - y < 2 * HALF
    ensures Wrap(y) != x
  {
    assert Wrap(y) == y + 2 * HALF * (-((y + HALF) / (2 * HALF)));
  }

  lemma ScaledGrows(x: nat, y: nat, f: nat)
    requires x <= y
    ensures x * f <= y * f && x * f / 100 <= y * f / 100
  {
    assert (y - x) * f >= 0;
    assert x * f <= y * f;
  }

  lemma FootprintGrows(l: Limits, x: nat, y: nat)
    requires x <= y
    ensures l.Footprint(x) <= l.Footprint(y)
  {
    ScaledGrows(x, y, l.Factor());
  }

  // ------------------------------------------------------------ Measuring the inputs

  function Sum(sizes: map<string, nat>, keys: seq<string>): nat
    requires forall k :: k in keys ==> k in sizes
  {
    if keys == [] then 0 else Sum(sizes, keys[..|keys| - 1]) + sizes[keys[|keys| - 1]]
  }

  /** A sum counts every key once for each place it has in the list. */
  lemma {:induction false} SumOfParts(sizes: map<string, nat>, left: seq<string>, right: seq<string>)
    requires forall k :: k in left + right ==> k in sizes
    ensures (forall k :: k in left ==> k in sizes) && (forall k :: k in right ==> k in sizes)
    ensures Sum(sizes, left + right) == Sum(sizes, left) + Sum(sizes, right)
    ensures |left| == 1 ==> Sum(sizes, left) == sizes[left[0]]
  {
    assert forall k :: k in left || k in right ==> k in left + right;
    assert |left| == 1 ==> left[..0] == [];
    if right == [] {
      assert left + right == left;
    } else {
      assert (left + right)[..|left + right| - 1] == left + right[..|right| - 1];
      SumOfParts(sizes, left, right[..|right| - 1]);
    }
  }

  /** totalInputSize; a key with no size is a stat error. */
  method TotalInputSize(sizes: map<string, nat>, keys: seq<string>) returns (ok: bool, total: int)
    ensures ok <==> forall k :: k in keys ==> k in sizes
    ensures ok ==>
              && total == Wrap(Sum(sizes, keys)) && -0x8000_0000_0000_0000 <= total < 0x8000_0000_0000_0000
              && (Sum(sizes, keys) - total) % 0x1_0000_0000_0000_0000 == 0
    ensures !ok ==> total == 0
  {
    total := 0;
    for i := 0 to |keys|
      invariant forall k :: k in keys[..i] ==> k in sizes
      invariant total == Wrap(Sum(sizes, keys[..i]))
    {
      if keys[i] !in sizes {
        return false, 0;
      }
      WrapAdds(Sum(sizes, keys[..i]), sizes[keys[i]]);
      assert keys[..i + 1][..i] == keys[..i];
      total := Wrap(total + sizes[keys[i]]);
    }
    assert keys[..|keys|] == keys;
    WrapIsCongruent(Sum(sizes, keys));
    return true, total;
  }

  // ------------------------------------------------------------ The pod

  /** A handler slot.  Deferred calls run last-in first-out, so a large job gives its semaphore back before
      its scratch directory is removed: Leaving is the time between. */
  datatype Slot =
    | Free
    | Measuring
    | Waiting(total: nat)
    | Working(total: nat, large: bool)
    | Leaving(total: nat, large: bool)

  /** The pod: its handler slots and whether the large-job semaphore is taken. */
  datatype Pod = Pod(slots: seq<Slot>, largeTaken: bool)

  datatype Step =
    | Acquire(i: nat)                 // a message takes a slot
    | Measure(i: nat, total: nat)     // the budget test
    | TakeLarge(i: nat)
    | Cancel(i: nat)                  // shutdown while waiting, or a failed stat
    | Finish(i: nat)                  // the handler returns: its semaphore first
    | RemoveScratch(i: nat)           // then its directory and its slot

  predicate Enabled(p: Pod, step: Step) {
    && step.i < |p.slots|
    && match step
       case Acquire(i) => p.slots[i].Free?
       case Measure(i, _) => p.slots[i].Measuring?
       case TakeLarge(i) => p.slots[i].Waiting? && !p.largeTaken
       case Cancel(i) => p.slots[i].Waiting? || p.slots[i].Measuring?
       case Finish(i) => p.slots[i].Working?
       case RemoveScratch(i) => p.slots[i].Leaving?
  }

  function Apply(l: Limits, p: Pod, step: Step): Pod
    requires Enabled(p, step)
  {
    var i := step.i;
    match step
    case Acquire(_) => p.(slots := p.slots[i := Measuring])
    case Measure(_, total) =>
      p.(slots := p.slots[i := if !l.Passes(total) then Free
                              else if l.IsLarge(total) then Waiting(total)
                              else Working(total, false)])
    case TakeLarge(_) => Pod(p.slots[i := Working(p.slots[i].total, true)], true)
    case Cancel(_) => p.(slots := p.slots[i := Free])
    case Finish(_) =>
      Pod(p.slots[i := Leaving(p.slots[i].total, p.slots[i].large)], p.largeTaken && !p.slots[i].large)
    case RemoveScratch(_) => p.(slots := p.slots[i := Free])
  }

  predicate Legal(l: Limits, p: Pod, steps: seq<Step>)
    decreases |steps|
  {
    steps == [] || (Enabled(p, steps[0]) && Legal(l, Apply(l, p, steps[0]), steps[1..]))
  }

  function Exec(l: Limits, p: Pod, steps: seq<Step>): Pod
    requires Legal(l, p, steps)
    decreases |steps|
  {
    if steps == [] then p else Exec(l, Apply(l, p, steps[0]), steps[1..])
  }

  function Idle(concurrency: nat): Pod {
    Pod(seq(concurrency, _ => Free), false)
  }

  /** Every job measured in this run has inputs of one of these totals. */
  ghost predicate Totals(totals: iset<nat>, steps: seq<Step>) {
    forall k :: 0 <= k < |steps| && steps[k].Measure? ==> steps[k].total in totals
  }

  ghost predicate Reachable(l: Limits, totals: iset<nat>, concurrency: nat, p: Pod) {
    exists steps ::
      Legal(l, Idle(concurrency), steps) && Totals(totals, steps) && Exec(l, Idle(concurrency), steps) == p
  }

  // ------------------------------------------------------------ What every step keeps

  /** A slot past the budget test. */
  predicate Passed(s: Slot) {
    s.Waiting? || s.Working? || s.Leaving?
  }

  ghost predicate SlotOk(l: Limits, totals: iset<nat>, s: Slot) {
    && (Passed(s) ==> s.total in totals && l.Passes(s.total))
    && (s.Waiting? ==> l.IsLarge(s.total))
    && (s.Working? || s.Leaving? ==> (s.large <==> l.IsLarge(s.total)))
  }

  predicate Holds(s: Slot) {
    s.Working? && s.large
  }

  ghost predicate SlotsOk(l: Limits, totals: iset<nat>, slots: seq<Slot>) {
    forall i :: 0 <= i < |slots| ==> SlotOk(l, totals, slots[i])
  }

  /** The semaphore is taken exactly while some one slot holds it. */
  ghost predicate SemaphoreOk(slots: seq<Slot>, largeTaken: bool) {
    && (forall i, j :: 0 <= i < j < |slots| ==> !(Holds(slots[i]) && Holds(slots[j])))
    && (largeTaken <==> exists i :: 0 <= i < |slots| && Holds(slots[i]))
  }

  ghost predicate Inv(l: Limits, totals: iset<nat>, concurrency: nat, p: Pod) {
    |p.slots| == concurrency && SlotsOk(l, totals, p.slots) && SemaphoreOk(p.slots, p.largeTaken)
  }

  lemma HoldersStay(slots: seq<Slot>, largeTaken: bool, i: nat, s: Slot)
    requires SemaphoreOk(slots, largeTaken) && i < |slots| && Holds(s) == Holds(slots[i])
    ensures SemaphoreOk(slots[i := s], largeTaken)
  {
    if largeTaken {
      var j :| 0 <= j < |slots| && Holds(slots[j]);
      assert Holds(slots[i := s][j]);
    }
  }

  lemma HolderComes(slots: seq<Slot>, i: nat, s: Slot)
    requires SemaphoreOk(slots, false) && i < |slots| && Holds(s)
    ensures SemaphoreOk(slots[i := s], true)
  {
    assert Holds(slots[i := s][i]);
  }

  lemma HolderGoes(slots: seq<Slot>, i: nat, s: Slot)
    requires SemaphoreOk(slots, true) && i < |slots| && Holds(slots[i]) && !Holds(s)
    ensures SemaphoreOk(slots[i := s], false)
  {
    assert forall j :: 0 <= j < |slots| && j != i ==> !Holds(slots[j]);
  }

  lemma StepKeepsInv(l: Limits, totals: iset<nat>, concurrency: nat, p: Pod, step: Step)
    requires Inv(l, totals, concurrency, p) && Enabled(p, step) && (step.Measure? ==> step.total in totals)
    ensures Inv(l, totals, concurrency, Apply(l, p, step))
  {
    var i := step.i;
    var s := Apply(l, p, step).slots[i];
    assert SlotOk(l, totals, p.slots[i]);
    if step.TakeLarge? {
      HolderComes(p.slots, i, s);
    } else if Holds(p.slots[i]) {
      HolderGoes(p.slots, i, s);
    } else {
      HoldersStay(p.slots, p.largeTaken, i, s);
    }
  }

  lemma {:induction false} RunsKeepInv(l: Limits, totals: iset<nat>, concurrency: nat, p: Pod, steps: seq<Step>)
    requires Inv(l, totals, concurrency, p) && Legal(l, p, steps) && Totals(totals, steps)
    ensures Inv(l, totals, concurrency, Exec(l, p, steps))
    decreases |steps|
  {
    if steps != [] {
      StepKeepsInv(l, totals, concurrency, p, steps[0]);
      RunsKeepInv(l, totals, concurrency, Apply(l, p, steps[0]), steps[1..]);
    }
  }

  lemma InvHolds(l: Limits, totals: iset<nat>, concurrency: nat, p: Pod)
    requires Reachable(l, totals, concurrency, p)
    ensures Inv(l, totals, concurrency, p)
  {
    var steps :| Legal(l, Idle(concurrency), steps) && Totals(totals, steps) && Exec(l, Idle(concurrency), steps) == p;
    RunsKeepInv(l, totals, concurrency, Idle(concurrency), steps);
  }

  // ------------------------------------------------------------ What is used

  /** Slots that count: handlers past the guard, and also those leaving when their files are to be counted. */
  predicate Counted(s: Slot, leaving: bool) {
    s.Working? || (leaving && s.Leaving?)
  }

  function Used(l: Limits, slots: seq<Slot>, leaving: bool): nat {
    if slots == [] then 0
    else
      var s := slots[|slots| - 1];
      Used(l, slots[..|slots| - 1], leaving) + if Counted(s, leaving) then l.Footprint(s.total) else 0
  }

  lemma OneMore(n: nat, before: nat, f: nat, k: nat, bound: nat)
    requires n * before <= k * bound && n * f <= bound
    ensures n * (before + f) <= (k + 1) * bound
  {
    assert n * (before + f) == n * before + n * f;
    assert (k + 1) * bound == k * bound + bound;
  }

  /** Where n of each counted job would stay within a bound, n times what k slots use stays within k bounds. */
  lemma {:induction false} UsedWithin(l: Limits, slots: seq<Slot>, leaving: bool, n: nat, bound: nat)
    requires forall i :: 0 <= i < |slots| && Counted(slots[i], leaving) ==> n * l.Footprint(slots[i].total) <= bound
    ensures n * Used(l, slots, leaving) <= |slots| * bound
  {
    if slots != [] {
      var s := slots[|slots| - 1];
      UsedWithin(l, slots[..|slots| - 1], leaving, n, bound);
      OneMore(n, Used(l, slots[..|slots| - 1], leaving), if Counted(s, leaving) then l.Footprint(s.total) else 0,
              |slots| - 1, bound);
    }
  }

  lemma UsedAtMost(l: Limits, slots: seq<Slot>, leaving: bool, bound: nat)
    requires forall i :: 0 <= i < |slots| && Counted(slots[i], leaving) ==>
               |slots| * l.Footprint(slots[i].total) <= bound
    ensures Used(l, slots, leaving) <= bound
  {
    if |slots| > 0 {
      UsedWithin(l, slots, leaving, |slots|, bound);
      if Used(l, slots, leaving) > bound {
        ProductGrows(|slots|, bound + 1, Used(l, slots, leaving));
      }
    }
  }

  lemma ProductGrows(n: nat, x: nat, y: nat)
    requires x <= y
    ensures n * x <= n * y
  {
    assert n * (y - x) >= 0;
  }

  lemma {:induction false} UsedConcat(l: Limits, left: seq<Slot>, right: seq<Slot>, leaving: bool)
    ensures Used(l, left + right, leaving) == Used(l, left, leaving) + Used(l, right, leaving)
  {
    if right == [] {
      assert left + right == left;
    } else {
      assert (left + right)[..|left + right| - 1] == left + right[..|right| - 1];
      UsedConcat(l, left, right[..|right| - 1], leaving);
    }
  }

  function Without(slots: seq<Slot>, k: nat): seq<Slot>
    requires k < |slots|
  {
    slots[..k] + slots[k + 1..]
  }

  /** One slot, and the others. */
  lemma UsedBeside(l: Limits, slots: seq<Slot>, k: nat, leaving: bool)
    requires k < |slots|
    ensures Used(l, slots, leaving)
            == Used(l, Without(slots, k), leaving)
               + if Counted(slots[k], leaving) then l.Footprint(slots[k].total) else 0
  {
    var s := [slots[k]];
    assert slots == slots[..k] + (s + slots[k + 1..]);
    UsedConcat(l, slots[..k], s + slots[k + 1..], leaving);
    UsedConcat(l, s, slots[k + 1..], leaving);
    UsedConcat(l, slots[..k], slots[k + 1..], leaving);
    assert s[..0] == [];
  }

  /** Slots that are all alike use as much as one of them each. */
  lemma {:induction false} UsedAlike(l: Limits, slots: seq<Slot>, s: Slot, leaving: bool)
    requires Counted(s, leaving) && forall i :: 0 <= i < |slots| ==> slots[i] == s
    ensures Used(l, slots, leaving) == |slots| * l.Footprint(s.total)
  {
    if slots != [] {
      UsedAlike(l, slots[..|slots| - 1], s, leaving);
      assert |slots| * l.Footprint(s.total) == (|slots| - 1) * l.Footprint(s.total) + l.Footprint(s.total);
    }
  }

  // ------------------------------------------------------------ Runs that fill a pod

  lemma {:induction false} RunSnoc(l: Limits, p: Pod, steps: seq<Step>, step: Step)
    requires Legal(l, p, steps) && Enabled(Exec(l, p, steps), step)
    ensures Legal(l, p, steps + [step]) && Exec(l, p, steps + [step]) == Apply(l, Exec(l, p, steps), step)
    decreases |steps|
  {
    if steps == [] {
      assert [step][1..] == [];
    } else {
      RunSnoc(l, Apply(l, p, steps[0]), steps[1..], step);
      assert (steps + [step])[1..] == steps[1..] + [step];
    }
  }

  lemma Then(l: Limits, totals: iset<nat>, concurrency: nat, p: Pod, step: Step) returns (p': Pod)
    requires Reachable(l, totals, concurrency, p) && Enabled(p, step) && (step.Measure? ==> step.total in totals)
    ensures p' == Apply(l, p, step) && Reachable(l, totals, concurrency, p')
  {
    var steps :| Legal(l, Idle(concurrency), steps) && Totals(totals, steps) && Exec(l, Idle(concurrency), steps) == p;
    RunSnoc(l, Idle(concurrency), steps, step);
    assert Totals(totals, steps + [step]);
    p' := Apply(l, p, step);
  }

  /** A job that passes the guard gets to work in a free slot, if large while no other large one works. */
  lemma Works(l: Limits, totals: iset<nat>, concurrency: nat, p: Pod, i: nat, total: nat) returns (p': Pod)
    requires Reachable(l, totals, concurrency, p) && i < |p.slots| && p.slots[i].Free?
    requires total in totals && l.Passes(total) && (l.IsLarge(total) ==> !p.largeTaken)
    ensures Reachable(l, totals, concurrency, p')
    ensures p' == Pod(p.slots[i := Working(total, l.IsLarge(total))], p.largeTaken || l.IsLarge(total))
  {
    p' := Then(l, totals, concurrency, p, Acquire(i));
    p' := Then(l, totals, concurrency, p', Measure(i, total));
    if l.IsLarge(total) {
      p' := Then(l, totals, concurrency, p', TakeLarge(i));
    }
  }

  /** It returns, and its files are still there. */
  lemma Leaves(l: Limits, totals: iset<nat>, concurrency: nat, p: Pod, i: nat, total: nat) returns (p': Pod)
    requires Reachable(l, totals, concurrency, p) && i < |p.slots| && p.slots[i].Free?
    requires total in totals && l.Passes(total) && !p.largeTaken
    ensures Reachable(l, totals, concurrency, p')
    ensures p' == Pod(p.slots[i := Leaving(total, l.IsLarge(total))], false)
  {
    p' := Works(l, totals, concurrency, p, i, total);
    p' := Then(l, totals, concurrency, p', Finish(i));
  }

  /** n slots like this, the rest free. */
  function Filled(concurrency: nat, n: nat, s: Slot): seq<Slot> {
    seq(concurrency, k => if k < n then s else Free)
  }

  lemma IdleReachable(l: Limits, totals: iset<nat>, concurrency: nat)
    ensures Reachable(l, totals, concurrency, Idle(concurrency))
  {
    assert Legal(l, Idle(concurrency), []) && Totals(totals, []);
  }

  /** Jobs can finish in every slot before the files of any of them are removed. */
  lemma {:induction false} AllLeaving(l: Limits, totals: iset<nat>, concurrency: nat, n: nat, total: nat)
    requires total in totals && l.Passes(total) && n <= concurrency
    ensures Reachable(l, totals, concurrency, Pod(Filled(concurrency, n, Leaving(total, l.IsLarge(total))), false))
  {
    var s := Leaving(total, l.IsLarge(total));
    if n == 0 {
      IdleReachable(l, totals, concurrency);
      assert Filled(concurrency, 0, s) == Idle(concurrency).slots;
    } else {
      AllLeaving(l, totals, concurrency, n - 1, total);
      var p' := Leaves(l, totals, concurrency, Pod(Filled(concurrency, n - 1, s), false), n - 1, total);
      assert p'.slots == Filled(concurrency, n, s);
    }
  }

  // ------------------------------------------------------------ The disk

  /** Exactly what the disk must hold.  Deferred calls free the large-job semaphore before the directory is removed, so
      it does not bound the files on disk: they stay within a bound if and only if one job in every slot, each as
      large as the guard lets pass, would. */
  lemma DiskBound(l: Limits, totals: iset<nat>, concurrency: nat, bound: nat)
    ensures (forall p :: Reachable(l, totals, concurrency, p) ==> Used(l, p.slots, true) <= bound)
            <==> (forall total :: total in totals && l.Passes(total) ==> concurrency * l.Footprint(total) <= bound)
  {
    if forall total :: total in totals && l.Passes(total) ==> concurrency * l.Footprint(total) <= bound {
      forall p | Reachable(l, totals, concurrency, p)
        ensures Used(l, p.slots, true) <= bound
      {
        InvHolds(l, totals, concurrency, p);
        if concurrency > 0 {
          UsedAtMost(l, p.slots, true, bound);
        }
      }
    } else {
      var total :| total in totals && l.Passes(total) && concurrency * l.Footprint(total) > bound;
      var s := Leaving(total, l.IsLarge(total));
      AllLeaving(l, totals, concurrency, concurrency, total);
      UsedAlike(l, Filled(concurrency, concurrency, s), s, true);
    }
  }
  // ------------------------------------------------------------ The handlers at work

  lemma {:induction false} AllAtWork(l: Limits, totals: iset<nat>, concurrency: nat, n: nat, total: nat)
    requires total in totals && l.Passes(total) && !l.IsLarge(total) && n <= concurrency
    ensures Reachable(l, totals, concurrency, Pod(Filled(concurrency, n, Working(total, false)), false))
  {
    var s := Working(total, false);
    if n == 0 {
      IdleReachable(l, totals, concurrency);
      assert Filled(concurrency, 0, s) == Idle(concurrency).slots;
    } else {
      AllAtWork(l, totals, concurrency, n - 1, total);
      var p' := Works(l, totals, concurrency, Pod(Filled(concurrency, n - 1, s), false), n - 1, total);
      assert p'.slots == Filled(concurrency, n, s);
    }
  }

  /** A large job can work beside a small one in each of n other slots. */
  lemma OneLargeAtWork(l: Limits, totals: iset<nat>, concurrency: nat, large: nat, n: nat, small: nat) returns (p: Pod)
    requires large in totals && l.Passes(large) && l.IsLarge(large) && n < concurrency
    requires n > 0 ==> small in totals && l.Passes(small) && !l.IsLarge(small)
    ensures Reachable(l, totals, concurrency, p)
    ensures Used(l, p.slots, false) >= l.Footprint(large) + n * l.Footprint(small)
  {
    var s := Working(small, false);
    var before := Pod(Filled(concurrency, n, s), false);
    if n == 0 {
      IdleReachable(l, totals, concurrency);
      assert before.slots == Idle(concurrency).slots;
    } else {
      AllAtWork(l, totals, concurrency, n, small);
    }
    p := Works(l, totals, concurrency, before, n, large);
    UsedBeside(l, p.slots, n, false);
    var others := Without(p.slots, n);
    assert others == others[..n] + others[n..];
    UsedConcat(l, others[..n], others[n..], false);
    UsedAlike(l, others[..n], s, false);
  }

  /** The condition under which working handlers stay within a bound. */
  ghost predicate WorkFits(l: Limits, totals: iset<nat>, concurrency: nat, bound: nat) {
    && (forall small :: small in totals && l.Passes(small) && !l.IsLarge(small) ==>
          concurrency * l.Footprint(small) <= bound)
    && (forall large :: large in totals && l.Passes(large) && l.IsLarge(large) ==>
          && l.Footprint(large) <= bound
          && forall small :: small in totals && l.Passes(small) && !l.IsLarge(small) ==>
               l.Footprint(large) + (concurrency - 1) * l.Footprint(small) <= bound)
  }

  lemma NothingLargeAtWork(l: Limits, totals: iset<nat>, concurrency: nat, bound: nat, p: Pod)
    requires WorkFits(l, totals, concurrency, bound) && Inv(l, totals, concurrency, p) && !p.largeTaken
    ensures Used(l, p.slots, false) <= bound
  {
    forall i | 0 <= i < |p.slots| && Counted(p.slots[i], false)
      ensures |p.slots| * l.Footprint(p.slots[i].total) <= bound
    {
      assert SlotOk(l, totals, p.slots[i]) && !Holds(p.slots[i]);
    }
    UsedAtMost(l, p.slots, false, bound);
  }

  lemma OthersAreSmall(l: Limits, totals: iset<nat>, concurrency: nat, p: Pod, k: nat, i: nat)
    requires Inv(l, totals, concurrency, p) && k < |p.slots| && Holds(p.slots[k]) && i < |p.slots| - 1
    requires Counted(Without(p.slots, k)[i], false)
    ensures var total := Without(p.slots, k)[i].total; total in totals && l.Passes(total) && !l.IsLarge(total)
  {
    var j := if i < k then i else i + 1;
    assert Without(p.slots, k)[i] == p.slots[j] && SlotOk(l, totals, p.slots[j]) && !Holds(p.slots[j]);
  }

  lemma SomethingLargeAtWork(l: Limits, totals: iset<nat>, concurrency: nat, bound: nat, p: Pod)
    requires WorkFits(l, totals, concurrency, bound) && Inv(l, totals, concurrency, p) && p.largeTaken
    ensures Used(l, p.slots, false) <= bound
  {
    var k :| 0 <= k < |p.slots| && Holds(p.slots[k]);
    var f, others := l.Footprint(p.slots[k].total), Without(p.slots, k);
    assert SlotOk(l, totals, p.slots[k]);
    forall i | 0 <= i < |others| && Counted(others[i], false)
      ensures |others| * l.Footprint(others[i].total) <= bound - f
    {
      OthersAreSmall(l, totals, concurrency, p, k, i);
    }
    UsedAtMost(l, others, false, bound - f);
    UsedBeside(l, p.slots, k, false);
  }

  lemma WorkMustFit(l: Limits, totals: iset<nat>, concurrency: nat, bound: nat) returns (p: Pod)
    requires concurrency > 0 && !WorkFits(l, totals, concurrency, bound)
    ensures Reachable(l, totals, concurrency, p) && Used(l, p.slots, false) > bound
  {
    if small :| small in totals && l.Passes(small) && !l.IsLarge(small) && concurrency * l.Footprint(small) > bound {
      var s := Working(small, false);
      AllAtWork(l, totals, concurrency, concurrency, small);
      p := Pod(Filled(concurrency, concurrency, s), false);
      UsedAlike(l, p.slots, s, false);
    } else if large :| large in totals && l.Passes(large) && l.IsLarge(large) && l.Footprint(large) > bound {
      p := OneLargeAtWork(l, totals, concurrency, large, 0, 0);
    } else {
      var large, small :| large in totals && l.Passes(large) && l.IsLarge(large)
                          && small in totals && l.Passes(small) && !l.IsLarge(small)
                          && l.Footprint(large) + (concurrency - 1) * l.Footprint(small) > bound;
      p := OneLargeAtWork(l, totals, concurrency, large, concurrency - 1, small);
    }
  }

  /** Exactly what the handlers past the guard use: they stay within a bound if and only if the small jobs that the
      guard lets pass would in every slot, and each large one beside such jobs in every other. */
  lemma WorkingBound(l: Limits, totals: iset<nat>, concurrency: nat, bound: nat)
    requires concurrency > 0
    ensures (forall p :: Reachable(l, totals, concurrency, p) ==> Used(l, p.slots, false) <= bound)
            <==> WorkFits(l, totals, concurrency, bound)
  {
    if WorkFits(l, totals, concurrency, bound) {
      forall p | Reachable(l, totals, concurrency, p)
        ensures Used(l, p.slots, false) <= bound
      {
        InvHolds(l, totals, concurrency, p);
        if p.largeTaken {
          SomethingLargeAtWork(l, totals, concurrency, bound, p);
        } else {
          NothingLargeAtWork(l, totals, concurrency, bound, p);
        }
      }
    } else {
      var p := WorkMustFit(l, totals, concurrency, bound);
    }
  }

  // ------------------------------------------------------------ In terms of the configuration

  /** The most a job that is not large may use. */
  function SmallMost(l: Limits): nat {
    var f := l.Footprint(Positive(l.threshold));
    if f < Positive(l.budget) then f else Positive(l.budget)
  }

  /** One budget, and the largest small job for every other slot. */
  function Planned(l: Limits, concurrency: nat): nat
    requires concurrency > 0
  {
    Positive(l.budget) + (concurrency - 1) * SmallMost(l)
  }

  lemma SmallFits(l: Limits, concurrency: nat, total: nat)
    requires concurrency > 0 && l.Honest(total) && l.Passes(total) && !l.IsLarge(total)
    ensures l.Footprint(total) <= SmallMost(l)
    ensures concurrency * l.Footprint(total) <= Planned(l, concurrency)
    ensures (concurrency - 1) * l.Footprint(total) <= (concurrency - 1) * SmallMost(l)
  {
    FootprintGrows(l, total, Positive(l.threshold));
    ProductGrows(concurrency - 1, l.Footprint(total), SmallMost(l));
    assert concurrency * l.Footprint(total) == l.Footprint(total) + (concurrency - 1) * l.Footprint(total);
  }

  /** In every reachable state, for any limits, the handlers past an undeceived guard may together use at most one
      budget plus the largest small job for every other slot. */
  lemma ScratchBound(l: Limits, totals: iset<nat>, concurrency: nat, p: Pod)
    requires concurrency > 0 && Reachable(l, totals, concurrency, p)
    requires forall total :: total in totals ==> l.Honest(total)
    ensures Used(l, p.slots, false) <= Planned(l, concurrency)
  {
    forall total | total in totals && l.Passes(total) && !l.IsLarge(total)
      ensures concurrency * l.Footprint(total) <= Planned(l, concurrency)
      ensures (concurrency - 1) * l.Footprint(total) <= (concurrency - 1) * SmallMost(l)
    {
      SmallFits(l, concurrency, total);
    }
    assert (concurrency - 1) * SmallMost(l) >= 0;
    WorkingBound(l, totals, concurrency, Planned(l, concurrency));
  }

  /** The same bound in the configured terms. */
  lemma ScratchBoundConfigured(l: Limits, totals: iset<nat>, concurrency: nat, p: Pod)
    requires concurrency > 0 && Reachable(l, totals, concurrency, p)
    requires forall total :: total in totals ==> l.Honest(total)
    requires l.budget >= 0 && l.threshold >= 0
    ensures Used(l, p.slots, false) <= l.budget + (concurrency - 1) * l.Footprint(l.threshold)
  {
    ScratchBound(l, totals, concurrency, p);
    ProductGrows(concurrency - 1, SmallMost(l), l.Footprint(l.threshold));
  }

  /** The disk keeps to the same bound exactly if every slot could hold a large job that passes the guard. */
  lemma DiskKeepsBoundIff(l: Limits, totals: iset<nat>, concurrency: nat)
    requires concurrency > 0 && forall total :: total in totals ==> l.Honest(total)
    ensures (forall p :: Reachable(l, totals, concurrency, p) ==> Used(l, p.slots, true) <= Planned(l, concurrency))
            <==> (forall total :: total in totals && l.Passes(total) && l.IsLarge(total) ==>
                    concurrency * l.Footprint(total) <= Planned(l, concurrency))
  {
    forall total | total in totals && l.Passes(total) && !l.IsLarge(total)
      ensures concurrency * l.Footprint(total) <= Planned(l, concurrency)
    {
      SmallFits(l, concurrency, total);
    }
    DiskBound(l, totals, concurrency, Planned(l, concurrency));
  }

  const MIB := 0x10_0000

  ghost function MeasurableTotals(l: Limits): iset<nat> {
    iset total: nat | l.Measurable(total)
  }

  /** With the default limits that is so for one handler slot only. */
  lemma DefaultsNeedOneSlot(concurrency: nat)
    requires concurrency > 0
    ensures var l := Limits(900 * MIB, 100 * MIB, 200);
            (forall p :: Reachable(l, MeasurableTotals(l), concurrency, p) ==>
               Used(l, p.slots, true) <= Planned(l, concurrency))
            <==> concurrency == 1
  {
    var l := Limits(900 * MIB, 100 * MIB, 200);
    var totals := MeasurableTotals(l);
    forall total | total in totals
      ensures l.Honest(total)
    {
      MeasurableIsHonest(l, total);
    }
    DiskKeepsBoundIff(l, totals, concurrency);
    assert l.Measurable(300 * MIB) && l.Passes(300 * MIB) && l.IsLarge(300 * MIB) && SmallMost(l) == 300 * MIB;
  }

  /** Every job past the guard fits the budget, in every run on these totals, exactly if none of them deceives it. */
  lemma GuardedIffHonest(l: Limits, totals: iset<nat>, concurrency: nat)
    requires concurrency > 0
    ensures (forall p, i :: Reachable(l, totals, concurrency, p) && 0 <= i < |p.slots| && Passed(p.slots[i]) ==>
               l.Footprint(p.slots[i].total) <= Positive(l.budget) && p.slots[i].total < HALF)
            <==> (forall total :: total in totals ==> l.Honest(total))
  {
    forall p, i | Reachable(l, totals, concurrency, p) && 0 <= i < |p.slots| && Passed(p.slots[i])
      ensures p.slots[i].total in totals && l.Passes(p.slots[i].total)
    {
      InvHolds(l, totals, concurrency, p);
      assert SlotOk(l, totals, p.slots[i]);
    }
    if total :| total in totals && !l.Honest(total) {
      IdleReachable(l, totals, concurrency);
      var p := Leaves(l, totals, concurrency, Idle(concurrency), 0, total);
      assert Passed(p.slots[0]);
    }
  }
}
