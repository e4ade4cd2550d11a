/** What a redrive may fetch without putting a completed job at risk, exactly; and two runs in which a careless fetch
    undoes a completion. */
module DeliveryRedrives {
  import opened Wrappers
  import opened Delivery
  import opened DeliveryInvariant
  import opened DeliveryCareful
  import opened DeliveryThreat
  import opened DeliveryUndone

  /** Entry k of the batch is of job j, and was republished before or is held by a running redrive. */
  ghost predicate Careless(w: World, batch: seq<(Seq, Entry)>, k: int, j: JobId) {
    && 0 <= k < |batch| && batch[k].1.job == j
    && (batch[k].0 in w.republished || Held(w.redrives, batch[k].0))
  }

  /** The fetch carelessly gives an uncompleted job one chance beside one that may still fail or wait, or gives a
      waiting job two. */
  ghost predicate Risky(w: World, batch: seq<(Seq, Entry)>, j: JobId) {
    && j in w.jobs && w.jobs[j] != Completed
    && exists k :: Careless(w, batch, k, j)
         && (|| (exists c :: Has(w, c, j) && !Finishing(w.msgs, c))
             || (w.jobs[j] != Processing && exists l :: l != k && Careless(w, batch, l, j)))
  }

  // ------------------------------------------------------------ One chance each

  function TokenOf(redrives: map<nat, Redrive>, c: Chance): Token {
    match c
    case OfMessage(m) => InQueue(m)
    case OfEntry(s) => InDlq(s)
    case OfCopy(r, k) => if r in redrives && k < |redrives[r].batch| then InDlq(redrives[r].batch[k].0) else InDlq(0)
  }

  lemma ChanceIsToken(w: World, c: Chance, j: JobId)
    requires CarefulInv(w) && Has(w, c, j)
    ensures IsToken(w.msgs, w.dlq, w.republished, TokenOf(w.redrives, c), j)
  {
    if c.OfCopy? {
      assert BatchOk(w.dlq, w.nextSeq, w.dispatched, w.redrives[c.r]);
    }
  }

  /** With careful redrives a job has one chance at most. */
  lemma OneChance(w: World, c: Chance, d: Chance, j: JobId)
    requires CarefulInv(w) && Has(w, c, j) && Has(w, d, j)
    ensures c == d
  {
    ChanceIsToken(w, c, j);
    ChanceIsToken(w, d, j);
    assert TokenOf(w.redrives, c) == TokenOf(w.redrives, d);
    if c.OfCopy? {
      assert BatchOk(w.dlq, w.nextSeq, w.dispatched, w.redrives[c.r]);
      assert Holds(w.redrives[c.r], w.redrives[c.r].batch[c.k].0);
    }
    if d.OfCopy? {
      assert Holds(w.redrives[d.r], w.redrives[d.r].batch[d.k].0);
    }
  }

  /** A waiting job's chance is not about to complete it; one in process is worked on. */
  lemma ChanceFits(w: World, c: Chance, j: JobId)
    requires CarefulInv(w) && Has(w, c, j) && j in w.jobs
    ensures w.jobs[j] == Processing ==> Hot(w.msgs, c) || Finishing(w.msgs, c)
    ensures w.jobs[j] != Processing ==> !Finishing(w.msgs, c)
  {
    if c.OfMessage? {
      assert MessageOk(w.msgs[c.m]);
      ChanceIsToken(w, c, j);
      assert Fits(w.msgs, InQueue(c.m), w.jobs[j]);
    }
    if w.jobs[j] == Processing {
      var m :| m in w.msgs && BusyMessage(w.msgs[m], j);
      assert MessageOk(w.msgs[m]);
      assert Has(w, OfMessage(m), j);
      OneChance(w, c, OfMessage(m), j);
    }
  }

  ghost predicate Single(w: World, j: JobId) {
    && (forall c, d :: Has(w, c, j) && Has(w, d, j) ==> c == d)
    && (j in w.jobs ==> forall c :: Has(w, c, j) ==>
          if w.jobs[j] == Processing then Hot(w.msgs, c) || Finishing(w.msgs, c) else !Finishing(w.msgs, c))
  }

  lemma CarefulIsSingle(w: World, j: JobId)
    requires CarefulInv(w)
    ensures Single(w, j)
  {
    forall c | Has(w, c, j) && j in w.jobs
      ensures if w.jobs[j] == Processing then Hot(w.msgs, c) || Finishing(w.msgs, c) else !Finishing(w.msgs, c)
    {
      ChanceFits(w, c, j);
    }
    forall c, d | Has(w, c, j) && Has(w, d, j)
      ensures c == d
    {
      OneChance(w, c, d, j);
    }
  }

  // ------------------------------------------------------------ What a fetch does

  function Fetch(w: World, r: nat, batch: seq<(Seq, Entry)>): World {
    w.(redrives := w.redrives[r := Redrive(batch, 0, false)])
  }

  /** A chance after a fetch is a careless copy or was a chance before. */
  lemma ChanceBefore(w: World, r: nat, batch: seq<(Seq, Entry)>, c: Chance, j: JobId)
    requires r !in w.redrives && Fetched(w, batch) && Has(Fetch(w, r, batch), c, j)
    ensures (c.OfCopy? && c.r == r && Careless(w, batch, c.k, j)) || Has(w, BeforeFetch(r, batch, c), j)
  {
    if c.OfEntry? {
      HeldStays(w.redrives, r, Redrive(batch, 0, false), c.s);
    }
  }

  /** Two chances that were one before are one now. */
  lemma StillTwo(w: World, r: nat, batch: seq<(Seq, Entry)>, c: Chance, d: Chance, j: JobId)
    requires r !in w.redrives && Fetched(w, batch) && Has(Fetch(w, r, batch), c, j) && Has(Fetch(w, r, batch), d, j)
    requires BeforeFetch(r, batch, c) == BeforeFetch(r, batch, d)
    ensures c == d
  {
    forall k | 0 <= k < |batch|
      ensures Held(Fetch(w, r, batch).redrives, batch[k].0)
    {
      FetchIsHeld(w.redrives, r, batch, k);
    }
  }

  /** What becomes of a chance when entry k of the batch is careless: it is still there, apart from that copy. */
  lemma ChanceAfter(w: World, r: nat, batch: seq<(Seq, Entry)>, k: int, c: Chance, j: JobId) returns (c': Chance)
    requires r !in w.redrives && Fetched(w, batch) && Careless(w, batch, k, j) && Has(w, c, j)
    ensures Has(Fetch(w, r, batch), c', j) && c' != OfCopy(r, k)
    ensures c.OfMessage? ==> c' == c
    ensures !c'.OfMessage? || c' == c
  {
    c' := c;
    if c.OfEntry? {
      if l :| 0 <= l < |batch| && batch[l].0 == c.s {
        c' := OfCopy(r, l);
      } else {
        UnheldByOthers(w.redrives, r, Redrive(batch, 0, false), c.s);
      }
    }
  }

  lemma RiskyIsThreat(w: World, r: nat, batch: seq<(Seq, Entry)>, j: JobId)
    requires Single(w, j) && r !in w.redrives && Fetched(w, batch) && Risky(w, batch, j)
    ensures Threatened(Fetch(w, r, batch), j)
  {
    var w' := Fetch(w, r, batch);
    var k :| Careless(w, batch, k, j)
             && (|| (exists c :: Has(w, c, j) && !Finishing(w.msgs, c))
                 || (w.jobs[j] != Processing && exists l :: l != k && Careless(w, batch, l, j)));
    assert Has(w', OfCopy(r, k), j);
    if c :| Has(w, c, j) && !Finishing(w.msgs, c) {
      var c' := ChanceAfter(w, r, batch, k, c, j);
      assert Has(w', c', j) && !Finishing(w'.msgs, c');
      assert w.jobs[j] == Processing ==> Hot(w'.msgs, c');
    } else {
      var l :| l != k && Careless(w, batch, l, j);
      assert Has(w', OfCopy(r, l), j);
    }
  }

  lemma TwoAreRisky(w: World, r: nat, batch: seq<(Seq, Entry)>, c: Chance, d: Chance, j: JobId)
    requires Single(w, j) && r !in w.redrives && Fetched(w, batch) && j in w.jobs && w.jobs[j] != Completed
    requires Has(Fetch(w, r, batch), c, j) && Has(Fetch(w, r, batch), d, j) && c != d
    requires if w.jobs[j] == Processing then Hot(w.msgs, c) else !Finishing(w.msgs, c)
    ensures Risky(w, batch, j)
  {
    var c0, d0 := BeforeFetch(r, batch, c), BeforeFetch(r, batch, d);
    ChanceBefore(w, r, batch, c, j);
    ChanceBefore(w, r, batch, d, j);
    if Has(w, c0, j) && Has(w, d0, j) {
      StillTwo(w, r, batch, c, d, j);
    }
  }

  lemma ThreatIsRisky(w: World, r: nat, batch: seq<(Seq, Entry)>, j: JobId)
    requires Single(w, j) && !Threatened(w, j) && r !in w.redrives && Fetched(w, batch)
    requires Threatened(Fetch(w, r, batch), j)
    ensures Risky(w, batch, j)
  {
    var w' := Fetch(w, r, batch);
    if w.jobs[j] != Completed {
      var c, d :| Has(w', c, j) && Has(w', d, j) && c != d
                  && (if w.jobs[j] == Processing then Hot(w'.msgs, c) else !Finishing(w'.msgs, c));
      TwoAreRisky(w, r, batch, c, d, j);
    }
  }

  /** While redrives have been careful, the next fetch, and careful redrives after it, can undo the completion of job j
      exactly if it is risky for j. */
  lemma FetchUndoesIffRisky(w: World, r: nat, batch: seq<(Seq, Entry)>, j: JobId)
    requires CarefullyReachable(w) && Enabled(w, StartRedrive(r, batch))
    ensures CanBeUndone(Apply(w, StartRedrive(r, batch)), j) <==> Risky(w, batch, j)
  {
    assert Single(w, j) by {
      CarefulInvHolds(w);
      CarefulIsSingle(w, j);
    }
    CarefulRunsThreatenNobody(w, j);
    assert Reachable(Fetch(w, r, batch)) by {
      var steps :| Legal(Empty, steps) && Careful(Empty, steps) && Exec(Empty, steps) == w;
      RunSnoc(Empty, steps, StartRedrive(r, batch));
    }
    UndoneIffThreatened(Fetch(w, r, batch), j);
    if Risky(w, batch, j) {
      RiskyIsThreat(w, r, batch, j);
    } else if Threatened(Fetch(w, r, batch), j) {
      ThreatIsRisky(w, r, batch, j);
    }
  }

  // ------------------------------------------------------------ Two careless fetches

  lemma {:induction false} CarefulSnoc(w: World, steps: seq<Step>, step: Step)
    requires Legal(w, steps) && Careful(w, steps) && Enabled(Exec(w, steps), step) && CarefulStep(Exec(w, steps), step)
    ensures Legal(w, steps + [step]) && Careful(w, steps + [step])
    ensures Exec(w, steps + [step]) == Apply(Exec(w, steps), step)
    decreases |steps|
  {
    if steps == [] {
      assert [step][1..] == [];
    } else {
      CarefulSnoc(Apply(w, steps[0]), steps[1..], step);
      assert (steps + [step])[1..] == steps[1..] + [step];
    }
  }

  lemma Then(w: World, step: Step) returns (w': World)
    requires CarefullyReachable(w) && Enabled(w, step) && CarefulStep(w, step)
    ensures CarefullyReachable(w') && w' == Apply(w, step)
  {
    var steps :| Legal(Empty, steps) && Careful(Empty, steps) && Exec(Empty, steps) == w;
    CarefulSnoc(Empty, steps, step);
    w' := Apply(w, step);
  }

  /** Message 0 of job 0 is at this statement on its first delivery, and there is nothing else. */
  ghost predicate Alone(w: World, pc: Pc, s: Status) {
    && CarefullyReachable(w) && w.msgs == map[0 := Message(Payload(Some(0), true), 1, InFlight(pc), [])]
    && w.jobs == map[0 := s] && w.nextMsg == 1
    && w.dlq == map[] && w.nextSeq == 0 && w.redrives == map[] && w.republished == {}
  }

  lemma Delivered() returns (w: World)
    ensures Alone(w, Received, Queued)
  {
    assert Legal(Empty, []) && Careful(Empty, []) && Exec(Empty, []) == Empty;
    w := Then(Empty, CreateJob(0));
    w := Then(w, Dispatch(0, true));
    w := Then(w, Deliver(0));
  }

  lemma MoveAlone(w: World, pc: Pc, s: Status, act: Act) returns (w': World)
    requires Alone(w, pc, s) && Choice(pc, act) && !pc.DeadLettering? && !pc.Acking? && !pc.Naking?
    ensures var msg := Message(Payload(Some(0), true), 1, InFlight(pc), []);
            Alone(w', NextPc(w.jobs, msg, act), NextJobs(map[0 := s], pc, 1, act)[0])
  {
    w' := Then(w, Handle(0, act));
  }

  /** Job 0 has been dispatched, handled, found faulty beyond retry and dead-lettered as entry 0. */
  lemma DeadLettered() returns (w: World)
    ensures CarefullyReachable(w) && w.jobs == map[0 := Failed] && w.dlq == map[0 := Entry(0)]
    ensures w.redrives == map[] && w.republished == {} && w.nextMsg == 1
  {
    w := Delivered();
    w := MoveAlone(w, Received, Queued, Go);
    w := MoveAlone(w, Guarding(0), Queued, Go);
    w := MoveAlone(w, Starting(0), Queued, Go);
    w := MoveAlone(w, Working(0), Processing, Fault(false));
    w := MoveAlone(w, Failing(0, false), Processing, Go);
    w := Then(w, Handle(0, Go));
  }

  /** A redrive has fetched it and not yet republished it. */
  lemma FetchedOnce() returns (w: World)
    ensures CarefullyReachable(w) && w.jobs == map[0 := Failed] && w.dlq == map[0 := Entry(0)] && w.nextMsg == 1
    ensures w.redrives == map[0 := Redrive([(0, Entry(0))], 0, false)] && w.republished == {}
  {
    w := DeadLettered();
    w := Then(w, StartRedrive(0, [(0, Entry(0))]));
  }

  /** A second redrive that fetches the entry before the first is done with it: the job's completion can be undone. */
  lemma ConcurrentFetchUndoesCompletion()
    ensures exists w, batch :: CarefullyReachable(w) && Enabled(w, StartRedrive(1, batch))
              && CanBeUndone(Apply(w, StartRedrive(1, batch)), 0)
  {
    var batch := [(0, Entry(0))];
    var w := FetchedOnce();
    assert Careless(w, batch, 0, 0) by {
      assert Holds(w.redrives[0], 0) by { assert w.redrives[0].batch[0].0 == 0; }
    }
    assert Has(w, OfCopy(0, 0), 0);
    FetchUndoesIffRisky(w, 1, batch, 0);
  }

  /** Redrives one at a time are not enough: a delete that fails leaves a republished entry to the next redrive. */
  lemma FailedDeleteUndoesCompletion()
    ensures exists w, batch :: CarefullyReachable(w) && w.redrives == map[] && Enabled(w, StartRedrive(0, batch))
              && CanBeUndone(Apply(w, StartRedrive(0, batch)), 0)
  {
    var batch := [(0, Entry(0))];
    var w := FetchedOnce();
    w := Then(w, Republish(0, true));
    w := Then(w, DeleteEntry(0, false));
    assert Careless(w, batch, 0, 0);
    assert Has(w, OfMessage(1), 0) && !Finishing(w.msgs, OfMessage(1));
    FetchUndoesIffRisky(w, 0, batch, 0);
  }
}
