/** Which jobs can still be taken out of `completed`, told from the state alone; and that careful redrives threaten no
    job. */
module DeliveryThreat {
  import opened Wrappers
  import opened Delivery
  import opened DeliveryInvariant

  /** One more way for a job to come to a handler: a message, a redrive's copy of an entry not yet republished, or an
      entry that a careful redrive may still fetch. */
  datatype Chance = OfMessage(m: MsgId) | OfCopy(r: nat, k: nat) | OfEntry(s: Seq)

  /** Redrive v has yet to republish entry k of its batch. */
  predicate Copy(v: Redrive, k: nat) {
    v.i <= k < |v.batch| && (k == v.i ==> !v.published)
  }

  ghost predicate IsChance(msgs: map<MsgId, Message>, dlq: map<Seq, Entry>, republished: set<Seq>,
                           redrives: map<nat, Redrive>, c: Chance, j: JobId)
  {
    match c
    case OfMessage(m) => m in msgs && LiveMessage(msgs[m], j)
    case OfCopy(r, k) => r in redrives && Copy(redrives[r], k) && redrives[r].batch[k].1.job == j
    case OfEntry(s) => s in dlq && dlq[s].job == j && s !in republished && !Held(redrives, s)
  }

  ghost predicate Has(w: World, c: Chance, j: JobId) {
    IsChance(w.msgs, w.dlq, w.republished, w.redrives, c, j)
  }

  /** This handler has passed the status check and may write another status than completed. */
  predicate HotPc(pc: Pc) {
    pc.Starting? || pc.Working? || pc.Recording? || pc.Inserting? || pc.Failing?
  }

  predicate Hot(msgs: map<MsgId, Message>, c: Chance) {
    c.OfMessage? && c.m in msgs && msgs[c.m].place.InFlight? && HotPc(msgs[c.m].place.pc)
  }

  predicate Finishing(msgs: map<MsgId, Message>, c: Chance) {
    c.OfMessage? && c.m in msgs && msgs[c.m].place.InFlight? && msgs[c.m].place.pc.Completing?
  }

  /** Completed while a handler works on it, in process with a second chance beside a working handler, or waiting with
      two chances that are not both about to complete it. */
  ghost predicate Threatened(w: World, j: JobId) {
    && j in w.jobs
    && match w.jobs[j]
       case Completed => exists c :: Has(w, c, j) && Hot(w.msgs, c)
       case Processing => exists c, d :: Has(w, c, j) && Has(w, d, j) && c != d && Hot(w.msgs, c)
       case _ => exists c, d :: Has(w, c, j) && Has(w, d, j) && c != d && !Finishing(w.msgs, c)
  }

  // ------------------------------------------------------------ Steps that give no chance

  /** Every chance of job j after the step was one before it, and no two were the same. */
  ghost predicate NoNewChance(w: World, w': World, j: JobId, was: Chance -> Chance) {
    && (forall c :: Has(w', c, j) ==> Has(w, was(c), j))
    && (forall c, d :: Has(w', c, j) && Has(w', d, j) && was(c) == was(d) ==> c == d)
  }

  ghost predicate SameHeat(w: World, w': World, j: JobId, was: Chance -> Chance) {
    forall c :: Has(w', c, j) ==>
      && (Hot(w'.msgs, c) ==> Hot(w.msgs, was(c)))
      && (Finishing(w.msgs, was(c)) ==> Finishing(w'.msgs, c))
  }

  /** A step that leaves the status alone and makes no chance threatens nobody. */
  lemma StaysCalm(w: World, w': World, j: JobId, was: Chance -> Chance)
    requires j in w'.jobs ==> j in w.jobs && w.jobs[j] == w'.jobs[j]
    requires NoNewChance(w, w', j, was) && SameHeat(w, w', j, was)
    ensures Threatened(w', j) ==> Threatened(w, j)
  {
    if Threatened(w', j) {
      if w'.jobs[j] == Completed {
        var c :| Has(w', c, j) && Hot(w'.msgs, c);
        assert Has(w, was(c), j);
      } else {
        var c, d :| Has(w', c, j) && Has(w', d, j) && c != d
                    && (if w'.jobs[j] == Processing then Hot(w'.msgs, c) else !Finishing(w'.msgs, c));
        assert Has(w, was(c), j) && Has(w, was(d), j);
      }
    }
  }

  lemma ChanceAllowed(w: World, c: Chance, j: JobId)
    requires Inv(w) && Has(w, c, j)
    ensures AllowedJob(w.dispatched, j)
  {
    match c
    case OfMessage(m) => assert PayloadOk(w.dispatched, w.msgs[m].payload);
    case OfCopy(r, k) => assert BatchOk(w.dlq, w.nextSeq, w.dispatched, w.redrives[r]);
    case OfEntry(s) =>
  }

  /** Steps that leave messages, stream and redrives alone, or add or deliver one message that is no chance of j. */
  lemma MessageStepIsCalm(w: World, w': World, m: MsgId, j: JobId)
    requires w'.dlq == w.dlq && w'.republished == w.republished && w'.redrives == w.redrives
    requires forall n :: n in w'.msgs && n != m ==> n in w.msgs && w.msgs[n] == w'.msgs[n]
    requires m in w'.msgs && LiveMessage(w'.msgs[m], j) ==> m in w.msgs && LiveMessage(w.msgs[m], j)
    requires m in w.msgs && m in w'.msgs && w.msgs[m] != w'.msgs[m] ==>
               w.msgs[m].place.Pending? && w'.msgs[m].place == InFlight(Received)
    requires m !in w.msgs && m in w'.msgs ==> w'.msgs[m].place.Pending?
    requires j in w'.jobs ==> j in w.jobs && w.jobs[j] == w'.jobs[j]
    ensures Threatened(w', j) ==> Threatened(w, j)
  {
    StaysCalm(w, w', j, c => c);
  }

  lemma HeldStays(redrives: map<nat, Redrive>, r: nat, v: Redrive, s: Seq)
    requires r !in redrives || (Holds(redrives[r], s) ==> Holds(v, s))
    ensures Held(redrives, s) ==> Held(redrives[r := v], s)
  {
    if Held(redrives, s) {
      var q :| q in redrives && Holds(redrives[q], s);
      assert Holds(redrives[r := v][q], s);
    }
  }

  lemma FetchIsHeld(redrives: map<nat, Redrive>, r: nat, batch: seq<(Seq, Entry)>, k: nat)
    requires k < |batch|
    ensures Held(redrives[r := Redrive(batch, 0, false)], batch[k].0)
  {
    assert Holds(redrives[r := Redrive(batch, 0, false)][r], batch[k].0);
  }

  /** A copy of this fetch was the entry it was fetched from. */
  function BeforeFetch(r: nat, batch: seq<(Seq, Entry)>, c: Chance): Chance {
    if c.OfCopy? && c.r == r && c.k < |batch| then OfEntry(batch[c.k].0) else c
  }

  lemma FetchIsCalm(w: World, r: nat, batch: seq<(Seq, Entry)>, j: JobId)
    requires r !in w.redrives && Fetched(w, batch) && CarefulStep(w, StartRedrive(r, batch))
    ensures Threatened(w.(redrives := w.redrives[r := Redrive(batch, 0, false)]), j) ==> Threatened(w, j)
  {
    var w' := w.(redrives := w.redrives[r := Redrive(batch, 0, false)]);
    var was := c => BeforeFetch(r, batch, c);
    forall c | Has(w', c, j)
      ensures Has(w, was(c), j)
      ensures c.OfEntry? ==> forall k :: 0 <= k < |batch| ==> batch[k].0 != c.s
    {
      if c.OfEntry? {
        HeldStays(w.redrives, r, Redrive(batch, 0, false), c.s);
        forall k | 0 <= k < |batch|
          ensures batch[k].0 != c.s
        {
          FetchIsHeld(w.redrives, r, batch, k);
        }
      }
    }
    StaysCalm(w, w', j, was);
  }

  /** The chance that the current copy of redrive r turns into. */
  function BeforeMove(r: nat, i: nat, moved: Chance, c: Chance): Chance {
    if c == moved then OfCopy(r, i) else c
  }

  lemma RepublishIsCalm(w: World, r: nat, j: JobId)
    requires Inv(w) && Enabled(w, Republish(r, true))
    ensures Threatened(Apply(w, Republish(r, true)), j) ==> Threatened(w, j)
  {
    var w', v := Apply(w, Republish(r, true)), w.redrives[r];
    var was := c => BeforeMove(r, v.i, OfMessage(w.nextMsg), c);
    assert w.nextMsg !in w.msgs;
    forall c | Has(w', c, j)
      ensures Has(w, was(c), j) && c != OfCopy(r, v.i)
    {
      if c.OfEntry? {
        HeldStays(w.redrives, r, v.(published := true), c.s);
      }
    }
    StaysCalm(w, w', j, was);
  }

  /** A redrive that moves on lets go of one entry only. */
  lemma HeldAfterAdvance(redrives: map<nat, Redrive>, r: nat, s: Seq)
    requires r in redrives && redrives[r].i < |redrives[r].batch| && redrives[r].batch[redrives[r].i].0 != s
    ensures Held(redrives, s) ==> Held(Advance(redrives, r), s)
  {
    if Held(redrives, s) {
      var q :| q in redrives && Holds(redrives[q], s);
      var k :| redrives[q].i <= k < |redrives[q].batch| && redrives[q].batch[k].0 == s;
      assert q in Advance(redrives, r) && Advance(redrives, r)[q].batch[k].0 == s;
      assert Holds(Advance(redrives, r)[q], s);
    }
  }

  /** Moving on, with or without a delete, leaves the entry to another fetch at most if it was not republished. */
  lemma AdvanceIsCalm(w: World, r: nat, dlq': map<Seq, Entry>, j: JobId)
    requires Inv(w) && r in w.redrives
    requires dlq' == w.dlq || dlq' == w.dlq - {w.redrives[r].batch[w.redrives[r].i].0}
    ensures Threatened(w.(redrives := Advance(w.redrives, r), dlq := dlq'), j) ==> Threatened(w, j)
  {
    var w', v := w.(redrives := Advance(w.redrives, r), dlq := dlq'), w.redrives[r];
    assert BatchOk(w.dlq, w.nextSeq, w.dispatched, v);
    var s := v.batch[v.i].0;
    var was := c => BeforeMove(r, v.i, OfEntry(s), c);
    assert Holds(v, s);
    forall c | Has(w', c, j)
      ensures Has(w, was(c), j) && c != OfCopy(r, v.i)
    {
      if c.OfEntry? && c.s != s {
        HeldAfterAdvance(w.redrives, r, c.s);
      }
    }
    StaysCalm(w, w', j, was);
  }

  /** A new job has no chance, and a dispatched one has one. */
  lemma NewJobsAreCalm(w: World, step: Step, j: JobId)
    requires Inv(w) && Enabled(w, step) && (step.CreateJob? || step.Dispatch?) && step.job == j
    ensures !Threatened(Apply(w, step), j)
  {
    var w' := Apply(w, step);
    forall c | Has(w', c, j)
      ensures step.Dispatch? && c == OfMessage(w.nextMsg)
    {
      if Has(w, c, j) {
        ChanceAllowed(w, c, j);
      }
    }
  }

  // ------------------------------------------------------------ Handler steps

  /** A dead-letter entry that a handler step makes was its message. */
  function BeforeHandle(m: MsgId, next: Seq, c: Chance): Chance {
    if c == OfEntry(next) then OfMessage(m) else c
  }

  lemma HandlerMakesNoChance(w: World, m: MsgId, act: Act, j: JobId)
    requires Inv(w) && Enabled(w, Handle(m, act))
    ensures NoNewChance(w, RunHandler(w, m, act), j, c => BeforeHandle(m, w.nextSeq, c))
  {
    var w' := RunHandler(w, m, act);
    assert MessageOk(w.msgs[m]);
    forall c | Has(w', c, j)
      ensures Has(w, BeforeHandle(m, w.nextSeq, c), j)
      ensures c == OfEntry(w.nextSeq) ==> !Has(w', OfMessage(m), j)
    {
    }
  }

  /** A handler of another job, or of one this service does not serve. */
  lemma OtherHandlerIsCalm(w: World, m: MsgId, act: Act, j: JobId)
    requires Inv(w) && Enabled(w, Handle(m, act)) && !LiveMessage(w.msgs[m], j)
    ensures Threatened(RunHandler(w, m, act), j) ==> Threatened(w, j)
  {
    var w', msg := RunHandler(w, m, act), w.msgs[m];
    var was := c => BeforeHandle(m, w.nextSeq, c);
    HandlerMakesNoChance(w, m, act, j);
    HandlerJobKeys(w.jobs, msg.place.pc, msg.deliveries, act);
    assert MessageOk(msg) && PayloadOk(w.dispatched, msg.payload);
    if j in w.jobs && w'.jobs[j] != w.jobs[j] {
      HandlerWrites(w.jobs, msg, act, j);
      forall c
        ensures !Has(w', c, j)
      {
        if Has(w', c, j) {
          ChanceAllowed(w, was(c), j);
        }
      }
    } else {
      assert forall c :: Has(w', c, j) ==> was(c) != OfMessage(m);
      StaysCalm(w, w', j, was);
    }
  }

  /** What a handler step of message m does to the status of its job and to its own heat. */
  lemma OwnStep(jobs: map<JobId, Status>, msg: Message, act: Act, j: JobId)
    requires MessageOk(msg) && LiveMessage(msg, j) && msg.place.InFlight? && Choice(msg.place.pc, act) && j in jobs
    ensures var pc, s := msg.place.pc, NextJobs(jobs, msg.place.pc, msg.deliveries, act);
            var next := NextMessage(jobs, msg, act).place;
            && j in s
            && (pc.Completing? ==> s[j] == Completed && next == InFlight(Acking))
            && (HotPc(pc) ==> s[j] == Processing || s[j] == jobs[j] || s[j] == Queued || s[j] == Failed)
            && (!pc.Completing? && !HotPc(pc) ==> s[j] == jobs[j])
            && (!HotPc(pc) && next.InFlight? && HotPc(next.pc) ==> jobs[j] == Queued || jobs[j] == Failed)
            && (!HotPc(pc) && next.InFlight? ==> !next.pc.Completing?)
  {
  }

  /** Two chances of which one is not about to complete the job threaten it, whatever its status, if that one is hot. */
  lemma HotThreatens(w: World, c: Chance, d: Chance, j: JobId)
    requires j in w.jobs && Has(w, c, j) && Hot(w.msgs, c) && (w.jobs[j] == Completed || (Has(w, d, j) && c != d))
    ensures Threatened(w, j)
  {
  }

  /** The chances that make a threat, and what they were before the step. */
  lemma ThreatBefore(w: World, w': World, j: JobId, was: Chance -> Chance) returns (c: Chance, d: Chance)
    requires NoNewChance(w, w', j, was) && Threatened(w', j)
    ensures Has(w', c, j) && Has(w, was(c), j)
    ensures w'.jobs[j] == Completed || w'.jobs[j] == Processing ==> Hot(w'.msgs, c)
    ensures w'.jobs[j] != Completed ==> Has(w, d, j) && d != was(c) && !Finishing(w'.msgs, c)
  {
    if w'.jobs[j] == Completed {
      c :| Has(w', c, j) && Hot(w'.msgs, c);
      d := c;
    } else {
      var e;
      c, e :| Has(w', c, j) && Has(w', e, j) && c != e
              && (if w'.jobs[j] == Processing then Hot(w'.msgs, c) else !Finishing(w'.msgs, c));
      d := was(e);
    }
  }

  lemma OwnMoveIsCalm(w: World, w': World, m: MsgId, act: Act, j: JobId, was: Chance -> Chance)
    requires m in w.msgs && MessageOk(w.msgs[m]) && w.msgs[m].place.InFlight? && Choice(w.msgs[m].place.pc, act)
    requires w'.msgs == w.msgs[m := NextMessage(w.jobs, w.msgs[m], act)]
    requires w'.jobs == NextJobs(w.jobs, w.msgs[m].place.pc, w.msgs[m].deliveries, act)
    requires LiveMessage(w.msgs[m], j) && NoNewChance(w, w', j, was) && Threatened(w', j)
    requires forall c :: was(c) == c || (c.OfEntry? && was(c) == OfMessage(m))
    ensures Threatened(w, j)
  {
    var msg := w.msgs[m];
    var c, d := ThreatBefore(w, w', j, was);
    HandlerJobKeys(w.jobs, msg.place.pc, msg.deliveries, act);
    assert Has(w, OfMessage(m), j);
    OwnStep(w.jobs, msg, act, j);
    if HotPc(msg.place.pc) {
      HotThreatens(w, OfMessage(m), if was(c) == OfMessage(m) then d else was(c), j);
    } else if msg.place.pc.Completing? {
      HotThreatens(w, c, OfMessage(m), j);
    } else {
      assert !Finishing(w.msgs, OfMessage(m));
    }
  }

  lemma OwnHandlerIsCalm(w: World, m: MsgId, act: Act, j: JobId)
    requires Inv(w) && Enabled(w, Handle(m, act)) && LiveMessage(w.msgs[m], j)
    requires Threatened(RunHandler(w, m, act), j)
    ensures Threatened(w, j)
  {
    HandlerMakesNoChance(w, m, act, j);
    OwnMoveIsCalm(w, RunHandler(w, m, act), m, act, j, c => BeforeHandle(m, w.nextSeq, c));
  }

  // ------------------------------------------------------------ All steps

  lemma QuietStepIsCalm(w: World, step: Step, j: JobId)
    requires Inv(w) && Enabled(w, step)
    requires !step.Handle? && !step.StartRedrive? && !step.Republish? && !step.DeleteEntry?
    requires !((step.CreateJob? || step.Dispatch?) && step.job == j)
    ensures Threatened(Apply(w, step), j) ==> Threatened(w, j)
  {
    var w' := Apply(w, step);
    assert w.nextMsg !in w.msgs;
    MessageStepIsCalm(w, w', if step.Deliver? then step.m else w.nextMsg, j);
  }

  lemma CarefulStepIsCalm(w: World, step: Step, j: JobId)
    requires Inv(w) && Enabled(w, step) && CarefulStep(w, step)
    ensures Threatened(Apply(w, step), j) ==> Threatened(w, j)
  {
    if (step.CreateJob? || step.Dispatch?) && step.job == j {
      NewJobsAreCalm(w, step, j);
      return;
    }
    match step
    case Handle(m, act) =>
      if Threatened(RunHandler(w, m, act), j) {
        if LiveMessage(w.msgs[m], j) {
          OwnHandlerIsCalm(w, m, act, j);
        } else {
          OtherHandlerIsCalm(w, m, act, j);
        }
      }
    case StartRedrive(r, batch) => FetchIsCalm(w, r, batch, j);
    case Republish(r, ok) =>
      if ok {
        RepublishIsCalm(w, r, j);
      } else {
        AdvanceIsCalm(w, r, w.dlq, j);
      }
    case DeleteEntry(r, ok) =>
      AdvanceIsCalm(w, r, if ok then w.dlq - {w.redrives[r].batch[w.redrives[r].i].0} else w.dlq, j);
    case _ => QuietStepIsCalm(w, step, j);
  }

  lemma HandlerKeepsUnthreatened(w: World, m: MsgId, act: Act, j: JobId)
    requires Inv(w) && Enabled(w, Handle(m, act)) && j in w.jobs && w.jobs[j] == Completed && !Threatened(w, j)
    ensures NextJobs(w.jobs, w.msgs[m].place.pc, w.msgs[m].deliveries, act)[j] == Completed
  {
    var msg := w.msgs[m];
    assert MessageOk(msg) && PayloadOk(w.dispatched, msg.payload);
    if LiveMessage(msg, j) {
      assert Has(w, OfMessage(m), j);
      OwnStep(w.jobs, msg, act, j);
    } else if NextJobs(w.jobs, msg.place.pc, msg.deliveries, act)[j] != Completed {
      HandlerWrites(w.jobs, msg, act, j);
    }
  }

  /** A step takes a job out of `completed` only if it is threatened. */
  lemma CompletedUnlessThreatened(w: World, step: Step, j: JobId)
    requires Inv(w) && Enabled(w, step) && j in w.jobs && w.jobs[j] == Completed && !Threatened(w, j)
    ensures j in Apply(w, step).jobs ==> Apply(w, step).jobs[j] == Completed
  {
    if step.Handle? {
      HandlerKeepsUnthreatened(w, step.m, step.act, j);
    }
  }
}
