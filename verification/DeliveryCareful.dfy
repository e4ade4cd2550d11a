/** Delivery when no dead-letter entry is fetched while another redrive holds it or after it was republished: a job then
    has one token at most, so its status, its output row and the download cache follow its one live handler. */
module DeliveryCareful {
  import opened Wrappers
  import opened Delivery
  import opened DeliveryInvariant

  ghost predicate Unique(msgs: map<MsgId, Message>, dlq: map<Seq, Entry>, republished: set<Seq>) {
    forall t, u, j :: IsToken(msgs, dlq, republished, t, j) && IsToken(msgs, dlq, republished, u, j) ==> t == u
  }

  /** The status a job has while this is its live message. */
  predicate MessageFits(msg: Message, s: Status) {
    match msg.place
    case Pending => s == Queued || (s == Failed && msg.deliveries == 0)
    case Settled => true
    case InFlight(pc) =>
      match pc
      case Received => s == Queued || s == Failed
      case Guarding(_) => s == Queued || s == Failed
      case Starting(_) => s == Queued || s == Failed
      case Naking(_) => s == Queued
      case DeadLettering(_) => s == Failed
      case Refusing(_) => true
      case Acking => true
      case _ => s == Processing
  }

  ghost predicate Fits(msgs: map<MsgId, Message>, t: Token, s: Status) {
    match t
    case InQueue(m) => m in msgs && MessageFits(msgs[m], s)
    case InDlq(_) => s == Failed
  }

  ghost predicate StatusOk(jobs: map<JobId, Status>, msgs: map<MsgId, Message>, dlq: map<Seq, Entry>,
                           republished: set<Seq>)
  {
    forall t, j :: IsToken(msgs, dlq, republished, t, j) && j in jobs ==> Fits(msgs, t, jobs[j])
  }

  /** Each entry is held by one redrive at most, and one still to be republished is in the stream for the first time. */
  ghost predicate HeldOnce(dlq: map<Seq, Entry>, redrives: map<nat, Redrive>, republished: set<Seq>) {
    && (forall r, q, s :: r in redrives && q in redrives && Holds(redrives[r], s) && Holds(redrives[q], s) ==> r == q)
    && (forall r, k :: r in redrives && redrives[r].i <= k < |redrives[r].batch|
                       && (k == redrives[r].i ==> !redrives[r].published)
          ==> redrives[r].batch[k].0 in dlq && redrives[r].batch[k].0 !in republished)
  }

  ghost predicate OutputsOk(w: World) {
    && w.retired <= w.expiring
    && (forall j :: j in w.jobs && w.jobs[j] == Completed && j !in w.expiring ==> |Rows(w.outputs, j)| == 1)
    && (forall m :: m in w.msgs ==> RowsFit(w.outputs, w.expiring, w.msgs[m]))
  }

  /** The output rows between the two statements of recordOutput and the completed update. */
  predicate RowsFit(outputs: map<JobId, seq<OutputRow>>, expiring: set<JobId>, msg: Message) {
    match msg.place
    case InFlight(pc) =>
      (match pc
       case Completing(j) => j !in expiring ==> |Rows(outputs, j)| == 1
       case Inserting(j, _, _) => j !in expiring ==> Rows(outputs, j) == []
       case _ => true)
    case _ => true
  }

  /** This row is the output of job j, as long as j exists and its deletion has not begun. */
  predicate RowCurrent(w: World, j: JobId, row: OutputRow) {
    j in w.created && (j in w.jobs ==> w.jobs[j] == Completed && (j !in w.expiring ==> Rows(w.outputs, j) == [row]))
  }

  ghost predicate CacheOk(w: World) {
    && (forall j :: j in w.outputFileCache ==> RowCurrent(w, j, w.outputFileCache[j]))
    && (forall d :: d in w.downloads ==>
          match w.downloads[d]
          case Checked(j) => j in w.created && (j in w.jobs ==> w.jobs[j] == Completed)
          case Read(j, row) => RowCurrent(w, j, row))
  }

  ghost predicate CarefulInv(w: World) {
    && Inv(w)
    && Unique(w.msgs, w.dlq, w.republished)
    && StatusOk(w.jobs, w.msgs, w.dlq, w.republished)
    && HeldOnce(w.dlq, w.redrives, w.republished)
    && OutputsOk(w)
    && CacheOk(w)
  }

  // ------------------------------------------------------------ Handler steps

  lemma TokensAllowed(w: World, t: Token, j: JobId)
    requires MessagesOk(w.msgs, w.nextMsg, w.dispatched) && EntriesOk(w.dlq, w.nextSeq, w.dispatched)
    requires IsToken(w.msgs, w.dlq, w.republished, t, j)
    ensures AllowedJob(w.dispatched, j)
  {
    match t
    case InQueue(m) => assert PayloadOk(w.dispatched, w.msgs[m].payload);
    case InDlq(s) =>
  }

  /** The only token a handler step makes is the dead-letter entry that replaces its message. */
  lemma HandlerTokens(w: World, m: MsgId, act: Act, t: Token, j: JobId)
    requires m in w.msgs && w.msgs[m].place.InFlight? && Choice(w.msgs[m].place.pc, act) && MessageOk(w.msgs[m])
    requires IsToken(RunHandler(w, m, act).msgs, RunHandler(w, m, act).dlq, w.republished, t, j)
    ensures IsToken(w.msgs, w.dlq, w.republished, t, j)
            || (t == InDlq(w.nextSeq) && w.msgs[m].place.pc == DeadLettering(j) && act == Go)
  {
  }

  lemma HandlerKeepsUnique(w: World, m: MsgId, act: Act)
    requires CarefulInv(w) && Enabled(w, Handle(m, act))
    ensures Unique(RunHandler(w, m, act).msgs, RunHandler(w, m, act).dlq, w.republished)
  {
    var w', msg := RunHandler(w, m, act), w.msgs[m];
    assert MessageOk(msg);
    forall t, u, j | IsToken(w'.msgs, w'.dlq, w.republished, t, j) && IsToken(w'.msgs, w'.dlq, w.republished, u, j)
      ensures t == u
    {
      HandlerTokens(w, m, act, t, j);
      HandlerTokens(w, m, act, u, j);
      if msg.place.pc == DeadLettering(j) && act == Go {
        assert IsToken(w.msgs, w.dlq, w.republished, InQueue(m), j);
      }
    }
  }

  lemma HandlerFits(jobs: map<JobId, Status>, msg: Message, act: Act, j: JobId)
    requires MessageOk(msg) && msg.place.InFlight? && Choice(msg.place.pc, act)
    requires j in jobs && LiveMessage(msg, j) && MessageFits(msg, jobs[j])
    ensures j in NextJobs(jobs, msg.place.pc, msg.deliveries, act)
    ensures MessageFits(NextMessage(jobs, msg, act), NextJobs(jobs, msg.place.pc, msg.deliveries, act)[j])
    ensures msg.place.pc.DeadLettering? ==> NextJobs(jobs, msg.place.pc, msg.deliveries, act)[j] == Failed
  {
  }

  lemma HandlerKeepsStatus(w: World, m: MsgId, act: Act)
    requires CarefulInv(w) && Enabled(w, Handle(m, act))
    ensures var w' := RunHandler(w, m, act); StatusOk(w'.jobs, w'.msgs, w'.dlq, w'.republished)
  {
    var w', msg := RunHandler(w, m, act), w.msgs[m];
    assert MessageOk(msg) && PayloadOk(w.dispatched, msg.payload);
    HandlerJobKeys(w.jobs, msg.place.pc, msg.deliveries, act);
    forall t, j | IsToken(w'.msgs, w'.dlq, w'.republished, t, j) && j in w'.jobs
      ensures Fits(w'.msgs, t, w'.jobs[j])
    {
      HandlerTokens(w, m, act, t, j);
      if LiveMessage(msg, j) {
        assert IsToken(w.msgs, w.dlq, w.republished, InQueue(m), j);
        assert Fits(w.msgs, InQueue(m), w.jobs[j]);
        HandlerFits(w.jobs, msg, act, j);
      } else {
        assert IsToken(w.msgs, w.dlq, w.republished, t, j);
        TokensAllowed(w, t, j);
        if w'.jobs[j] != w.jobs[j] {
          HandlerWrites(w.jobs, msg, act, j);
        }
        assert Fits(w.msgs, t, w.jobs[j]);
      }
    }
  }

  /** A live handler's job is not completed, and no other live handler has it. */
  lemma LiveHandlerAlone(w: World, m: MsgId, j: JobId)
    requires CarefulInv(w) && m in w.msgs && LiveMessage(w.msgs[m], j)
    ensures j in w.jobs ==> w.jobs[j] != Completed
    ensures forall n :: n in w.msgs && LiveMessage(w.msgs[n], j) ==> n == m
  {
    assert IsToken(w.msgs, w.dlq, w.republished, InQueue(m), j);
    if j in w.jobs {
      assert Fits(w.msgs, InQueue(m), w.jobs[j]);
      assert MessageOk(w.msgs[m]);
    }
    forall n | n in w.msgs && LiveMessage(w.msgs[n], j)
      ensures n == m
    {
      assert IsToken(w.msgs, w.dlq, w.republished, InQueue(n), j);
    }
  }

  predicate WritesRows(pc: Pc) {
    pc.Recording? || pc.Inserting?
  }

  lemma HandlerRowsFit(w: World, m: MsgId, act: Act)
    requires m in w.msgs && MessageOk(w.msgs[m]) && w.msgs[m].place.InFlight? && Choice(w.msgs[m].place.pc, act)
    requires RowsFit(w.outputs, w.expiring, w.msgs[m])
    ensures RowsFit(RunHandler(w, m, act).outputs, w.expiring, NextMessage(w.jobs, w.msgs[m], act))
  {
  }

  lemma OtherRows(w: World, m: MsgId, act: Act, j: JobId)
    requires m in w.msgs && w.msgs[m].place.InFlight? && Choice(w.msgs[m].place.pc, act)
    requires !(WritesRows(w.msgs[m].place.pc) && w.msgs[m].place.pc.job == j)
    ensures Rows(RunHandler(w, m, act).outputs, j) == Rows(w.outputs, j)
  {
  }

  lemma HandlerKeepsRowsFit(w: World, m: MsgId, act: Act)
    requires CarefulInv(w) && Enabled(w, Handle(m, act))
    ensures forall n :: n in w.msgs && n != m ==> RowsFit(RunHandler(w, m, act).outputs, w.expiring, w.msgs[n])
  {
    var pc := w.msgs[m].place.pc;
    assert MessageOk(w.msgs[m]);
    if WritesRows(pc) {
      LiveHandlerAlone(w, m, pc.job);
    }
    forall n | n in w.msgs && n != m
      ensures RowsFit(RunHandler(w, m, act).outputs, w.expiring, w.msgs[n])
    {
      assert RowsFit(w.outputs, w.expiring, w.msgs[n]) && MessageOk(w.msgs[n]);
      if w.msgs[n].place.InFlight? && (w.msgs[n].place.pc.Completing? || w.msgs[n].place.pc.Inserting?) {
        assert LiveMessage(w.msgs[n], w.msgs[n].place.pc.job);
        OtherRows(w, m, act, w.msgs[n].place.pc.job);
      }
    }
  }

  lemma HandlerKeepsOutputs(w: World, m: MsgId, act: Act)
    requires CarefulInv(w) && Enabled(w, Handle(m, act))
    ensures OutputsOk(RunHandler(w, m, act))
  {
    var w', msg := RunHandler(w, m, act), w.msgs[m];
    assert MessageOk(msg);
    HandlerJobKeys(w.jobs, msg.place.pc, msg.deliveries, act);
    HandlerRowsFit(w, m, act);
    HandlerKeepsRowsFit(w, m, act);
    forall j | j in w'.jobs && w'.jobs[j] == Completed && j !in w'.expiring
      ensures |Rows(w'.outputs, j)| == 1
    {
      if w.jobs[j] == Completed {
        HandlerKeepsCompleted(w, m, act, j);
      } else {
        CompletesOnlyAtCompleting(w.jobs, msg, act, j);
      }
    }
  }

  lemma CompletesOnlyAtCompleting(jobs: map<JobId, Status>, msg: Message, act: Act, j: JobId)
    requires msg.place.InFlight? && Choice(msg.place.pc, act) && j in jobs && jobs[j] != Completed
    requires NextJobs(jobs, msg.place.pc, msg.deliveries, act)[j] == Completed
    ensures msg.place.pc == Completing(j)
  {
  }

  /** `completed` is absorbing, and its output row is fixed. */
  lemma HandlerKeepsCompleted(w: World, m: MsgId, act: Act, j: JobId)
    requires CarefulInv(w) && Enabled(w, Handle(m, act)) && j in w.jobs && w.jobs[j] == Completed
    ensures j in RunHandler(w, m, act).jobs && RunHandler(w, m, act).jobs[j] == Completed
    ensures Rows(RunHandler(w, m, act).outputs, j) == Rows(w.outputs, j)
  {
    var msg := w.msgs[m];
    assert MessageOk(msg) && PayloadOk(w.dispatched, msg.payload);
    HandlerJobKeys(w.jobs, msg.place.pc, msg.deliveries, act);
    if LiveMessage(msg, j) {
      LiveHandlerAlone(w, m, j);
    }
    if RunHandler(w, m, act).jobs[j] != Completed {
      HandlerWrites(w.jobs, msg, act, j);
    }
    OtherRows(w, m, act, j);
  }

  lemma HandlerKeepsCache(w: World, m: MsgId, act: Act)
    requires CarefulInv(w) && Enabled(w, Handle(m, act))
    ensures CacheOk(RunHandler(w, m, act))
  {
    var w' := RunHandler(w, m, act);
    HandlerJobKeys(w.jobs, w.msgs[m].place.pc, w.msgs[m].deliveries, act);
    forall j | j in w.jobs && w.jobs[j] == Completed
      ensures w'.jobs[j] == Completed && Rows(w'.outputs, j) == Rows(w.outputs, j)
    {
      HandlerKeepsCompleted(w, m, act, j);
    }
  }

  lemma HandleKeepsCareful(w: World, m: MsgId, act: Act)
    requires CarefulInv(w) && Enabled(w, Handle(m, act))
    ensures CarefulInv(RunHandler(w, m, act))
  {
    var w' := RunHandler(w, m, act);
    assert Inv(w') by { HandleKeepsInv(w, m, act); }
    assert Unique(w'.msgs, w'.dlq, w'.republished) by { HandlerKeepsUnique(w, m, act); }
    assert StatusOk(w'.jobs, w'.msgs, w'.dlq, w'.republished) by { HandlerKeepsStatus(w, m, act); }
    assert HeldOnce(w'.dlq, w'.redrives, w'.republished) by { DlqGrows(w, w.msgs[m].place.pc, act); }
    assert OutputsOk(w') by { HandlerKeepsOutputs(w, m, act); }
    assert CacheOk(w') by { HandlerKeepsCache(w, m, act); }
  }

  // ------------------------------------------------------------ The other steps

  lemma FewerTokens(jobs: map<JobId, Status>, msgs: map<MsgId, Message>, dlq: map<Seq, Entry>, republished: set<Seq>,
                    msgs': map<MsgId, Message>, dlq': map<Seq, Entry>, republished': set<Seq>)
    requires Unique(msgs, dlq, republished) && StatusOk(jobs, msgs, dlq, republished)
    requires forall t, j :: IsToken(msgs', dlq', republished', t, j) ==> IsToken(msgs, dlq, republished, t, j)
    requires forall t, s :: Fits(msgs, t, s) ==> Fits(msgs', t, s)
    ensures Unique(msgs', dlq', republished') && StatusOk(jobs, msgs', dlq', republished')
  {
  }

  /** A new live message whose job has no other token. */
  lemma OneMoreToken(w: World, m: MsgId, msgs': map<MsgId, Message>, i: JobId, republished': set<Seq>)
    requires Unique(w.msgs, w.dlq, w.republished) && StatusOk(w.jobs, w.msgs, w.dlq, w.republished) && m !in w.msgs
    requires msgs' == w.msgs[m := Message(Payload(Some(i), true), 0, Pending, [])]
    requires i in w.jobs ==> w.jobs[i] == Queued || w.jobs[i] == Failed
    requires forall t, j :: IsToken(msgs', w.dlq, republished', t, j) && t != InQueue(m)
               ==> j != i && IsToken(w.msgs, w.dlq, w.republished, t, j)
    ensures Unique(msgs', w.dlq, republished')
    ensures StatusOk(w.jobs, msgs', w.dlq, republished')
  {
    forall t, j | IsToken(msgs', w.dlq, republished', t, j) && j in w.jobs
      ensures Fits(msgs', t, w.jobs[j])
    {
      if t != InQueue(m) {
        assert Fits(w.msgs, t, w.jobs[j]);
      }
    }
  }

  /** OutputsOk and CacheOk speak of jobs, output rows and handlers only. */
  lemma PostKeepsOutputs(w: World, p: Payload, w': World)
    requires OutputsOk(w) && CacheOk(w)
    requires w' == Post(w, p).(dispatched := w'.dispatched, redrives := w'.redrives, republished := w'.republished)
    ensures OutputsOk(w') && CacheOk(w')
  {
  }

  lemma DispatchKeepsCareful(w: World, j: JobId, allowed: bool)
    requires CarefulInv(w) && Enabled(w, Dispatch(j, allowed))
    ensures CarefulInv(Apply(w, Dispatch(j, allowed)))
  {
    var w' := Apply(w, Dispatch(j, allowed));
    assert Inv(w') by { DispatchKeepsInv(w, j, allowed); }
    assert w.nextMsg !in w.msgs;
    forall t, i | IsToken(w'.msgs, w'.dlq, w'.republished, t, i) && t != InQueue(w.nextMsg)
      ensures i != j && IsToken(w.msgs, w.dlq, w.republished, t, i)
    {
      assert IsToken(w.msgs, w.dlq, w.republished, t, i);
      TokensAllowed(w, t, i);
    }
    if allowed {
      OneMoreToken(w, w.nextMsg, w'.msgs, j, w.republished);
    } else {
      FewerTokens(w.jobs, w.msgs, w.dlq, w.republished, w'.msgs, w'.dlq, w'.republished);
    }
    PostKeepsOutputs(w, Payload(Some(j), allowed), w');
  }

  lemma InjectKeepsCareful(w: World, p: Payload)
    requires CarefulInv(w) && Enabled(w, Inject(p))
    ensures CarefulInv(Apply(w, Inject(p)))
  {
    var w' := Apply(w, Inject(p));
    assert Inv(w') by { InjectKeepsInv(w, p); }
    assert w.nextMsg !in w.msgs;
    FewerTokens(w.jobs, w.msgs, w.dlq, w.republished, w'.msgs, w'.dlq, w'.republished);
    PostKeepsOutputs(w, p, w');
  }

  lemma DeliverKeepsCareful(w: World, m: MsgId)
    requires CarefulInv(w) && Enabled(w, Deliver(m))
    ensures CarefulInv(Apply(w, Deliver(m)))
  {
    var w' := Apply(w, Deliver(m));
    assert Inv(w') by { DeliverKeepsInv(w, m); }
    FewerTokens(w.jobs, w.msgs, w.dlq, w.republished, w'.msgs, w'.dlq, w'.republished);
  }

  lemma StartKeepsHeld(w: World, r: nat, batch: seq<(Seq, Entry)>)
    requires HeldOnce(w.dlq, w.redrives, w.republished) && Enabled(w, StartRedrive(r, batch))
    requires CarefulStep(w, StartRedrive(r, batch))
    ensures HeldOnce(w.dlq, w.redrives[r := Redrive(batch, 0, false)], w.republished)
  {
    var v := Redrive(batch, 0, false);
    forall s, q | q in w.redrives && Holds(v, s)
      ensures !Holds(w.redrives[q], s)
    {
      var k :| 0 <= k < |batch| && batch[k].0 == s;
      assert !Held(w.redrives, s);
    }
  }

  lemma StartRedriveKeepsCareful(w: World, r: nat, batch: seq<(Seq, Entry)>)
    requires CarefulInv(w) && Enabled(w, StartRedrive(r, batch)) && CarefulStep(w, StartRedrive(r, batch))
    ensures CarefulInv(Apply(w, StartRedrive(r, batch)))
  {
    var w' := Apply(w, StartRedrive(r, batch));
    assert Inv(w') by { StartRedriveKeepsInv(w, r, batch); }
    StartKeepsHeld(w, r, batch);
    FewerTokens(w.jobs, w.msgs, w.dlq, w.republished, w'.msgs, w'.dlq, w'.republished);
  }

  /** Republishing an entry moves its token from the stream to the queue. */
  lemma RepublishTokens(w: World, r: nat, t: Token, j: JobId)
    requires CarefulInv(w) && Enabled(w, Republish(r, true)) && t != InQueue(w.nextMsg)
    requires var w' := Apply(w, Republish(r, true)); IsToken(w'.msgs, w'.dlq, w'.republished, t, j)
    ensures j != w.redrives[r].batch[w.redrives[r].i].1.job && IsToken(w.msgs, w.dlq, w.republished, t, j)
  {
    var v := w.redrives[r];
    assert BatchOk(w.dlq, w.nextSeq, w.dispatched, v);
    assert IsToken(w.msgs, w.dlq, w.republished, t, j);
    assert IsToken(w.msgs, w.dlq, w.republished, InDlq(v.batch[v.i].0), v.batch[v.i].1.job);
  }

  lemma RepublishKeepsHeld(w: World, r: nat)
    requires HeldOnce(w.dlq, w.redrives, w.republished) && RedrivesOk(w.dlq, w.nextSeq, w.dispatched, w.redrives)
    requires Enabled(w, Republish(r, true))
    ensures var v := w.redrives[r];
            HeldOnce(w.dlq, w.redrives[r := v.(published := true)], w.republished + {v.batch[v.i].0})
  {
    var v := w.redrives[r];
    assert BatchOk(w.dlq, w.nextSeq, w.dispatched, v);
    var redrives' := w.redrives[r := v.(published := true)];
    assert Holds(v, v.batch[v.i].0);
    forall q, s | q in redrives' && Holds(redrives'[q], s)
      ensures Holds(w.redrives[q], s)
    {
      var k :| redrives'[q].i <= k < |redrives'[q].batch| && redrives'[q].batch[k].0 == s;
      assert w.redrives[q].batch[k].0 == s;
    }
    forall q, k | q in redrives' && redrives'[q].i <= k < |redrives'[q].batch|
                  && (k == redrives'[q].i ==> !redrives'[q].published)
      ensures redrives'[q].batch[k].0 !in w.republished + {v.batch[v.i].0}
    {
      assert Holds(w.redrives[q], redrives'[q].batch[k].0);
    }
  }

  lemma RepublishKeepsCareful(w: World, r: nat)
    requires CarefulInv(w) && Enabled(w, Republish(r, true))
    ensures CarefulInv(Apply(w, Republish(r, true)))
  {
    var w', v := Apply(w, Republish(r, true)), w.redrives[r];
    assert Inv(w') by { RepublishKeepsInv(w, r); }
    assert BatchOk(w.dlq, w.nextSeq, w.dispatched, v);
    var s, i := v.batch[v.i].0, v.batch[v.i].1.job;
    assert i in w.jobs ==> Fits(w.msgs, InDlq(s), w.jobs[i]) by {
      assert IsToken(w.msgs, w.dlq, w.republished, InDlq(s), i);
    }
    forall t, j | IsToken(w'.msgs, w'.dlq, w'.republished, t, j) && t != InQueue(w.nextMsg)
      ensures j != i && IsToken(w.msgs, w.dlq, w.republished, t, j)
    {
      RepublishTokens(w, r, t, j);
    }
    assert w.nextMsg !in w.msgs;
    OneMoreToken(w, w.nextMsg, w'.msgs, i, w'.republished);
    RepublishKeepsHeld(w, r);
    PostKeepsOutputs(w, Payload(Some(i), true), w');
  }

  lemma AdvanceKeepsHeld(w: World, r: nat, dlq': map<Seq, Entry>)
    requires HeldOnce(w.dlq, w.redrives, w.republished) && RedrivesOk(w.dlq, w.nextSeq, w.dispatched, w.redrives)
    requires RepublishedOk(w.republished, w.nextSeq, w.redrives) && r in w.redrives
    requires dlq' == w.dlq
             || (w.redrives[r].published && dlq' == w.dlq - {w.redrives[r].batch[w.redrives[r].i].0})
    ensures HeldOnce(dlq', Advance(w.redrives, r), w.republished)
  {
    var redrives' := Advance(w.redrives, r);
    assert BatchOk(w.dlq, w.nextSeq, w.dispatched, w.redrives[r]);
    forall q, s | q in redrives' && Holds(redrives'[q], s)
      ensures Holds(w.redrives[q], s)
    {
      var k :| redrives'[q].i <= k < |redrives'[q].batch| && redrives'[q].batch[k].0 == s;
      assert w.redrives[q].batch[k].0 == s;
    }
  }

  lemma AdvanceKeepsCareful(w: World, r: nat, dlq': map<Seq, Entry>)
    requires CarefulInv(w) && r in w.redrives
    requires dlq' == w.dlq
             || (w.redrives[r].published && dlq' == w.dlq - {w.redrives[r].batch[w.redrives[r].i].0})
    ensures CarefulInv(w.(redrives := Advance(w.redrives, r), dlq := dlq'))
  {
    var w' := w.(redrives := Advance(w.redrives, r), dlq := dlq');
    assert Inv(w') by { AdvanceKeepsInv(w, r, dlq'); }
    FewerTokens(w.jobs, w.msgs, w.dlq, w.republished, w'.msgs, w'.dlq, w'.republished);
    AdvanceKeepsHeld(w, r, dlq');
  }

  lemma CreateKeepsCareful(w: World, j: JobId)
    requires CarefulInv(w) && Enabled(w, CreateJob(j))
    ensures CarefulInv(Apply(w, CreateJob(j)))
  {
    var w' := Apply(w, CreateJob(j));
    assert Inv(w') by { RowStepsKeepInv(w, CreateJob(j)); }
    forall t, i | IsToken(w.msgs, w.dlq, w.republished, t, i)
      ensures i != j
    {
      TokensAllowed(w, t, i);
    }
  }

  lemma DeleteKeepsOutputs(w: World, step: Step)
    requires OutputsOk(w) && CacheOk(w) && Enabled(w, step) && (step.DeleteFiles? || step.DeleteRow?)
    ensures OutputsOk(Apply(w, step)) && CacheOk(Apply(w, step))
  {
  }

  lemma DeleteKeepsStatus(w: World, step: Step)
    requires StatusOk(w.jobs, w.msgs, w.dlq, w.republished)
    requires Enabled(w, step) && (step.DeleteFiles? || step.DeleteRow?)
    ensures StatusOk(Apply(w, step).jobs, w.msgs, w.dlq, w.republished)
  {
  }

  lemma DeleteKeepsCareful(w: World, step: Step)
    requires CarefulInv(w) && Enabled(w, step) && (step.DeleteFiles? || step.DeleteRow?)
    ensures CarefulInv(Apply(w, step))
  {
    assert Inv(Apply(w, step)) by { RowStepsKeepInv(w, step); }
    DeleteKeepsOutputs(w, step);
    DeleteKeepsStatus(w, step);
  }

  lemma DownloadKeepsCareful(w: World, step: Step)
    requires CarefulInv(w) && Enabled(w, step) && IsDownload(step)
    ensures CarefulInv(Apply(w, step))
  {
    DownloadStepsOnlyCache(w, step);
    assert Inv(Apply(w, step)) by { StepKeepsInv(w, step); }
    DownloadKeepsCache(w, step);
  }

  lemma DownloadKeepsCache(w: World, step: Step)
    requires CacheOk(w) && JobsOk(w) && Enabled(w, step) && IsDownload(step)
    requires forall j :: j in w.jobs && w.jobs[j] == Completed && j !in w.expiring ==> |Rows(w.outputs, j)| == 1
    ensures CacheOk(w.(downloads := NextDownloads(w.downloads, w.outputs, w.outputFileCache, step),
                       outputFileCache := NextCache(w.downloads, w.outputFileCache, step)))
  {
  }

  lemma StepKeepsCareful(w: World, step: Step)
    requires CarefulInv(w) && Enabled(w, step) && CarefulStep(w, step)
    ensures CarefulInv(Apply(w, step))
  {
    match step
    case CreateJob(j) => CreateKeepsCareful(w, j);
    case Dispatch(j, allowed) => DispatchKeepsCareful(w, j, allowed);
    case Inject(p) => InjectKeepsCareful(w, p);
    case Deliver(m) => DeliverKeepsCareful(w, m);
    case Handle(m, act) => HandleKeepsCareful(w, m, act);
    case StartRedrive(r, batch) => StartRedriveKeepsCareful(w, r, batch);
    case Republish(r, ok) =>
      if ok {
        RepublishKeepsCareful(w, r);
      } else {
        AdvanceKeepsCareful(w, r, w.dlq);
      }
    case DeleteEntry(r, ok) =>
      AdvanceKeepsCareful(w, r, if ok then w.dlq - {w.redrives[r].batch[w.redrives[r].i].0} else w.dlq);
    case DeleteFiles(_) => DeleteKeepsCareful(w, step);
    case DeleteRow(_) => DeleteKeepsCareful(w, step);
    case _ => DownloadKeepsCareful(w, step);
  }

  lemma {:induction false} RunsKeepCareful(w: World, steps: seq<Step>)
    requires CarefulInv(w) && Legal(w, steps) && Careful(w, steps)
    ensures CarefulInv(Exec(w, steps))
    decreases |steps|
  {
    if steps != [] {
      StepKeepsCareful(w, steps[0]);
      RunsKeepCareful(Apply(w, steps[0]), steps[1..]);
    }
  }

  lemma CarefulInvHolds(w: World)
    requires CarefullyReachable(w)
    ensures CarefulInv(w)
  {
    var steps :| Legal(Empty, steps) && Careful(Empty, steps) && Exec(Empty, steps) == w;
    RunsKeepCareful(Empty, steps);
  }
}
