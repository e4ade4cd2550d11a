/** The invariant of the delivery system that holds in every interleaving: each message is accounted
    for, and no dispatched job is ever lost. */
module DeliveryInvariant {
  import opened Wrappers
  import opened Delivery

  ghost predicate AllNak(verdicts: seq<Verdict>) {
    forall k :: 0 <= k < |verdicts| ==> verdicts[k] == Nak
  }

  ghost predicate PcOk(payload: Payload, pc: Pc) {
    match pc
    case Received => true
    case Acking => true
    case Refusing(named) => payload == Payload(named, false)
    case _ => payload == Payload(Some(pc.job), true)
  }

  /** Every delivery but the running one has ended in exactly one verdict; an Ack is the last of them. */
  ghost predicate MessageOk(msg: Message) {
    match msg.place
    case Pending => |msg.verdicts| == msg.deliveries < MAX_DELIVER && AllNak(msg.verdicts)
    case InFlight(pc) =>
      && |msg.verdicts| + 1 == msg.deliveries <= MAX_DELIVER && AllNak(msg.verdicts)
      && PcOk(msg.payload, pc) && (pc.Naking? ==> msg.deliveries < MAX_DELIVER)
    case Settled =>
      && 0 < |msg.verdicts| == msg.deliveries <= MAX_DELIVER
      && AllNak(msg.verdicts[..|msg.verdicts| - 1]) && msg.verdicts[|msg.verdicts| - 1] == Ack
  }

  ghost predicate PayloadOk(dispatched: map<JobId, bool>, p: Payload) {
    p.Payload? && p.job.Some? ==> p.job.value in dispatched && dispatched[p.job.value] == p.allowed
  }

  ghost predicate MessagesOk(msgs: map<MsgId, Message>, nextMsg: nat, dispatched: map<JobId, bool>) {
    forall m :: m in msgs ==> m < nextMsg && MessageOk(msgs[m]) && PayloadOk(dispatched, msgs[m].payload)
  }

  ghost predicate AllowedJob(dispatched: map<JobId, bool>, j: JobId) {
    j in dispatched && dispatched[j]
  }

  ghost predicate EntriesOk(dlq: map<Seq, Entry>, nextSeq: nat, dispatched: map<JobId, bool>) {
    forall s :: s in dlq ==> s < nextSeq && AllowedJob(dispatched, dlq[s].job)
  }

  ghost predicate BatchOk(dlq: map<Seq, Entry>, nextSeq: nat, dispatched: map<JobId, bool>, v: Redrive) {
    && v.i < |v.batch|
    && (forall k :: 0 <= k < |v.batch| ==>
          && v.batch[k].0 < nextSeq && AllowedJob(dispatched, v.batch[k].1.job)
          && (v.batch[k].0 in dlq ==> dlq[v.batch[k].0] == v.batch[k].1))
    && (forall a, b :: 0 <= a < b < |v.batch| ==> v.batch[a].0 != v.batch[b].0)
  }

  ghost predicate RedrivesOk(dlq: map<Seq, Entry>, nextSeq: nat, dispatched: map<JobId, bool>,
                             redrives: map<nat, Redrive>)
  {
    forall r :: r in redrives ==> BatchOk(dlq, nextSeq, dispatched, redrives[r])
  }

  /** The history of what has been republished, which includes every entry about to be deleted. */
  ghost predicate RepublishedOk(republished: set<Seq>, nextSeq: nat, redrives: map<nat, Redrive>) {
    && (forall s :: s in republished ==> s < nextSeq)
    && (forall r :: r in redrives && redrives[r].published && redrives[r].i < |redrives[r].batch| ==>
          redrives[r].batch[redrives[r].i].0 in republished)
  }

  ghost predicate JobsOk(w: World) {
    && (forall j :: j in w.jobs ==> j in w.created)
    && (forall j :: j in w.dispatched ==> j in w.created)
    && (forall j :: j in w.created ==> j in w.jobs || j in w.retired)
    && (forall j :: j in w.retired ==> j in w.created && j !in w.jobs)
  }

  // ------------------------------------------------------------ What keeps a job alive

  /** A message, or a dead-letter entry not yet republished, that will bring job j to a handler again. */
  datatype Token = InQueue(m: MsgId) | InDlq(s: Seq)

  predicate LiveMessage(msg: Message, j: JobId) {
    msg.payload == Payload(Some(j), true) &&
    (msg.place.Pending? || (msg.place.InFlight? && !msg.place.pc.Acking?))
  }

  ghost predicate IsToken(msgs: map<MsgId, Message>, dlq: map<Seq, Entry>, republished: set<Seq>, t: Token, j: JobId) {
    match t
    case InQueue(m) => m in msgs && LiveMessage(msgs[m], j)
    case InDlq(s) => s in dlq && dlq[s].job == j && s !in republished
  }

  ghost predicate HasToken(msgs: map<MsgId, Message>, dlq: map<Seq, Entry>, republished: set<Seq>, j: JobId) {
    exists t :: IsToken(msgs, dlq, republished, t, j)
  }

  /** The handler has written processing and not yet the status it ends with. */
  predicate BusyPc(pc: Pc) {
    pc.Working? || pc.Recording? || pc.Inserting? || pc.Completing? || pc.Failing?
  }

  predicate BusyMessage(msg: Message, j: JobId) {
    msg.place.InFlight? && BusyPc(msg.place.pc) && msg.place.pc.job == j
  }

  ghost predicate Busy(msgs: map<MsgId, Message>, j: JobId) {
    exists m :: m in msgs && BusyMessage(msgs[m], j)
  }

  ghost predicate ProcessingIsBusy(jobs: map<JobId, Status>, msgs: map<MsgId, Message>) {
    forall j :: j in jobs && jobs[j] == Processing ==> Busy(msgs, j)
  }

  /** A job of this service is still on its way, or is done, or was deleted; or the one thing
      the protocol does not retry, its dead-letter publish, failed. */
  ghost predicate Kept(w: World, j: JobId) {
    || HasToken(w.msgs, w.dlq, w.republished, j)
    || (j in w.jobs && w.jobs[j] == Completed)
    || j in w.retired
    || j in w.dropped
  }

  ghost predicate Conserved(w: World) {
    forall j :: AllowedJob(w.dispatched, j) ==> Kept(w, j)
  }

  /** A job waits from its creation on, and only jobs of this service are ever completed. */
  ghost predicate StatusScope(jobs: map<JobId, Status>, dispatched: map<JobId, bool>) {
    && (forall j :: j in jobs && j !in dispatched ==> jobs[j] == Queued)
    && (forall j :: j in jobs && jobs[j] == Completed ==> AllowedJob(dispatched, j))
  }

  ghost predicate Inv(w: World) {
    && MessagesOk(w.msgs, w.nextMsg, w.dispatched)
    && EntriesOk(w.dlq, w.nextSeq, w.dispatched)
    && RedrivesOk(w.dlq, w.nextSeq, w.dispatched, w.redrives)
    && RepublishedOk(w.republished, w.nextSeq, w.redrives)
    && JobsOk(w)
    && StatusScope(w.jobs, w.dispatched)
    && ProcessingIsBusy(w.jobs, w.msgs)
    && Conserved(w)
  }

  // ------------------------------------------------------------ Bookkeeping is kept

  lemma KeepMessages(msgs: map<MsgId, Message>, nextMsg: nat, dispatched: map<JobId, bool>, m: MsgId, msg: Message)
    requires MessagesOk(msgs, nextMsg, dispatched) && m in msgs && MessageOk(msg) && msg.payload == msgs[m].payload
    ensures MessagesOk(msgs[m := msg], nextMsg, dispatched)
  {
  }

  lemma PostKeepsMessages(msgs: map<MsgId, Message>, nextMsg: nat, dispatched: map<JobId, bool>, p: Payload)
    requires MessagesOk(msgs, nextMsg, dispatched) && PayloadOk(dispatched, p)
    ensures MessagesOk(msgs[nextMsg := Message(p, 0, Pending, [])], nextMsg + 1, dispatched)
  {
  }

  /** What a handler step makes of its message is accounted for. */
  lemma HandlerKeepsMessage(jobs: map<JobId, Status>, msg: Message, act: Act)
    requires MessageOk(msg) && msg.place.InFlight? && Choice(msg.place.pc, act)
    ensures MessageOk(NextMessage(jobs, msg, act)) && NextMessage(jobs, msg, act).payload == msg.payload
  {
  }

  lemma HandlerKeepsDlq(dlq: map<Seq, Entry>, nextSeq: nat, dispatched: map<JobId, bool>, redrives: map<nat, Redrive>,
                        msg: Message, act: Act)
    requires EntriesOk(dlq, nextSeq, dispatched) && RedrivesOk(dlq, nextSeq, dispatched, redrives)
    requires MessageOk(msg) && PayloadOk(dispatched, msg.payload) && msg.place.InFlight?
    ensures EntriesOk(NextDlq(dlq, msg.place.pc, act, nextSeq), NextSeq(nextSeq, msg.place.pc, act), dispatched)
    ensures RedrivesOk(NextDlq(dlq, msg.place.pc, act, nextSeq), NextSeq(nextSeq, msg.place.pc, act), dispatched,
                       redrives)
  {
  }

  // ------------------------------------------------------------ Tokens are kept

  /** A step of message m leaves every other token alone. */
  lemma OtherTokens(msgs: map<MsgId, Message>, dlq: map<Seq, Entry>, republished: set<Seq>,
                    m: MsgId, msg: Message, dlq': map<Seq, Entry>, t: Token, j: JobId)
    requires IsToken(msgs, dlq, republished, t, j)
    requires forall s :: s in dlq ==> s in dlq' && dlq'[s] == dlq[s]
    requires t != InQueue(m) || LiveMessage(msg, j)
    ensures IsToken(msgs[m := msg], dlq', republished, t, j)
  {
  }

  lemma BusyIsToken(msgs: map<MsgId, Message>, nextMsg: nat, dispatched: map<JobId, bool>,
                    dlq: map<Seq, Entry>, republished: set<Seq>, j: JobId)
    requires MessagesOk(msgs, nextMsg, dispatched) && Busy(msgs, j)
    ensures exists m :: m in msgs && BusyMessage(msgs[m], j) && IsToken(msgs, dlq, republished, InQueue(m), j)
  {
    var m :| m in msgs && BusyMessage(msgs[m], j);
    assert MessageOk(msgs[m]);
    assert IsToken(msgs, dlq, republished, InQueue(m), j);
  }

  /** The handler stops being a token only where the job is in good hands otherwise. */
  lemma HandlerLeaves(jobs: map<JobId, Status>, msg: Message, act: Act, j: JobId)
    requires MessageOk(msg) && msg.place.InFlight? && Choice(msg.place.pc, act)
    requires LiveMessage(msg, j) && !LiveMessage(NextMessage(jobs, msg, act), j)
    ensures (msg.place.pc == Guarding(j) && j in jobs && (jobs[j] == Completed || jobs[j] == Processing))
            || msg.place.pc == Completing(j) || msg.place.pc == DeadLettering(j)
  {
  }

  /** A handler writes the status only of the job of its message, and while it is live. */
  lemma HandlerWrites(jobs: map<JobId, Status>, msg: Message, act: Act, j: JobId)
    requires MessageOk(msg) && msg.place.InFlight? && Choice(msg.place.pc, act)
    requires j in jobs && NextJobs(jobs, msg.place.pc, msg.deliveries, act)[j] != jobs[j]
    ensures msg.payload == Payload(Some(j), false)
            || (msg.payload == Payload(Some(j), true)
                && (msg.place.pc == Completing(j) || LiveMessage(NextMessage(jobs, msg, act), j)))
  {
  }

  lemma HandlerJobKeys(jobs: map<JobId, Status>, pc: Pc, deliveries: nat, act: Act)
    ensures NextJobs(jobs, pc, deliveries, act).Keys == jobs.Keys
  {
  }

  lemma HandlerKeepsProcessing(jobs: map<JobId, Status>, msgs: map<MsgId, Message>, m: MsgId, act: Act)
    requires ProcessingIsBusy(jobs, msgs)
    requires m in msgs && MessageOk(msgs[m]) && msgs[m].place.InFlight? && Choice(msgs[m].place.pc, act)
    ensures ProcessingIsBusy(NextJobs(jobs, msgs[m].place.pc, msgs[m].deliveries, act),
                             msgs[m := NextMessage(jobs, msgs[m], act)])
  {
    var msg := msgs[m];
    var pc := msg.place.pc;
    var jobs', msgs' := NextJobs(jobs, pc, msg.deliveries, act), msgs[m := NextMessage(jobs, msg, act)];
    HandlerJobKeys(jobs, pc, msg.deliveries, act);
    forall j | j in jobs' && jobs'[j] == Processing
      ensures Busy(msgs', j)
    {
      if jobs[j] == Processing {
        var n :| n in msgs && BusyMessage(msgs[n], j);
        StaysBusy(jobs, msg, act, j);
        assert BusyMessage(msgs'[n], j);
      } else {
        assert BusyMessage(msgs'[m], j);
      }
    }
  }

  /** A busy handler that goes on stays busy unless it writes another status than processing. */
  lemma StaysBusy(jobs: map<JobId, Status>, msg: Message, act: Act, j: JobId)
    requires MessageOk(msg) && msg.place.InFlight? && Choice(msg.place.pc, act)
    requires j in jobs && NextJobs(jobs, msg.place.pc, msg.deliveries, act)[j] == Processing
    ensures BusyMessage(msg, j) ==> BusyMessage(NextMessage(jobs, msg, act), j)
  {
  }

  lemma HandlerKeepsKept(w: World, m: MsgId, act: Act, j: JobId)
    requires Inv(w) && Enabled(w, Handle(m, act)) && AllowedJob(w.dispatched, j)
    ensures Kept(RunHandler(w, m, act), j)
  {
    var w', msg := RunHandler(w, m, act), w.msgs[m];
    HandlerJobKeys(w.jobs, msg.place.pc, msg.deliveries, act);
    assert MessageOk(msg) && PayloadOk(w.dispatched, msg.payload);
    if HasToken(w.msgs, w.dlq, w.republished, j) {
      TokenKept(w, m, act, j);
    } else if j in w.jobs && w.jobs[j] == Completed && w'.jobs[j] != Completed {
      HandlerWrites(w.jobs, msg, act, j);
      assert IsToken(w'.msgs, w'.dlq, w'.republished, InQueue(m), j);
    }
  }

  lemma TokenKept(w: World, m: MsgId, act: Act, j: JobId)
    requires Inv(w) && Enabled(w, Handle(m, act)) && AllowedJob(w.dispatched, j)
    requires HasToken(w.msgs, w.dlq, w.republished, j)
    ensures Kept(RunHandler(w, m, act), j)
  {
    var w', msg := RunHandler(w, m, act), w.msgs[m];
    var msg' := NextMessage(w.jobs, msg, act);
    var t :| IsToken(w.msgs, w.dlq, w.republished, t, j);
    DlqGrows(w, msg.place.pc, act);
    if t != InQueue(m) || LiveMessage(msg', j) {
      OtherTokens(w.msgs, w.dlq, w.republished, m, msg', w'.dlq, t, j);
    } else {
      assert MessageOk(msg);
      HandlerLeaves(w.jobs, msg, act, j);
      match msg.place.pc
      case Guarding(_) =>
        if w.jobs[j] == Processing {
          BusyIsToken(w.msgs, w.nextMsg, w.dispatched, w.dlq, w.republished, j);
          var n :| n in w.msgs && BusyMessage(w.msgs[n], j) && IsToken(w.msgs, w.dlq, w.republished, InQueue(n), j);
          OtherTokens(w.msgs, w.dlq, w.republished, m, msg', w'.dlq, InQueue(n), j);
        }
      case Completing(_) =>
        assert j in w.created;
      case DeadLettering(_) =>
        if act == Go {
          assert IsToken(w'.msgs, w'.dlq, w'.republished, InDlq(w.nextSeq), j);
        }
    }
  }

  lemma DlqGrows(w: World, pc: Pc, act: Act)
    requires EntriesOk(w.dlq, w.nextSeq, w.dispatched)
    ensures forall s :: s in w.dlq ==>
              s in NextDlq(w.dlq, pc, act, w.nextSeq) && NextDlq(w.dlq, pc, act, w.nextSeq)[s] == w.dlq[s]
  {
  }

  lemma HandlerKeepsScope(w: World, m: MsgId, act: Act)
    requires StatusScope(w.jobs, w.dispatched) && MessagesOk(w.msgs, w.nextMsg, w.dispatched)
    requires Enabled(w, Handle(m, act))
    ensures StatusScope(RunHandler(w, m, act).jobs, w.dispatched)
  {
    var msg := w.msgs[m];
    assert MessageOk(msg) && PayloadOk(w.dispatched, msg.payload);
    HandlerJobKeys(w.jobs, msg.place.pc, msg.deliveries, act);
  }

  lemma HandleKeepsInv(w: World, m: MsgId, act: Act)
    requires Inv(w) && Enabled(w, Handle(m, act))
    ensures Inv(RunHandler(w, m, act))
  {
    var w', msg := RunHandler(w, m, act), w.msgs[m];
    assert MessageOk(msg) && PayloadOk(w.dispatched, msg.payload);
    assert MessagesOk(w'.msgs, w'.nextMsg, w'.dispatched) by {
      HandlerKeepsMessage(w.jobs, msg, act);
      KeepMessages(w.msgs, w.nextMsg, w.dispatched, m, NextMessage(w.jobs, msg, act));
    }
    HandlerKeepsDlq(w.dlq, w.nextSeq, w.dispatched, w.redrives, msg, act);
    assert JobsOk(w') by { HandlerJobKeys(w.jobs, msg.place.pc, msg.deliveries, act); }
    assert StatusScope(w'.jobs, w'.dispatched) by { HandlerKeepsScope(w, m, act); }
    assert ProcessingIsBusy(w'.jobs, w'.msgs) by { HandlerKeepsProcessing(w.jobs, w.msgs, m, act); }
    assert Conserved(w') by {
      forall j | AllowedJob(w'.dispatched, j)
        ensures Kept(w', j)
      {
        HandlerKeepsKept(w, m, act, j);
      }
    }
  }

  // ------------------------------------------------------------ The other steps

  /** Every token survives a step that keeps live messages live and unclaimed entries in the queue. */
  lemma KeepConserved(w: World, w': World)
    requires Conserved(w) && w'.dispatched == w.dispatched
    requires forall t, j :: IsToken(w.msgs, w.dlq, w.republished, t, j) ==> HasToken(w'.msgs, w'.dlq, w'.republished, j)
    requires forall j :: j in w.jobs && w.jobs[j] == Completed ==>
               (j in w'.jobs && w'.jobs[j] == Completed) || j in w'.retired
    requires w.retired <= w'.retired && w.dropped <= w'.dropped
    ensures Conserved(w')
  {
    forall j | AllowedJob(w'.dispatched, j)
      ensures Kept(w', j)
    {
      assert Kept(w, j);
      if HasToken(w.msgs, w.dlq, w.republished, j) {
        var t :| IsToken(w.msgs, w.dlq, w.republished, t, j);
      }
    }
  }

  lemma SameTokens(w: World, w': World)
    requires w'.msgs == w.msgs && w'.dlq == w.dlq && w'.republished == w.republished
    ensures forall t, j :: IsToken(w.msgs, w.dlq, w.republished, t, j) ==> HasToken(w'.msgs, w'.dlq, w'.republished, j)
  {
    forall t, j | IsToken(w.msgs, w.dlq, w.republished, t, j)
      ensures HasToken(w'.msgs, w'.dlq, w'.republished, j)
    {
      assert IsToken(w'.msgs, w'.dlq, w'.republished, t, j);
    }
  }

  lemma StaysProcessing(jobs: map<JobId, Status>, jobs': map<JobId, Status>, msgs: map<MsgId, Message>)
    requires ProcessingIsBusy(jobs, msgs)
    requires forall j :: j in jobs' && jobs'[j] == Processing ==> j in jobs && jobs[j] == Processing
    ensures ProcessingIsBusy(jobs', msgs)
  {
  }

  /** A new message does not disturb the others. */
  lemma PostKeepsBusy(jobs: map<JobId, Status>, msgs: map<MsgId, Message>, m: MsgId, msg: Message)
    requires ProcessingIsBusy(jobs, msgs)
    requires m in msgs ==> !msgs[m].place.InFlight?
    ensures ProcessingIsBusy(jobs, msgs[m := msg])
  {
    var msgs' := msgs[m := msg];
    forall j | j in jobs && jobs[j] == Processing
      ensures Busy(msgs', j)
    {
      var n :| n in msgs && BusyMessage(msgs[n], j);
      assert BusyMessage(msgs'[n], j);
    }
  }

  lemma PostTokens(msgs: map<MsgId, Message>, dlq: map<Seq, Entry>, republished: set<Seq>, m: MsgId, msg: Message)
    requires forall j :: m in msgs && LiveMessage(msgs[m], j) ==> LiveMessage(msg, j)
    ensures forall t, j :: IsToken(msgs, dlq, republished, t, j) ==> IsToken(msgs[m := msg], dlq, republished, t, j)
  {
  }

  lemma RedriveMoveKeepsOk(dlq: map<Seq, Entry>, nextSeq: nat, dispatched: map<JobId, bool>,
                           redrives: map<nat, Redrive>, r: nat)
    requires RedrivesOk(dlq, nextSeq, dispatched, redrives) && r in redrives
    ensures RedrivesOk(dlq, nextSeq, dispatched, Advance(redrives, r))
    ensures RedrivesOk(dlq, nextSeq, dispatched, redrives[r := redrives[r].(published := true)])
  {
    assert BatchOk(dlq, nextSeq, dispatched, redrives[r]);
  }

  lemma PostKeepsConserved(w: World, p: Payload)
    requires Conserved(w) && MessagesOk(w.msgs, w.nextMsg, w.dispatched)
    ensures Conserved(Post(w, p))
  {
    var w' := Post(w, p);
    PostTokens(w.msgs, w.dlq, w.republished, w.nextMsg, w'.msgs[w.nextMsg]);
    KeepConserved(w, w');
  }

  lemma DispatchKeepsConserved(w: World, j: JobId, allowed: bool)
    requires Conserved(w) && MessagesOk(w.msgs, w.nextMsg, w.dispatched) && Enabled(w, Dispatch(j, allowed))
    ensures Conserved(Apply(w, Dispatch(j, allowed)))
  {
    var w' := Apply(w, Dispatch(j, allowed));
    PostKeepsConserved(w, Payload(Some(j), allowed));
    assert allowed ==> IsToken(w'.msgs, w'.dlq, w'.republished, InQueue(w.nextMsg), j);
    forall i | AllowedJob(w'.dispatched, i)
      ensures Kept(w', i)
    {
      if i != j {
        assert Kept(Post(w, Payload(Some(j), allowed)), i);
      }
    }
  }

  lemma DispatchKeepsRedrives(w: World, j: JobId, allowed: bool)
    requires RedrivesOk(w.dlq, w.nextSeq, w.dispatched, w.redrives) && j !in w.dispatched
    ensures RedrivesOk(w.dlq, w.nextSeq, w.dispatched[j := allowed], w.redrives)
  {
    forall r | r in w.redrives
      ensures BatchOk(w.dlq, w.nextSeq, w.dispatched[j := allowed], w.redrives[r])
    {
      assert BatchOk(w.dlq, w.nextSeq, w.dispatched, w.redrives[r]);
    }
  }

  lemma DispatchKeepsInv(w: World, j: JobId, allowed: bool)
    requires Inv(w) && Enabled(w, Dispatch(j, allowed))
    ensures Inv(Apply(w, Dispatch(j, allowed)))
  {
    var w' := Apply(w, Dispatch(j, allowed));
    assert MessagesOk(w.msgs, w.nextMsg, w'.dispatched);
    PostKeepsMessages(w.msgs, w.nextMsg, w'.dispatched, Payload(Some(j), allowed));
    PostKeepsBusy(w.jobs, w.msgs, w.nextMsg, w'.msgs[w.nextMsg]);
    DispatchKeepsConserved(w, j, allowed);
    DispatchKeepsRedrives(w, j, allowed);
  }

  lemma InjectKeepsInv(w: World, p: Payload)
    requires Inv(w) && Enabled(w, Inject(p))
    ensures Inv(Apply(w, Inject(p)))
  {
    var w' := Apply(w, Inject(p));
    PostKeepsMessages(w.msgs, w.nextMsg, w.dispatched, p);
    PostKeepsBusy(w.jobs, w.msgs, w.nextMsg, w'.msgs[w.nextMsg]);
    PostKeepsConserved(w, p);
  }

  lemma DeliverKeepsInv(w: World, m: MsgId)
    requires Inv(w) && Enabled(w, Deliver(m))
    ensures Inv(Apply(w, Deliver(m)))
  {
    var w' := Apply(w, Deliver(m));
    assert MessageOk(w.msgs[m]);
    KeepMessages(w.msgs, w.nextMsg, w.dispatched, m, w'.msgs[m]);
    PostKeepsBusy(w.jobs, w.msgs, m, w'.msgs[m]);
    PostTokens(w.msgs, w.dlq, w.republished, m, w'.msgs[m]);
    KeepConserved(w, w');
  }

  lemma RepublishKeepsInv(w: World, r: nat)
    requires Inv(w) && Enabled(w, Republish(r, true))
    ensures Inv(Apply(w, Republish(r, true)))
  {
    var w', v := Apply(w, Republish(r, true)), w.redrives[r];
    assert BatchOk(w.dlq, w.nextSeq, w.dispatched, v);
    var s, i := v.batch[v.i].0, v.batch[v.i].1.job;
    PostKeepsMessages(w.msgs, w.nextMsg, w.dispatched, Payload(Some(i), true));
    PostKeepsBusy(w.jobs, w.msgs, w.nextMsg, w'.msgs[w.nextMsg]);
    RedriveMoveKeepsOk(w.dlq, w.nextSeq, w.dispatched, w.redrives, r);
    assert IsToken(w'.msgs, w'.dlq, w'.republished, InQueue(w.nextMsg), i);
    forall t, j | IsToken(w.msgs, w.dlq, w.republished, t, j)
      ensures HasToken(w'.msgs, w'.dlq, w'.republished, j)
    {
      if t == InDlq(s) {
        assert j == i;
      } else {
        assert IsToken(w'.msgs, w'.dlq, w'.republished, t, j);
      }
    }
    KeepConserved(w, w');
  }

  /** Deleting the entry of a redrive, or failing to, costs no token: it no longer was one. */
  lemma AdvanceKeepsInv(w: World, r: nat, dlq': map<Seq, Entry>)
    requires Inv(w) && r in w.redrives
    requires dlq' == w.dlq
             || (w.redrives[r].published && dlq' == w.dlq - {w.redrives[r].batch[w.redrives[r].i].0})
    ensures Inv(w.(redrives := Advance(w.redrives, r), dlq := dlq'))
  {
    var w' := w.(redrives := Advance(w.redrives, r), dlq := dlq');
    RedriveMoveKeepsOk(w.dlq, w.nextSeq, w.dispatched, w.redrives, r);
    assert RedrivesOk(w'.dlq, w'.nextSeq, w'.dispatched, w'.redrives) by {
      forall q | q in w'.redrives
        ensures BatchOk(w'.dlq, w'.nextSeq, w'.dispatched, w'.redrives[q])
      {
        assert BatchOk(w.dlq, w.nextSeq, w.dispatched, w'.redrives[q]);
      }
    }
    assert BatchOk(w.dlq, w.nextSeq, w.dispatched, w.redrives[r]);
    assert w.redrives[r].published ==> w.redrives[r].batch[w.redrives[r].i].0 in w.republished;
    forall t, j | IsToken(w.msgs, w.dlq, w.republished, t, j)
      ensures HasToken(w'.msgs, w'.dlq, w'.republished, j)
    {
      assert IsToken(w'.msgs, w'.dlq, w'.republished, t, j);
    }
    KeepConserved(w, w');
  }

  lemma StartRedriveKeepsInv(w: World, r: nat, batch: seq<(Seq, Entry)>)
    requires Inv(w) && Enabled(w, StartRedrive(r, batch))
    ensures Inv(Apply(w, StartRedrive(r, batch)))
  {
    var w' := Apply(w, StartRedrive(r, batch));
    assert BatchOk(w.dlq, w.nextSeq, w.dispatched, w'.redrives[r]) by {
      forall k | 0 <= k < |batch|
        ensures batch[k].0 < w.nextSeq && AllowedJob(w.dispatched, batch[k].1.job)
      {
        assert batch[k].0 in w.dlq;
      }
    }
    forall t, j | IsToken(w.msgs, w.dlq, w.republished, t, j)
      ensures HasToken(w'.msgs, w'.dlq, w'.republished, j)
    {
      assert IsToken(w'.msgs, w'.dlq, w'.republished, t, j);
    }
    KeepConserved(w, w');
  }

  lemma RowStepsKeepJobs(w: World, step: Step)
    requires JobsOk(w) && Enabled(w, step) && (step.CreateJob? || step.DeleteFiles? || step.DeleteRow?)
    ensures JobsOk(Apply(w, step))
  {
  }

  /** Creating and deleting jobs touches no message. */
  lemma RowStepsKeepInv(w: World, step: Step)
    requires Inv(w) && Enabled(w, step) && (step.CreateJob? || step.DeleteFiles? || step.DeleteRow?)
    ensures Inv(Apply(w, step))
  {
    var w' := Apply(w, step);
    RowStepsKeepJobs(w, step);
    SameTokens(w, w');
    KeepConserved(w, w');
    StaysProcessing(w.jobs, w'.jobs, w.msgs);
  }

  predicate IsDownload(step: Step) {
    step.CheckDownload? || step.ReadOutput? || step.StoreOutput?
  }

  lemma DownloadStepsOnlyCache(w: World, step: Step)
    requires Enabled(w, step) && IsDownload(step)
    ensures Apply(w, step)
            == w.(downloads := Apply(w, step).downloads, outputFileCache := Apply(w, step).outputFileCache)
  {
  }

  lemma CacheKeepsInv(w: World, downloads: map<nat, Download>, cache: map<JobId, OutputRow>)
    requires Inv(w)
    ensures Inv(w.(downloads := downloads, outputFileCache := cache))
  {
    var w' := w.(downloads := downloads, outputFileCache := cache);
    SameTokens(w, w');
    KeepConserved(w, w');
  }

  lemma StepKeepsInv(w: World, step: Step)
    requires Inv(w) && Enabled(w, step)
    ensures Inv(Apply(w, step))
  {
    if IsDownload(step) {
      DownloadStepsOnlyCache(w, step);
      CacheKeepsInv(w, Apply(w, step).downloads, Apply(w, step).outputFileCache);
      return;
    }
    match step
    case Dispatch(j, allowed) => DispatchKeepsInv(w, j, allowed);
    case Inject(p) => InjectKeepsInv(w, p);
    case Deliver(m) => DeliverKeepsInv(w, m);
    case Handle(m, act) => HandleKeepsInv(w, m, act);
    case StartRedrive(r, batch) => StartRedriveKeepsInv(w, r, batch);
    case Republish(r, ok) =>
      if ok {
        RepublishKeepsInv(w, r);
      } else {
        AdvanceKeepsInv(w, r, w.dlq);
      }
    case DeleteEntry(r, ok) =>
      AdvanceKeepsInv(w, r, if ok then w.dlq - {w.redrives[r].batch[w.redrives[r].i].0} else w.dlq);
    case _ => RowStepsKeepInv(w, step);
  }

  lemma {:induction false} RunsKeepInv(w: World, steps: seq<Step>)
    requires Inv(w) && Legal(w, steps)
    ensures Inv(Exec(w, steps))
    decreases |steps|
  {
    if steps != [] {
      StepKeepsInv(w, steps[0]);
      RunsKeepInv(Apply(w, steps[0]), steps[1..]);
    }
  }

  lemma InvHolds(w: World)
    requires Reachable(w)
    ensures Inv(w)
  {
    var steps :| Legal(Empty, steps) && Exec(Empty, steps) == w;
    RunsKeepInv(Empty, steps);
  }
}
