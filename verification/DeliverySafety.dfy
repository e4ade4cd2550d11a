/** What delivery guarantees. */
module DeliverySafety {
  import opened Wrappers
  import opened Delivery
  import opened DeliveryInvariant
  import opened DeliveryCareful

  /** Conservation, over every interleaving of handlers, duplicates and redrives: a dispatched job of this
      service is completed or deleted, or will be seen again - it is pending with a delivery owed, in a handler,
      or dead-lettered - unless its dead-letter publish failed. */
  lemma NoJobIsLost(w: World, j: JobId)
    requires Reachable(w) && j in w.dispatched && w.dispatched[j]
    ensures || (exists m :: m in w.msgs && w.msgs[m].payload == Payload(Some(j), true)
                 && (w.msgs[m].place.InFlight? || (w.msgs[m].place.Pending? && w.msgs[m].deliveries < 4)))
            || (exists s :: s in w.dlq && w.dlq[s].job == j)
            || (j in w.jobs && w.jobs[j] == Completed)
            || j in w.retired
            || j in w.dropped
  {
    InvHolds(w);
    assert Kept(w, j);
    if HasToken(w.msgs, w.dlq, w.republished, j) {
      var t :| IsToken(w.msgs, w.dlq, w.republished, t, j);
      match t
      case InQueue(m) => assert MessageOk(w.msgs[m]);
      case InDlq(_) =>
    }
  }

  /** A job that says processing has a handler working on it. */
  lemma ProcessingHasHandler(w: World, j: JobId)
    requires Reachable(w) && j in w.jobs && w.jobs[j] == Processing
    ensures exists m :: m in w.msgs && w.msgs[m].place.InFlight?
              && BusyPc(w.msgs[m].place.pc) && w.msgs[m].place.pc.job == j
  {
    InvHolds(w);
    var m :| m in w.msgs && BusyMessage(w.msgs[m], j);
  }

  /** A message is handled at most four times; each finished run ended in exactly one verdict;
      an Ack is the last of them and the message is settled exactly when it has one. */
  lemma OneVerdictPerRun(w: World, m: MsgId)
    requires Reachable(w) && m in w.msgs
    ensures var msg := w.msgs[m];
            && msg.deliveries <= 4
            && |msg.verdicts| == msg.deliveries - (if msg.place.InFlight? then 1 else 0)
            && (forall k :: 0 <= k < |msg.verdicts| && msg.verdicts[k] == Ack ==> k == |msg.verdicts| - 1)
            && (msg.place.Settled? <==> Ack in msg.verdicts)
            && (msg.place.Pending? ==> msg.deliveries < 4)
  {
    InvHolds(w);
    var msg := w.msgs[m];
    assert MessageOk(msg);
    if msg.place.Settled? {
      forall k | 0 <= k < |msg.verdicts| - 1
        ensures msg.verdicts[k] == Nak
      {
        assert msg.verdicts[..|msg.verdicts| - 1][k] == msg.verdicts[k];
      }
    }
  }

  /** With careful redrives a retry is never skipped: at the status check the job is queued,
      or failed if it was redriven, and a NAK leaves it queued. */
  lemma RetriesAreNotSkipped(w: World, m: MsgId, j: JobId)
    requires CarefullyReachable(w) && m in w.msgs && w.msgs[m].payload == Payload(Some(j), true) && j in w.jobs
    ensures var msg := w.msgs[m];
            && (msg.place == InFlight(Guarding(j)) ==> NextPc(w.jobs, msg, Go) == Starting(j))
            && (msg.place == InFlight(Naking(j)) ==> w.jobs[j] == Queued && msg.deliveries < 4)
            && (msg.place == Pending && msg.deliveries > 0 ==> w.jobs[j] == Queued)
  {
    CarefulInvHolds(w);
    var msg := w.msgs[m];
    assert MessageOk(msg);
    if LiveMessage(msg, j) {
      assert IsToken(w.msgs, w.dlq, w.republished, InQueue(m), j);
      assert Fits(w.msgs, InQueue(m), w.jobs[j]);
    }
  }

  /** When the last word on a job has been acked it is completed, or its dead-letter publish failed;
      until then exactly one message or dead-letter entry stands for it. */
  lemma AckedJobsAreFinished(w: World, j: JobId)
    requires CarefullyReachable(w) && j in w.dispatched && w.dispatched[j] && j in w.jobs && j !in w.dropped
    ensures (w.jobs[j] == Completed) <==> !HasToken(w.msgs, w.dlq, w.republished, j)
    ensures forall t, u ::
              IsToken(w.msgs, w.dlq, w.republished, t, j) && IsToken(w.msgs, w.dlq, w.republished, u, j) ==> t == u
  {
    CarefulInvHolds(w);
    assert Kept(w, j);
    if HasToken(w.msgs, w.dlq, w.republished, j) {
      var t :| IsToken(w.msgs, w.dlq, w.republished, t, j);
      assert Fits(w.msgs, t, w.jobs[j]);
      if t.InQueue? {
        assert MessageOk(w.msgs[t.m]);
      }
    }
  }

  /** The step on which a handler turns to its Ack leaves the job completed or failed. */
  lemma AckFollowsTerminalStatus(w: World, m: MsgId, act: Act, j: JobId)
    requires CarefullyReachable(w) && Enabled(w, Handle(m, act)) && w.msgs[m].payload == Payload(Some(j), true)
    requires w.msgs[m].place != InFlight(Acking) && RunHandler(w, m, act).msgs[m].place == InFlight(Acking)
    requires j in w.jobs
    ensures var s := RunHandler(w, m, act).jobs[j];
            || (s == Completed && w.msgs[m].place == InFlight(Completing(j)))
            || (s == Failed && w.msgs[m].place == InFlight(DeadLettering(j)))
  {
    CarefulInvHolds(w);
    var msg := w.msgs[m];
    assert MessageOk(msg);
    if LiveMessage(msg, j) {
      assert IsToken(w.msgs, w.dlq, w.republished, InQueue(m), j);
      assert Fits(w.msgs, InQueue(m), w.jobs[j]);
    }
  }

  lemma RepublishKeepsRows(w: World, r: nat, ok: bool)
    requires Enabled(w, Republish(r, ok))
    ensures Apply(w, Republish(r, ok)).jobs == w.jobs && Apply(w, Republish(r, ok)).outputs == w.outputs
  {
  }

  lemma DeleteEntryKeepsRows(w: World, r: nat, ok: bool)
    requires Enabled(w, DeleteEntry(r, ok))
    ensures Apply(w, DeleteEntry(r, ok)).jobs == w.jobs && Apply(w, DeleteEntry(r, ok)).outputs == w.outputs
  {
  }

  /** Broker and redrive steps write neither status nor output. */
  lemma BrokerStepsKeepRows(w: World, step: Step)
    requires Enabled(w, step) && !step.Handle? && !IsDownload(step)
    requires !step.CreateJob? && !step.DeleteFiles? && !step.DeleteRow?
    ensures Apply(w, step).jobs == w.jobs && Apply(w, step).outputs == w.outputs
  {
    match step
    case Dispatch(_, _) =>
    case Inject(_) =>
    case Deliver(_) =>
    case StartRedrive(_, _) =>
    case Republish(r, ok) => RepublishKeepsRows(w, r, ok);
    case DeleteEntry(r, ok) => DeleteEntryKeepsRows(w, r, ok);
  }

  lemma RowStepsKeepCompleted(w: World, step: Step, j: JobId)
    requires Enabled(w, step) && (step.CreateJob? || step.DeleteFiles? || step.DeleteRow?)
    requires j in w.jobs && w.jobs[j] == Completed && j in w.created && j !in w.expiring
    ensures j in Apply(w, step).jobs && Apply(w, step).jobs[j] == Completed
    ensures step != DeleteFiles(j) ==> Rows(Apply(w, step).outputs, j) == Rows(w.outputs, j)
  {
  }

  /** `completed` is absorbing, and a completed job keeps the one output row it has, until its deletion begins. */
  lemma CompletedIsAbsorbing(w: World, step: Step, j: JobId)
    requires CarefullyReachable(w) && Enabled(w, step) && CarefulStep(w, step)
    requires j in w.jobs && w.jobs[j] == Completed && j !in w.expiring
    ensures |Rows(w.outputs, j)| == 1
    ensures var w' := Apply(w, step);
            && j in w'.jobs && w'.jobs[j] == Completed
            && (j !in w'.expiring ==> Rows(w'.outputs, j) == Rows(w.outputs, j))
  {
    CarefulInvHolds(w);
    if step.Handle? {
      HandlerKeepsCompleted(w, step.m, step.act, j);
    } else if IsDownload(step) {
      DownloadStepsOnlyCache(w, step);
    } else if step.CreateJob? || step.DeleteFiles? || step.DeleteRow? {
      RowStepsKeepCompleted(w, step, j);
    } else {
      BrokerStepsKeepRows(w, step);
    }
  }

  /** Every outputFileCache hit for an existing completed job is the job's database row. */
  lemma CacheHitsAreCurrent(w: World, d: nat)
    requires CarefullyReachable(w) && d in w.downloads && w.downloads[d].Checked?
    requires var j := w.downloads[d].job; j in w.outputFileCache && j in w.jobs && j !in w.expiring
    ensures var j := w.downloads[d].job;
            w.jobs[j] == Completed && Rows(w.outputs, j) == [w.outputFileCache[j]]
  {
    CarefulInvHolds(w);
  }
}
