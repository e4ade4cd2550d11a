/** Where the output rows of a job come from, over every run of the delivery system. */
module DeliveryOutputs {
  import opened Wrappers
  import opened Delivery
  import opened DeliveryInvariant
  import opened DeliveryCareful
  import opened DeliverySafety

  /** At this step a handler of job j has stored what it converted, or the copy of a cached result, under this key. */
  predicate Stores(msgs: map<MsgId, Message>, step: Step, j: JobId, key: string) {
    && step.Handle? && step.m in msgs && msgs[step.m].payload == Payload(Some(j), true)
    && (step.act == Converted(key) || step.act == CacheHit(key))
  }

  ghost predicate StoredFor(msgs: map<MsgId, Message>, steps: seq<Step>, j: JobId, key: string) {
    exists i :: 0 <= i < |steps| && Stores(msgs, steps[i], j, key)
  }

  /** A handler about to record a key. */
  predicate Records(msg: Message, j: JobId, key: string) {
    msg.place.InFlight? && (msg.place.pc.Recording? || msg.place.pc.Inserting?)
    && msg.place.pc.job == j && msg.place.pc.path == key
  }

  ghost predicate HandlersOk(msgs: map<MsgId, Message>, steps: seq<Step>) {
    forall m, j, key :: m in msgs && Records(msgs[m], j, key) ==> StoredFor(msgs, steps, j, key)
  }

  ghost predicate RowsOk(msgs: map<MsgId, Message>, outputs: map<JobId, seq<OutputRow>>, steps: seq<Step>) {
    forall j, row :: row in Rows(outputs, j) ==> StoredFor(msgs, steps, j, row.path)
  }

  /** Messages stay, and keep what they say. */
  predicate Grows(msgs: map<MsgId, Message>, msgs': map<MsgId, Message>) {
    forall m :: m in msgs ==> m in msgs' && msgs'[m].payload == msgs[m].payload
  }

  lemma StillStored(msgs: map<MsgId, Message>, msgs': map<MsgId, Message>, steps: seq<Step>, step: Step, j: JobId,
                    key: string)
    requires StoredFor(msgs, steps, j, key) && Grows(msgs, msgs')
    ensures StoredFor(msgs', steps + [step], j, key)
  {
    var i :| 0 <= i < |steps| && Stores(msgs, steps[i], j, key);
    assert Stores(msgs', (steps + [step])[i], j, key);
  }

  // ------------------------------------------------------------ Every step keeps it

  /** A step of a handler that leaves it recording had it recording before, or stored the key. */
  lemma HandlerRecords(jobs: map<JobId, Status>, msg: Message, act: Act, j: JobId, key: string)
    requires MessageOk(msg) && msg.place.InFlight? && Choice(msg.place.pc, act)
    requires Records(NextMessage(jobs, msg, act), j, key)
    ensures Records(msg, j, key)
            || (msg.payload == Payload(Some(j), true) && (act == Converted(key) || act == CacheHit(key)))
  {
  }

  lemma HandleKeepsHandlers(jobs: map<JobId, Status>, msgs: map<MsgId, Message>, m: MsgId, act: Act, steps: seq<Step>)
    requires HandlersOk(msgs, steps) && m in msgs && MessageOk(msgs[m])
    requires msgs[m].place.InFlight? && Choice(msgs[m].place.pc, act)
    ensures var msgs' := msgs[m := NextMessage(jobs, msgs[m], act)];
            Grows(msgs, msgs') && HandlersOk(msgs', steps + [Handle(m, act)])
  {
    var msgs', step := msgs[m := NextMessage(jobs, msgs[m], act)], Handle(m, act);
    HandlerKeepsMessage(jobs, msgs[m], act);
    forall n, j, key | n in msgs' && Records(msgs'[n], j, key)
      ensures StoredFor(msgs', steps + [step], j, key)
    {
      if n == m {
        HandlerRecords(jobs, msgs[m], act, j, key);
      }
      if Records(msgs[n], j, key) {
        StillStored(msgs, msgs', steps, step, j, key);
      } else {
        assert Stores(msgs', (steps + [step])[|steps|], j, key);
      }
    }
  }

  lemma HandleKeepsRows(outputs: map<JobId, seq<OutputRow>>, msgs: map<MsgId, Message>, msgs': map<MsgId, Message>,
                        m: MsgId, act: Act, rowId: nat, steps: seq<Step>)
    requires RowsOk(msgs, outputs, steps) && HandlersOk(msgs, steps) && Grows(msgs, msgs')
    requires m in msgs && msgs[m].place.InFlight?
    ensures RowsOk(msgs', NextOutputs(outputs, msgs[m].place.pc, act, rowId), steps + [Handle(m, act)])
  {
    var pc := msgs[m].place.pc;
    var outputs' := NextOutputs(outputs, pc, act, rowId);
    forall j, row | row in Rows(outputs', j)
      ensures StoredFor(msgs', steps + [Handle(m, act)], j, row.path)
    {
      if row !in Rows(outputs, j) {
        assert Records(msgs[m], j, row.path);
      }
      StillStored(msgs, msgs', steps, Handle(m, act), j, row.path);
    }
  }

  /** Steps of no handler start no recording and add no row. */
  lemma OtherStepsKeep(w: World, step: Step, steps: seq<Step>)
    requires Enabled(w, step) && !step.Handle? && MessagesOk(w.msgs, w.nextMsg, w.dispatched)
    requires HandlersOk(w.msgs, steps) && RowsOk(w.msgs, w.outputs, steps)
    ensures var w' := Apply(w, step);
            HandlersOk(w'.msgs, steps + [step]) && RowsOk(w'.msgs, w'.outputs, steps + [step])
  {
    var w' := Apply(w, step);
    MessagesGrow(w, step);
    forall m, j, key | m in w'.msgs && Records(w'.msgs[m], j, key)
      ensures StoredFor(w'.msgs, steps + [step], j, key)
    {
      assert Records(w.msgs[m], j, key);
      StillStored(w.msgs, w'.msgs, steps, step, j, key);
    }
    forall j, row | row in Rows(w'.outputs, j)
      ensures StoredFor(w'.msgs, steps + [step], j, row.path)
    {
      RowsStay(w, step, j, row);
      StillStored(w.msgs, w'.msgs, steps, step, j, row.path);
    }
  }

  /** No message is new or moved, or one that is not recording. */
  predicate Quiet(msgs: map<MsgId, Message>, msgs': map<MsgId, Message>, nextMsg: MsgId) {
    || msgs' == msgs
    || (nextMsg in msgs' && msgs' == msgs[nextMsg := msgs'[nextMsg]] && msgs'[nextMsg].place.Pending?)
    || (exists m :: m in msgs && m in msgs' && msgs' == msgs[m := msgs'[m]] && msgs'[m].payload == msgs[m].payload
                    && msgs'[m].place == InFlight(Received))
  }

  lemma QuietGrows(msgs: map<MsgId, Message>, msgs': map<MsgId, Message>, nextMsg: MsgId)
    requires Quiet(msgs, msgs', nextMsg) && nextMsg !in msgs
    ensures Grows(msgs, msgs')
    ensures forall m, j, key :: m in msgs' && Records(msgs'[m], j, key) ==> m in msgs && Records(msgs[m], j, key)
  {
  }

  lemma RedriveIsQuiet(w: World, step: Step)
    requires Enabled(w, step) && (step.StartRedrive? || step.Republish? || step.DeleteEntry?)
    ensures Quiet(w.msgs, Apply(w, step).msgs, w.nextMsg)
  {
    if step.Republish? {
      RepublishIsQuiet(w, step.r, step.ok);
    }
  }

  lemma RepublishIsQuiet(w: World, r: nat, ok: bool)
    requires Enabled(w, Republish(r, ok))
    ensures Quiet(w.msgs, Apply(w, Republish(r, ok)).msgs, w.nextMsg)
  {
  }

  lemma DeliverIsQuiet(w: World, m: MsgId)
    requires Enabled(w, Deliver(m))
    ensures Quiet(w.msgs, Apply(w, Deliver(m)).msgs, w.nextMsg)
  {
    assert Apply(w, Deliver(m)).msgs[m].place == InFlight(Received);
  }

  lemma OthersAreQuiet(w: World, step: Step)
    requires Enabled(w, step)
    requires step.Dispatch? || step.Inject? || step.CreateJob? || step.DeleteFiles? || step.DeleteRow?
    ensures Quiet(w.msgs, Apply(w, step).msgs, w.nextMsg)
  {
  }

  lemma MessagesGrow(w: World, step: Step)
    requires Enabled(w, step) && !step.Handle? && MessagesOk(w.msgs, w.nextMsg, w.dispatched)
    ensures var w' := Apply(w, step);
            && Grows(w.msgs, w'.msgs)
            && forall m, j, key :: m in w'.msgs && Records(w'.msgs[m], j, key) ==>
                 m in w.msgs && Records(w.msgs[m], j, key)
  {
    if IsDownload(step) {
      DownloadStepsOnlyCache(w, step);
    } else if step.Deliver? {
      DeliverIsQuiet(w, step.m);
    } else if step.StartRedrive? || step.Republish? || step.DeleteEntry? {
      RedriveIsQuiet(w, step);
    } else {
      OthersAreQuiet(w, step);
    }
    QuietGrows(w.msgs, Apply(w, step).msgs, w.nextMsg);
  }

  lemma RowsStay(w: World, step: Step, j: JobId, row: OutputRow)
    requires Enabled(w, step) && !step.Handle? && row in Rows(Apply(w, step).outputs, j)
    ensures row in Rows(w.outputs, j)
  {
    if IsDownload(step) {
      DownloadStepsOnlyCache(w, step);
    } else if !step.CreateJob? && !step.DeleteFiles? && !step.DeleteRow? {
      BrokerStepsKeepRows(w, step);
    }
  }

  lemma StepKeepsOutputs(w: World, step: Step, steps: seq<Step>)
    requires Inv(w) && Enabled(w, step) && HandlersOk(w.msgs, steps) && RowsOk(w.msgs, w.outputs, steps)
    ensures var w' := Apply(w, step);
            HandlersOk(w'.msgs, steps + [step]) && RowsOk(w'.msgs, w'.outputs, steps + [step])
  {
    if step.Handle? {
      HandleKeepsHandlers(w.jobs, w.msgs, step.m, step.act, steps);
      HandleKeepsRows(w.outputs, w.msgs, w.msgs[step.m := NextMessage(w.jobs, w.msgs[step.m], step.act)], step.m,
                      step.act, w.nextRow, steps);
    } else {
      OtherStepsKeep(w, step, steps);
    }
  }

  lemma {:induction false} RunsKeepOutputs(w: World, before: seq<Step>, steps: seq<Step>)
    requires Inv(w) && Legal(w, steps) && HandlersOk(w.msgs, before) && RowsOk(w.msgs, w.outputs, before)
    ensures var w' := Exec(w, steps); RowsOk(w'.msgs, w'.outputs, before + steps)
    decreases |steps|
  {
    if steps == [] {
      assert before + steps == before;
    } else {
      StepKeepsOutputs(w, steps[0], before);
      StepKeepsInv(w, steps[0]);
      RunsKeepOutputs(Apply(w, steps[0]), before + [steps[0]], steps[1..]);
      assert before + steps == before + [steps[0]] + steps[1..];
    }
  }

  // ------------------------------------------------------------ What the rows hold

  /** After any run every output row of a job holds a key under which, in that run, a handler of that job stored what it
      converted or the copy of a cached result. */
  lemma RowsHoldStoredKeys(steps: seq<Step>, j: JobId, row: OutputRow)
    requires Legal(Empty, steps) && row in Rows(Exec(Empty, steps).outputs, j)
    ensures exists i :: 0 <= i < |steps| && Stores(Exec(Empty, steps).msgs, steps[i], j, row.path)
  {
    RunsKeepOutputs(Empty, [], steps);
    assert [] + steps == steps;
  }

  /** With careful redrives a completed job whose deletion has not begun has one such row. */
  lemma CompletedRowIsStored(steps: seq<Step>, j: JobId)
    requires Legal(Empty, steps) && Careful(Empty, steps)
    requires var w := Exec(Empty, steps); j in w.jobs && w.jobs[j] == Completed && j !in w.expiring
    ensures var w := Exec(Empty, steps);
            && |Rows(w.outputs, j)| == 1
            && exists i :: 0 <= i < |steps| && Stores(w.msgs, steps[i], j, Rows(w.outputs, j)[0].path)
  {
    var w := Exec(Empty, steps);
    CarefulInvHolds(w);
    RowsHoldStoredKeys(steps, j, Rows(w.outputs, j)[0]);
  }
}
