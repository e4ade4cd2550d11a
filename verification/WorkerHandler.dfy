/** processMessage, handleFailure, tryServeFromCache and recordOutput of convert-to-pdf/internal/worker/worker.go as
    the programs they are, run with nothing else in between.  A ghost copy of the delivery machine takes the same
    statements, so each run of a handler is proved to be a run of the machine. */
module WorkerHandler {
  import opened Wrappers
  import opened Delivery

  /** Statements of the handler of one message. */
  ghost predicate Runs(m: MsgId, steps: seq<Step>) {
    forall k :: 0 <= k < |steps| ==> steps[k].Handle? && steps[k].m == m
  }

  /** w' is where w gets by statements of the handler of m alone. */
  ghost predicate Goes(w: World, m: MsgId, w': World) {
    exists steps :: Runs(m, steps) && Legal(w, steps) && Exec(w, steps) == w'
  }

  lemma Stays(w: World, m: MsgId)
    ensures Goes(w, m, w)
  {
    assert Runs(m, []) && Legal(w, []) && Exec(w, []) == w;
  }

  lemma GoesOn(w: World, m: MsgId, w1: World, act: Act)
    requires Goes(w, m, w1) && Enabled(w1, Handle(m, act))
    ensures Goes(w, m, RunHandler(w1, m, act))
  {
    var steps :| Runs(m, steps) && Legal(w, steps) && Exec(w, steps) == w1;
    RunSnoc(w, steps, Handle(m, act));
    assert Runs(m, steps + [Handle(m, act)]);
  }

  /** The handler of m has run from start to w, where it is about to execute this statement. */
  ghost predicate Here(start: World, m: MsgId, w: World, msg: Message, pc: Pc) {
    Goes(start, m, w) && m in w.msgs && w.msgs[m] == msg.(place := InFlight(pc))
  }

  /** Where message msg is after its verdict. */
  function Judged(msg: Message, v: Verdict): Message {
    Message(msg.payload, msg.deliveries, if v == Ack then Settled else Pending, msg.verdicts + [v])
  }

  /** The same world, with the handler of m moved to this statement. */
  function To(w: World, m: MsgId, msg: Message, pc: Pc): World {
    w.(msgs := w.msgs[m := msg.(place := InFlight(pc))])
  }

  // ------------------------------------------------------------ The machine's statements, one by one

  /** A statement that writes nothing. */
  predicate Quiet(pc: Pc, act: Act) {
    pc.Received? || pc.Guarding? || (pc.Working? && act != Progress)
  }

  lemma QuietStep(start: World, m: MsgId, w: World, msg: Message, pc: Pc, act: Act)
    requires Here(start, m, w, msg, pc) && Choice(pc, act) && Quiet(pc, act)
    ensures var next := NextPc(w.jobs, msg.(place := InFlight(pc)), act); Here(start, m, To(w, m, msg, next), msg, next)
  {
    GoesOn(start, m, w, act);
  }

  /** A status update: refusing, starting, progress, completing, failing. */
  lemma StatusStep(start: World, m: MsgId, w: World, msg: Message, pc: Pc, act: Act, next: Pc)
    requires Here(start, m, w, msg, pc) && Choice(pc, act)
    requires pc.Refusing? || pc.Starting? || pc.Completing? || pc.Failing? || (pc.Working? && act == Progress)
    requires next == NextPc(w.jobs, msg.(place := InFlight(pc)), act)
    ensures Here(start, m, To(w, m, msg, next).(jobs := NextJobs(w.jobs, pc, msg.deliveries, act)), msg, next)
  {
    GoesOn(start, m, w, act);
  }

  lemma DeleteOutputStep(start: World, m: MsgId, w: World, msg: Message, j: JobId, path: string, hit: bool)
    requires Here(start, m, w, msg, Recording(j, path, hit))
    ensures var next := Inserting(j, path, hit);
            Here(start, m, To(w, m, msg, next).(outputs := w.outputs[j := []]), msg, next)
  {
    GoesOn(start, m, w, Go);
  }

  lemma InsertOutputStep(start: World, m: MsgId, w: World, msg: Message, j: JobId, path: string, hit: bool, ok: bool)
    requires Here(start, m, w, msg, Inserting(j, path, hit)) && j in w.outputs
    ensures var next := if ok then Completing(j) else if hit then Working(j) else Failing(j, true);
            var row := OutputRow(w.nextRow, path);
            var moved := To(w, m, msg, next);
            var w' := if ok then moved.(outputs := w.outputs[j := w.outputs[j] + [row]], nextRow := w.nextRow + 1)
                      else moved;
            Here(start, m, w', msg, next)
  {
    GoesOn(start, m, w, if ok then Go else Refused);
  }

  lemma DeadLetterStep(start: World, m: MsgId, w: World, msg: Message, j: JobId, ok: bool)
    requires Here(start, m, w, msg, DeadLettering(j))
    ensures var w' := if ok then To(w, m, msg, Acking).(dlq := w.dlq[w.nextSeq := Entry(j)], nextSeq := w.nextSeq + 1)
                      else To(w, m, msg, Acking).(dropped := w.dropped + {j});
            Here(start, m, w', msg, Acking)
  {
    GoesOn(start, m, w, if ok then Go else Refused);
  }

  /** The handler of m has run from start to w, where it has given its verdict. */
  ghost predicate Over(start: World, m: MsgId, w: World, msg: Message, v: Verdict) {
    Goes(start, m, w) && m in w.msgs && w.msgs[m] == Judged(msg, v)
  }

  lemma VerdictStep(start: World, m: MsgId, w: World, msg: Message, pc: Pc)
    requires Here(start, m, w, msg, pc) && (pc.Naking? || pc.Acking?)
    ensures var v := if pc.Acking? then Ack else Nak; Over(start, m, w.(msgs := w.msgs[m := Judged(msg, v)]), msg, v)
  {
    GoesOn(start, m, w, Go);
  }

  /** How staging, conversion and upload end: with an output of this base name stored, or with a fault. */
  datatype Conversion = Stored(name: string) | Faulty(recoverable: bool)

  /** How the calls of one delivery go: the base name of the cached result, if there is one that was copied; whether its
      row is inserted; how many progress updates; the conversion; whether its row is inserted; whether the dead-letter
      publish succeeds. */
  datatype Calls = Calls(cached: Option<string>, copyRecorded: bool, ticks: nat, conversion: Conversion,
                         recorded: bool, deadLettered: bool)

  /** Outputs of a job are stored under its own prefix. */
  function OutputKey(jobID: string, name: string): string {
    "jobs/" + jobID + "/" + name
  }

  /** What a worker's handlers write: job rows, output rows, the dead-letter stream. */
  class Worker {
    var jobs: map<JobId, Status>
    var outputs: map<JobId, seq<OutputRow>>
    var nextRow: nat
    var dlq: map<Seq, Entry>
    var nextSeq: Seq
    ghost var world: World

    constructor ()
      ensures Mirrors() && world == Empty
    {
      jobs, outputs, nextRow, dlq, nextSeq := map[], map[], 0, map[], 0;
      world := Empty;
    }

    /** The machine's rows and dead letters are these. */
    ghost predicate Mirrors()
      reads this
    {
      && world.jobs == jobs && world.outputs == outputs && world.nextRow == nextRow
      && world.dlq == dlq && world.nextSeq == nextSeq
    }

    /** recordOutput: delete the old rows, then insert the new one, if the insert succeeds. */
    method RecordOutput(ghost start: World, m: MsgId, ghost msg: Message, j: JobId, path: string, hit: bool,
                        inserts: bool)
      returns (ok: bool)
      requires Mirrors() && Here(start, m, world, msg, Recording(j, path, hit))
      modifies this`outputs, this`nextRow, this`world
      ensures Mirrors() && ok == inserts
      ensures Here(start, m, world, msg, if ok then Completing(j) else if hit then Working(j) else Failing(j, true))
      ensures outputs == old(outputs)[j := if ok then [OutputRow(old(nextRow), path)] else []]
      ensures nextRow == if ok then old(nextRow) + 1 else old(nextRow)
    {
      DeleteOutputStep(start, m, world, msg, j, path, hit);
      outputs := outputs[j := []];
      world := To(world, m, msg, Inserting(j, path, hit)).(outputs := outputs);
      ok := InsertOutput(start, m, msg, j, path, hit, inserts);
      assert [] + [OutputRow(old(nextRow), path)] == [OutputRow(old(nextRow), path)];
    }

    /** INSERT the output row. */
    method InsertOutput(ghost start: World, m: MsgId, ghost msg: Message, j: JobId, path: string, hit: bool,
                        inserts: bool)
      returns (ok: bool)
      requires Mirrors() && Here(start, m, world, msg, Inserting(j, path, hit)) && j in outputs
      modifies this`outputs, this`nextRow, this`world
      ensures Mirrors() && ok == inserts
      ensures Here(start, m, world, msg, if ok then Completing(j) else if hit then Working(j) else Failing(j, true))
      ensures outputs
              == if ok then old(outputs)[j := old(outputs)[j] + [OutputRow(old(nextRow), path)]] else old(outputs)
      ensures nextRow == if ok then old(nextRow) + 1 else old(nextRow)
    {
      ok := inserts;
      InsertOutputStep(start, m, world, msg, j, path, hit, ok);
      if ok {
        outputs := outputs[j := outputs[j] + [OutputRow(nextRow, path)]];
        nextRow := nextRow + 1;
        world := To(world, m, msg, Completing(j)).(outputs := outputs, nextRow := nextRow);
      } else {
        world := To(world, m, msg, if hit then Working(j) else Failing(j, true));
      }
    }

    /** NAK or Ack. */
    ghost method Judge(start: World, m: MsgId, msg: Message, pc: Pc)
      requires Mirrors() && Here(start, m, world, msg, pc) && (pc.Naking? || pc.Acking?)
      modifies this`world
      ensures Mirrors() && Over(start, m, world, msg, if pc.Acking? then Ack else Nak)
    {
      VerdictStep(start, m, world, msg, pc);
      world := world.(msgs := world.msgs[m := Judged(msg, if pc.Acking? then Ack else Nak)]);
    }

    /** handleFailure: queue the job for a retry while a delivery is owed, or fail and dead-letter it. */
    method HandleFailure(ghost start: World, m: MsgId, ghost msg: Message, j: JobId, recoverable: bool, deliveries: nat,
                         publishes: bool)
      returns (verdict: Verdict)
      requires Mirrors() && Here(start, m, world, msg, Failing(j, recoverable)) && deliveries == msg.deliveries
      modifies this`jobs, this`dlq, this`nextSeq, this`world
      ensures Mirrors() && Over(start, m, world, msg, verdict)
      ensures verdict == if recoverable && deliveries < 4 then Nak else Ack
      ensures jobs == if j in old(jobs) then old(jobs)[j := if verdict == Nak then Queued else Failed] else old(jobs)
      ensures dlq == if verdict == Ack && publishes then old(dlq)[old(nextSeq) := Entry(j)] else old(dlq)
    {
      if recoverable && deliveries < MAX_DELIVER {
        StatusStep(start, m, world, msg, Failing(j, recoverable), Go, Naking(j));
        jobs := SetStatus(jobs, j, Queued);
        world := To(world, m, msg, Naking(j)).(jobs := jobs);
        Judge(start, m, msg, Naking(j));
        return Nak;
      }
      StatusStep(start, m, world, msg, Failing(j, recoverable), Go, DeadLettering(j));
      jobs := SetStatus(jobs, j, Failed);
      world := To(world, m, msg, DeadLettering(j)).(jobs := jobs);
      DeadLetter(start, m, msg, j, publishes);
      return Ack;
    }

    /** Publish to the dead-letter stream, which may fail, and ack all the same. */
    method DeadLetter(ghost start: World, m: MsgId, ghost msg: Message, j: JobId, publishes: bool)
      requires Mirrors() && Here(start, m, world, msg, DeadLettering(j))
      modifies this`dlq, this`nextSeq, this`world
      ensures Mirrors() && Over(start, m, world, msg, Ack)
      ensures dlq == if publishes then old(dlq)[old(nextSeq) := Entry(j)] else old(dlq)
    {
      DeadLetterStep(start, m, world, msg, j, publishes);
      if publishes {
        dlq := dlq[nextSeq := Entry(j)];
        nextSeq := nextSeq + 1;
        world := To(world, m, msg, Acking).(dlq := dlq, nextSeq := nextSeq);
      } else {
        world := To(world, m, msg, Acking).(dropped := world.dropped + {j});
      }
      Judge(start, m, msg, Acking);
    }

    /** The completed update and the final Ack. */
    method Complete(ghost start: World, m: MsgId, ghost msg: Message, j: JobId)
      requires Mirrors() && Here(start, m, world, msg, Completing(j))
      modifies this`jobs, this`world
      ensures Mirrors() && Over(start, m, world, msg, Ack)
      ensures jobs == SetStatus(old(jobs), j, Completed)
    {
      StatusStep(start, m, world, msg, Completing(j), Go, Acking);
      jobs := SetStatus(jobs, j, Completed);
      world := To(world, m, msg, Acking).(jobs := jobs);
      Judge(start, m, msg, Acking);
    }

    /** tryServeFromCache, once the cached object has been copied to this key: record it and complete the job. */
    method TryServeFromCache(ghost start: World, m: MsgId, ghost msg: Message, j: JobId, path: string, inserts: bool)
      returns (served: bool)
      requires Mirrors() && Here(start, m, world, msg, Working(j)) && path != ""
      modifies this`jobs, this`outputs, this`nextRow, this`world
      ensures Mirrors() && served == inserts
      ensures if served then Over(start, m, world, msg, Ack) else Here(start, m, world, msg, Working(j))
      ensures jobs == if served && j in old(jobs) then old(jobs)[j := Completed] else old(jobs)
      ensures outputs == old(outputs)[j := if served then [OutputRow(old(nextRow), path)] else []]
      ensures nextRow == if served then old(nextRow) + 1 else old(nextRow)
    {
      QuietStep(start, m, world, msg, Working(j), CacheHit(path));
      world := To(world, m, msg, Recording(j, path, true));
      served := RecordOutput(start, m, msg, j, path, true, inserts);
      if served {
        Complete(start, m, msg, j);
      }
    }

    /** The progress updates of a conversion. */
    method ReportProgress(ghost start: World, m: MsgId, ghost msg: Message, j: JobId, ticks: nat)
      requires Mirrors() && Here(start, m, world, msg, Working(j)) && (j in jobs ==> jobs[j] == Processing)
      modifies this`jobs, this`world
      ensures Mirrors() && Here(start, m, world, msg, Working(j)) && jobs == old(jobs)
    {
      for i := 0 to ticks
        invariant Mirrors() && Here(start, m, world, msg, Working(j)) && jobs == old(jobs)
      {
        StatusStep(start, m, world, msg, Working(j), Progress, Working(j));
        jobs := SetStatus(jobs, j, Processing);
        world := To(world, m, msg, Working(j)).(jobs := jobs);
      }
    }

    /** Staging and conversion: progress updates, then an output or a fault. */
    method Convert(ghost start: World, m: MsgId, ghost msg: Message, j: JobId, jobID: string, deliveries: nat,
                   calls: Calls)
      returns (verdict: Verdict)
      requires Mirrors() && Here(start, m, world, msg, Working(j)) && deliveries == msg.deliveries
      requires j in jobs ==> jobs[j] == Processing
      modifies this
      ensures Mirrors() && Over(start, m, world, msg, verdict)
      ensures ConversionLeaves(old(Rows()), Rows(), j, jobID, deliveries, calls, verdict)
    {
      ReportProgress(start, m, msg, j, calls.ticks);
      if calls.conversion.Faulty? {
        var recoverable := calls.conversion.recoverable;
        QuietStep(start, m, world, msg, Working(j), Fault(recoverable));
        world := To(world, m, msg, Failing(j, recoverable));
        verdict := HandleFailure(start, m, msg, j, recoverable, deliveries, calls.deadLettered);
        return;
      }
      var outKey := OutputKey(jobID, calls.conversion.name);
      QuietStep(start, m, world, msg, Working(j), Converted(outKey));
      world := To(world, m, msg, Recording(j, outKey, false));
      verdict := Finish(start, m, msg, j, outKey, deliveries, calls);
    }

    /** With the output stored: record it and complete the job, or fail. */
    method Finish(ghost start: World, m: MsgId, ghost msg: Message, j: JobId, outKey: string, deliveries: nat,
                  calls: Calls)
      returns (verdict: Verdict)
      requires Mirrors() && Here(start, m, world, msg, Recording(j, outKey, false)) && deliveries == msg.deliveries
      modifies this
      ensures Mirrors() && Over(start, m, world, msg, verdict)
      ensures if calls.recorded then verdict == Ack && CompletedWith(old(Rows()), Rows(), j, outKey)
              else && FailedWith(old(Rows()), Rows(), j, true, deliveries, calls.deadLettered, verdict)
                   && outputs == old(outputs)[j := []]
    {
      var ok := RecordOutput(start, m, msg, j, outKey, false, calls.recorded);
      if !ok {
        verdict := HandleFailure(start, m, msg, j, true, deliveries, calls.deadLettered);
        return;
      }
      Complete(start, m, msg, j);
      return Ack;
    }

    /** What handlers write. */
    function Rows(): Tables
      reads this
    {
      Tables(jobs, outputs, dlq, nextSeq, nextRow)
    }

    /** The processing update. */
    method Begin(ghost start: World, m: MsgId, ghost msg: Message, j: JobId)
      requires Mirrors() && Here(start, m, world, msg, Starting(j))
      modifies this`jobs, this`world
      ensures Mirrors() && Here(start, m, world, msg, Working(j)) && jobs == SetStatus(old(jobs), j, Processing)
    {
      StatusStep(start, m, world, msg, Starting(j), Go, Working(j));
      jobs := SetStatus(jobs, j, Processing);
      world := To(world, m, msg, Working(j)).(jobs := jobs);
    }

    /** Past the status check: from the cache if it can be, else by converting. */
    method Process(ghost start: World, m: MsgId, ghost msg: Message, j: JobId, jobID: string, deliveries: nat,
                   calls: Calls)
      returns (verdict: Verdict)
      requires Mirrors() && Here(start, m, world, msg, Starting(j)) && deliveries == msg.deliveries
      modifies this
      ensures Mirrors() && Over(start, m, world, msg, verdict)
      ensures Handled(old(Rows()), Rows(), j, jobID, deliveries, calls, verdict)
    {
      Begin(start, m, msg, j);
      ghost var begun := Rows();
      if calls.cached.Some? {
        var dstKey := OutputKey(jobID, calls.cached.value);
        var served := TryServeFromCache(start, m, msg, j, dstKey, calls.copyRecorded);
        if served {
          return Ack;
        }
      }
      ghost var missed := Rows();
      verdict := Convert(start, m, msg, j, jobID, deliveries, calls);
      HandledByConversion(old(Rows()), begun, missed, Rows(), j, jobID, deliveries, calls, verdict);
    }

    /** One delivery of one message, from its receipt to its verdict; jobID is how the payload spells the job. */
    method ProcessMessage(m: MsgId, payload: Payload, jobID: string, deliveries: nat, calls: Calls)
      returns (verdict: Verdict)
      requires Mirrors() && m in world.msgs
      requires world.msgs[m].payload == payload && world.msgs[m].deliveries == deliveries
      requires world.msgs[m].place == InFlight(Received)
      modifies this
      ensures Mirrors() && Over(old(world), m, world, old(world).msgs[m], verdict)
      ensures Delivered(old(Rows()), Rows(), payload, jobID, deliveries, calls, verdict)
    {
      ghost var start, msg := world, world.msgs[m];
      Stays(start, m);
      assert msg.(place := InFlight(Received)) == msg;
      QuietStep(start, m, world, msg, Received, Go);
      world := To(world, m, msg, AfterReceive(payload));
      if payload.Garbage? {
        Judge(start, m, msg, Acking);
        return Ack;
      }
      if !payload.allowed {
        Refuse(start, m, msg, payload.job);
        return Ack;
      }
      if payload.job.None? {
        Judge(start, m, msg, Acking);
        return Ack;
      }
      verdict := Guard(start, m, msg, payload.job.value, jobID, deliveries, calls);
    }

    /** The status check. */
    method Guard(ghost start: World, m: MsgId, ghost msg: Message, j: JobId, jobID: string, deliveries: nat,
                 calls: Calls)
      returns (verdict: Verdict)
      requires Mirrors() && Here(start, m, world, msg, Guarding(j)) && deliveries == msg.deliveries
      modifies this
      ensures Mirrors() && Over(start, m, world, msg, verdict)
      ensures if j in old(jobs) && (old(jobs)[j] == Completed || old(jobs)[j] == Processing)
              then verdict == Ack && Rows() == old(Rows())
              else Handled(old(Rows()), Rows(), j, jobID, deliveries, calls, verdict)
    {
      QuietStep(start, m, world, msg, Guarding(j), Go);
      if j in jobs && (jobs[j] == Completed || jobs[j] == Processing) {
        world := To(world, m, msg, Acking);
        Judge(start, m, msg, Acking);
        return Ack;
      }
      world := To(world, m, msg, Starting(j));
      verdict := Process(start, m, msg, j, jobID, deliveries, calls);
    }

    /** A tool this service does not run: fail the job, if the id parses, and ack. */
    method Refuse(ghost start: World, m: MsgId, ghost msg: Message, job: Option<JobId>)
      requires Mirrors() && Here(start, m, world, msg, Refusing(job))
      modifies this`jobs, this`world
      ensures Mirrors() && Over(start, m, world, msg, Ack)
      ensures jobs == if job.Some? && job.value in old(jobs) then old(jobs)[job.value := Failed] else old(jobs)
    {
      StatusStep(start, m, world, msg, Refusing(job), Go, Acking);
      if job.Some? {
        jobs := SetStatus(jobs, job.value, Failed);
      }
      world := To(world, m, msg, Acking).(jobs := jobs);
      Judge(start, m, msg, Acking);
    }
  }

  datatype Tables = Tables(jobs: map<JobId, Status>, outputs: map<JobId, seq<OutputRow>>, dlq: map<Seq, Entry>,
                           nextSeq: Seq, nextRow: nat)

  /** The job, if it has a row, has this status now, and no other row has changed. */
  predicate Now(jobs: map<JobId, Status>, jobs': map<JobId, Status>, j: JobId, s: Status) {
    jobs' == if j in jobs then jobs[j := s] else jobs
  }

  /** The job is completed with this as its one output. */
  predicate CompletedWith(t: Tables, t': Tables, j: JobId, key: string) {
    && Now(t.jobs, t'.jobs, j, Completed) && t'.outputs == t.outputs[j := [OutputRow(t.nextRow, key)]]
    && t'.dlq == t.dlq && t'.nextRow == t.nextRow + 1
  }

  /** A fault: a NAK with the job queued while it is recoverable and fewer than four deliveries were made; otherwise an
      Ack with the job failed, and a dead letter if its publish succeeds. */
  predicate FailedWith(t: Tables, t': Tables, j: JobId, recoverable: bool, deliveries: nat, publishes: bool,
                       verdict: Verdict)
  {
    if recoverable && deliveries < 4 then verdict == Nak && Now(t.jobs, t'.jobs, j, Queued) && t'.dlq == t.dlq
    else
      && verdict == Ack && Now(t.jobs, t'.jobs, j, Failed)
      && t'.dlq == if publishes then t.dlq[t.nextSeq := Entry(j)] else t.dlq
  }

  /** What a conversion leaves: its stored output as the one row, or a failure; one to record the output has removed the
      earlier rows. */
  predicate ConversionLeaves(t: Tables, t': Tables, j: JobId, jobID: string, deliveries: nat, calls: Calls,
                             verdict: Verdict)
  {
    match calls.conversion
    case Stored(name) =>
      if calls.recorded then verdict == Ack && CompletedWith(t, t', j, "jobs/" + jobID + "/" + name)
      else
        && FailedWith(t, t', j, true, deliveries, calls.deadLettered, verdict)
        && t'.outputs == t.outputs[j := []]
    case Faulty(recoverable) =>
      && FailedWith(t, t', j, recoverable, deliveries, calls.deadLettered, verdict)
      && t'.outputs == t.outputs
  }

  /** What a handler that got past the status check leaves: a cached result served, or a conversion; an attempt to serve
      one that failed at its row has removed the earlier rows. */
  predicate Handled(t: Tables, t': Tables, j: JobId, jobID: string, deliveries: nat, calls: Calls, verdict: Verdict) {
    if calls.cached.Some? && calls.copyRecorded then
      verdict == Ack && CompletedWith(t, t', j, "jobs/" + jobID + "/" + calls.cached.value)
    else
      ConversionLeaves(if calls.cached.Some? then t.(outputs := t.outputs[j := []]) else t, t', j, jobID, deliveries,
                       calls, verdict)
  }

  lemma HandledByConversion(t: Tables, t1: Tables, t2: Tables, t3: Tables, j: JobId, jobID: string, deliveries: nat,
                            calls: Calls, verdict: Verdict)
    requires t1 == t.(jobs := SetStatus(t.jobs, j, Processing))
    requires t2 == if calls.cached.Some? then t1.(outputs := t1.outputs[j := []]) else t1
    requires ConversionLeaves(t2, t3, j, jobID, deliveries, calls, verdict)
    requires !(calls.cached.Some? && calls.copyRecorded)
    ensures Handled(t, t3, j, jobID, deliveries, calls, verdict)
  {
    Overwritten(t.jobs, j, Completed);
    Overwritten(t.jobs, j, Queued);
    Overwritten(t.jobs, j, Failed);
  }

  lemma Overwritten(jobs: map<JobId, Status>, j: JobId, s: Status)
    ensures SetStatus(SetStatus(jobs, j, Processing), j, s) == SetStatus(jobs, j, s)
  {
  }

  /** What one delivery leaves, by payload and by the status it found. */
  predicate Delivered(t: Tables, t': Tables, payload: Payload, jobID: string, deliveries: nat, calls: Calls,
                      verdict: Verdict)
  {
    match payload
    case Garbage => verdict == Ack && t' == t
    case Payload(job, allowed) =>
      if !allowed then
        && verdict == Ack && t' == t.(jobs := t'.jobs)
        && if job.Some? then Now(t.jobs, t'.jobs, job.value, Failed) else t'.jobs == t.jobs
      else if || job.None?
              || (job.value in t.jobs && (t.jobs[job.value] == Completed || t.jobs[job.value] == Processing)) then
        verdict == Ack && t' == t
      else Handled(t, t', job.value, jobID, deliveries, calls, verdict)
  }
}
