/** Delivery of dispatched jobs: the JetStream work queue, the worker handlers of
    convert-to-pdf/internal/worker/worker.go, the dead-letter queue, its redrive
    (job-service/handlers/dlq.go) and the download path of job-service/handlers/jobs.go.

    One step is one database statement or one broker call.  A message is in at most one
    handler at a time: redelivery while a handler runs is not part of the model.  Nor is the
    return of an entry to the very fetch in which it was NAKed. */
module Delivery {
  import opened Wrappers

  type JobId = nat
  type MsgId = nat
  type Seq = nat

  datatype Status = Queued | Processing | Completed | Failed

  datatype OutputRow = OutputRow(id: nat, path: string)

  /** A dispatch message: not JSON, or a tool (allowed here or not) and a job id (a UUID or not). */
  datatype Payload = Garbage | Payload(job: Option<JobId>, allowed: bool)

  datatype Verdict = Ack | Nak

  /** Where a handler is: the next statement it executes. */
  datatype Pc =
    | Received                                          // unmarshal, tool check, UUID check
    | Refusing(named: Option<JobId>)                     // UPDATE failed: unsupported tool
    | Guarding(job: JobId)                              // SELECT status
    | Starting(job: JobId)                              // UPDATE processing
    | Working(job: JobId)                               // cache lookup, staging, conversion
    | Recording(job: JobId, path: string, hit: bool)    // DELETE old output rows
    | Inserting(job: JobId, path: string, hit: bool)    // INSERT the output row
    | Completing(job: JobId)                            // UPDATE completed
    | Failing(job: JobId, recoverable: bool)            // handleFailure: UPDATE queued or failed
    | Naking(job: JobId)                                // NakWithDelay
    | DeadLettering(job: JobId)                         // publish to the DLQ
    | Acking                                            // Ack

  datatype Place = Pending | InFlight(pc: Pc) | Settled

  datatype Message = Message(payload: Payload, deliveries: nat, place: Place, verdicts: seq<Verdict>)

  datatype Entry = Entry(job: JobId)

  /** A redrive request: what it fetched, how far it is, and whether it has republished
      entry i and not yet deleted it. */
  datatype Redrive = Redrive(batch: seq<(Seq, Entry)>, i: nat, published: bool)

  datatype Download = Checked(job: JobId) | Read(job: JobId, row: OutputRow)

  datatype World = World(
    jobs: map<JobId, Status>,
    outputs: map<JobId, seq<OutputRow>>,
    msgs: map<MsgId, Message>,
    dlq: map<Seq, Entry>,
    redrives: map<nat, Redrive>,
    downloads: map<nat, Download>,
    outputFileCache: map<JobId, OutputRow>,
    created: set<JobId>,
    dispatched: map<JobId, bool>,
    expiring: set<JobId>,
    retired: set<JobId>,
    dropped: set<JobId>,
    republished: set<Seq>,
    nextMsg: nat, nextSeq: nat, nextRow: nat)

  const Empty: World :=
    World(map[], map[], map[], map[], map[], map[], map[], {}, map[], {}, {}, {}, {}, 0, 0, 0)

  const MAX_DELIVER := 4

  /** What happens next inside a handler; Go is the only choice outside Working. */
  datatype Act = Go | Refused | Progress | CacheHit(path: string) | Converted(path: string) | Fault(recoverable: bool)

  datatype Step =
    | CreateJob(job: JobId)
    | Dispatch(job: JobId, allowed: bool)
    | Inject(payload: Payload)                // a message that names no job
    | Deliver(m: MsgId)
    | Handle(m: MsgId, act: Act)
    | StartRedrive(r: nat, batch: seq<(Seq, Entry)>)
    | Republish(r: nat, ok: bool)
    | DeleteEntry(r: nat, ok: bool)
    | DeleteFiles(job: JobId)                 // first statement of the sweep, or of DeleteJobByID
    | DeleteRow(job: JobId)                   // its second
    | CheckDownload(d: nat, job: JobId)       // SELECT the job: it is completed
    | ReadOutput(d: nat)                      // outputFileCache.Load, or SELECT the output row
    | StoreOutput(d: nat)                     // outputFileCache.Store

  /** What may happen at this statement.  A stored output has a key: recordOutput refuses an empty one. */
  predicate Choice(pc: Pc, act: Act) {
    match pc
    case Working(_) =>
      && act != Go && act != Refused
      && (act.CacheHit? ==> act.path != "") && (act.Converted? ==> act.path != "")
    case Inserting(_, _, _) => act == Go || act == Refused
    case DeadLettering(_) => act == Go || act == Refused
    case _ => act == Go
  }

  predicate Fetched(w: World, batch: seq<(Seq, Entry)>) {
    && batch != []
    && (forall k :: 0 <= k < |batch| ==> batch[k].0 in w.dlq && w.dlq[batch[k].0] == batch[k].1)
    && (forall a, b :: 0 <= a < b < |batch| ==> batch[a].0 != batch[b].0)
  }

  predicate Enabled(w: World, step: Step) {
    match step
    case CreateJob(j) => j !in w.created
    case Dispatch(j, _) => j in w.created && j !in w.dispatched
    case Inject(p) => p.Garbage? || p.job.None?
    case Deliver(m) => m in w.msgs && w.msgs[m].place.Pending? && w.msgs[m].deliveries < MAX_DELIVER
    case Handle(m, act) => m in w.msgs && w.msgs[m].place.InFlight? && Choice(w.msgs[m].place.pc, act)
    case StartRedrive(r, batch) => r !in w.redrives && Fetched(w, batch)
    case Republish(r, _) => r in w.redrives && !w.redrives[r].published && w.redrives[r].i < |w.redrives[r].batch|
    case DeleteEntry(r, _) => r in w.redrives && w.redrives[r].published && w.redrives[r].i < |w.redrives[r].batch|
    case DeleteFiles(j) => j in w.jobs
    case DeleteRow(j) => j in w.jobs && j in w.expiring
    case CheckDownload(d, j) => d !in w.downloads && j in w.jobs && w.jobs[j] == Completed
    case ReadOutput(d) => d in w.downloads && w.downloads[d].Checked?
    case StoreOutput(d) => d in w.downloads && w.downloads[d].Read?
  }

  /** UPDATE processing_jobs SET status WHERE id: no row, no effect. */
  function SetStatus(jobs: map<JobId, Status>, j: JobId, s: Status): map<JobId, Status> {
    if j in jobs then jobs[j := s] else jobs
  }

  function Rows(outputs: map<JobId, seq<OutputRow>>, j: JobId): seq<OutputRow> {
    if j in outputs then outputs[j] else []
  }

  function Post(w: World, payload: Payload): World {
    w.(msgs := w.msgs[w.nextMsg := Message(payload, 0, Pending, [])], nextMsg := w.nextMsg + 1)
  }

  /** The redrive loop moves on to its next entry, or ends. */
  function Advance(redrives: map<nat, Redrive>, r: nat): map<nat, Redrive>
    requires r in redrives
  {
    var v := redrives[r];
    if v.i + 1 < |v.batch| then redrives[r := Redrive(v.batch, v.i + 1, false)] else redrives - {r}
  }

  function Apply(w: World, step: Step): World
    requires Enabled(w, step)
  {
    match step
    case CreateJob(j) => w.(jobs := w.jobs[j := Queued], created := w.created + {j})
    case Dispatch(j, allowed) => Post(w, Payload(Some(j), allowed)).(dispatched := w.dispatched[j := allowed])
    case Inject(p) => Post(w, p)
    case Deliver(m) =>
      var msg := w.msgs[m];
      w.(msgs := w.msgs[m := msg.(deliveries := msg.deliveries + 1, place := InFlight(Received))])
    case Handle(m, act) => RunHandler(w, m, act)
    case StartRedrive(r, batch) => w.(redrives := w.redrives[r := Redrive(batch, 0, false)])
    case Republish(r, ok) =>
      var v := w.redrives[r];
      if ok then
        Post(w, Payload(Some(v.batch[v.i].1.job), true)).(redrives := w.redrives[r := v.(published := true)],
                                                          republished := w.republished + {v.batch[v.i].0})
      else w.(redrives := Advance(w.redrives, r))
    case DeleteEntry(r, ok) =>
      var v := w.redrives[r];
      w.(redrives := Advance(w.redrives, r), dlq := if ok then w.dlq - {v.batch[v.i].0} else w.dlq)
    case DeleteFiles(j) => w.(outputs := w.outputs[j := []], expiring := w.expiring + {j})
    case DeleteRow(j) => w.(jobs := w.jobs - {j}, retired := w.retired + {j})
    case _ =>
      w.(downloads := NextDownloads(w.downloads, w.outputs, w.outputFileCache, step),
         outputFileCache := NextCache(w.downloads, w.outputFileCache, step))
  }

  /** DownloadJobFile: a cache hit and a missing row both end it; a row read is still to be stored. */
  function NextDownloads(downloads: map<nat, Download>, outputs: map<JobId, seq<OutputRow>>,
                         cache: map<JobId, OutputRow>, step: Step): map<nat, Download>
  {
    match step
    case CheckDownload(d, j) => downloads[d := Checked(j)]
    case ReadOutput(d) =>
      if d !in downloads then downloads
      else var j := downloads[d].job;
           if j in cache || Rows(outputs, j) == [] then downloads - {d}
           else downloads[d := Read(j, Rows(outputs, j)[0])]
    case StoreOutput(d) => downloads - {d}
    case _ => downloads
  }

  function NextCache(downloads: map<nat, Download>, cache: map<JobId, OutputRow>, step: Step): map<JobId, OutputRow> {
    if step.StoreOutput? && step.d in downloads && downloads[step.d].Read?
    then cache[downloads[step.d].job := downloads[step.d].row] else cache
  }

  /** Parsing the message: the three acks before the status check. */
  function AfterReceive(p: Payload): Pc {
    match p
    case Garbage => Acking
    case Payload(job, allowed) =>
      if !allowed then Refusing(job) else if job.None? then Acking else Guarding(job.value)
  }

  /** handleFailure retries while the fault is recoverable and a delivery is still owed. */
  predicate Retries(recoverable: bool, deliveries: nat) {
    recoverable && deliveries < MAX_DELIVER
  }

  /** Where the handler goes. */
  function NextPc(jobs: map<JobId, Status>, msg: Message, act: Act): Pc
    requires msg.place.InFlight? && Choice(msg.place.pc, act)
  {
    match msg.place.pc
    case Received => AfterReceive(msg.payload)
    case Refusing(_) => Acking
    case Guarding(j) =>
      if j in jobs && (jobs[j] == Completed || jobs[j] == Processing) then Acking else Starting(j)
    case Starting(j) => Working(j)
    case Working(j) =>
      (match act
       case CacheHit(path) => Recording(j, path, true)
       case Converted(path) => Recording(j, path, false)
       case Fault(recoverable) => Failing(j, recoverable)
       case _ => Working(j))
    case Recording(j, path, hit) => Inserting(j, path, hit)
    case Inserting(j, _, hit) =>
      if act == Go then Completing(j) else if hit then Working(j) else Failing(j, true)
    case Completing(_) => Acking
    case Failing(j, recoverable) => if Retries(recoverable, msg.deliveries) then Naking(j) else DeadLettering(j)
    case DeadLettering(_) => Acking
    case pc => pc
  }

  function NextMessage(jobs: map<JobId, Status>, msg: Message, act: Act): Message
    requires msg.place.InFlight? && Choice(msg.place.pc, act)
  {
    match msg.place.pc
    case Naking(_) => msg.(place := Pending, verdicts := msg.verdicts + [Nak])
    case Acking => msg.(place := Settled, verdicts := msg.verdicts + [Ack])
    case _ => msg.(place := InFlight(NextPc(jobs, msg, act)))
  }

  /** The status updates of the handler. */
  function NextJobs(jobs: map<JobId, Status>, pc: Pc, deliveries: nat, act: Act): map<JobId, Status> {
    match pc
    case Refusing(named) => if named.Some? then SetStatus(jobs, named.value, Failed) else jobs
    case Starting(j) => SetStatus(jobs, j, Processing)
    case Working(j) => if act == Progress then SetStatus(jobs, j, Processing) else jobs
    case Completing(j) => SetStatus(jobs, j, Completed)
    case Failing(j, recoverable) => SetStatus(jobs, j, if Retries(recoverable, deliveries) then Queued else Failed)
    case _ => jobs
  }

  /** recordOutput: delete the old rows, insert the new one. */
  function NextOutputs(outputs: map<JobId, seq<OutputRow>>, pc: Pc, act: Act, rowId: nat): map<JobId, seq<OutputRow>> {
    match pc
    case Recording(j, _, _) => outputs[j := []]
    case Inserting(j, path, _) =>
      if act == Go then outputs[j := Rows(outputs, j) + [OutputRow(rowId, path)]] else outputs
    case _ => outputs
  }

  /** The dead-letter publish, which may fail; the handler acks all the same. */
  function NextDlq(dlq: map<Seq, Entry>, pc: Pc, act: Act, next: Seq): map<Seq, Entry> {
    if pc.DeadLettering? && act == Go then dlq[next := Entry(pc.job)] else dlq
  }

  function NextSeq(next: Seq, pc: Pc, act: Act): Seq {
    if pc.DeadLettering? && act == Go then next + 1 else next
  }

  function NextRow(next: nat, pc: Pc, act: Act): nat {
    if pc.Inserting? && act == Go then next + 1 else next
  }

  function NextDropped(dropped: set<JobId>, pc: Pc, act: Act): set<JobId> {
    if pc.DeadLettering? && act != Go then dropped + {pc.job} else dropped
  }

  /** One statement of the handler of message m. */
  function RunHandler(w: World, m: MsgId, act: Act): World
    requires m in w.msgs && w.msgs[m].place.InFlight? && Choice(w.msgs[m].place.pc, act)
  {
    var msg, pc := w.msgs[m], w.msgs[m].place.pc;
    w.(msgs := w.msgs[m := NextMessage(w.jobs, msg, act)],
       jobs := NextJobs(w.jobs, pc, msg.deliveries, act),
       outputs := NextOutputs(w.outputs, pc, act, w.nextRow),
       nextRow := NextRow(w.nextRow, pc, act),
       dlq := NextDlq(w.dlq, pc, act, w.nextSeq),
       nextSeq := NextSeq(w.nextSeq, pc, act),
       dropped := NextDropped(w.dropped, pc, act))
  }

  predicate Legal(w: World, steps: seq<Step>)
    decreases |steps|
  {
    steps == [] || (Enabled(w, steps[0]) && Legal(Apply(w, steps[0]), steps[1..]))
  }

  function Exec(w: World, steps: seq<Step>): World
    requires Legal(w, steps)
    decreases |steps|
  {
    if steps == [] then w else Exec(Apply(w, steps[0]), steps[1..])
  }

  /** A run can be extended by any step that is enabled at its end. */
  lemma {:induction false} RunSnoc(w: World, steps: seq<Step>, step: Step)
    requires Legal(w, steps) && Enabled(Exec(w, steps), step)
    ensures Legal(w, steps + [step]) && Exec(w, steps + [step]) == Apply(Exec(w, steps), step)
    decreases |steps|
  {
    if steps == [] {
      assert [step][1..] == [];
    } else {
      RunSnoc(Apply(w, steps[0]), steps[1..], step);
      assert (steps + [step])[1..] == steps[1..] + [step];
    }
  }

  ghost predicate Reachable(w: World) {
    exists steps :: Legal(Empty, steps) && Exec(Empty, steps) == w
  }

  /** Redrive v has fetched entry s and is not done with it. */
  predicate Holds(v: Redrive, s: Seq) {
    exists k :: v.i <= k < |v.batch| && v.batch[k].0 == s
  }

  ghost predicate Held(redrives: map<nat, Redrive>, s: Seq) {
    exists r :: r in redrives && Holds(redrives[r], s)
  }

  /** A redrive fetches no entry that another redrive still holds, and none that has been republished before, as when
      its delete failed.  Redrives may otherwise overlap, and deletes may fail. */
  ghost predicate CarefulStep(w: World, step: Step) {
    step.StartRedrive? ==>
      forall k :: 0 <= k < |step.batch| ==> step.batch[k].0 !in w.republished && !Held(w.redrives, step.batch[k].0)
  }

  ghost predicate Careful(w: World, steps: seq<Step>)
    requires Legal(w, steps)
    decreases |steps|
  {
    steps == [] || (CarefulStep(w, steps[0]) && Careful(Apply(w, steps[0]), steps[1..]))
  }

  ghost predicate CarefullyReachable(w: World) {
    exists steps :: Legal(Empty, steps) && Careful(Empty, steps) && Exec(Empty, steps) == w
  }
}
