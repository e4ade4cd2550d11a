/** The job-submission protocol of job-service/handlers/jobs.go as a transition system.

    Any number of CreateJobFromTool requests run interleaved.  One step is one call to
    Redis or the database; between two steps of a request any other step may happen:
    steps of other requests, and the upload handlers of uploads.go. */
module Submission {
  import opened Wrappers

  type UploadId = string
  type JobId = nat
  type RequestId = nat

  /** The two fields of the hash upload:{id} that job creation reads; "" is a missing field. */
  datatype Session = Session(fileName: string, key: string)

  datatype Body = Json(ids: seq<UploadId>) | Multipart(files: seq<string>)

  datatype Outcome = Created | Existing(job: JobId) | Conflict | Rejected | Failed

  /** Where a request is: the next Redis or database call it makes. */
  datatype Pc =
    | Arrived                                                    // SETNX idempotency:{key}
    | KeyHeld                                                    // GET idempotency:{key}
    | KeyRead(owner: JobId)                                      // SELECT the job the key names
    | Checking                                                   // body checks, no shared state
    | Finding(i: nat, found: Option<JobId>, conflicted: bool)    // GET idempotency:upload:{ids[i]}
    | Validating                                                 // tool options, no shared state
    | Claiming(i: nat)                                           // SETNX claim:upload:{ids[i]}
    | Unclaiming(i: nat, taken: bool)                            // DEL the claims of ids[..i]
    | Consuming(i: nat, paths: seq<string>)                      // HGETALL upload:{ids[i]}, stat, sniff
    | Committing(paths: seq<string>)                             // the job transaction
    | Publishing(paths: seq<string>)                             // publish on the dispatch subject
    | Recording(i: nat)                                          // SET idempotency:upload:{ids[i]}
    | Clearing(i: nat)                                           // DEL upload:{ids[i]}
    | ReleasingClaims(outcome: Outcome)                          // deferred DEL of all claims
    | ReleasingKey(outcome: Outcome)                             // deferred DEL of the reservation
    | Done(outcome: Outcome)

  datatype Request = Request(key: Option<string>, body: Body, job: JobId,
                             reserved: bool, committed: bool, pc: Pc)
  {
    function Ids(): seq<UploadId> {
      if body.Json? then body.ids else []
    }
  }

  datatype JobRow = JobRow(owner: RequestId, paths: seq<string>)

  datatype Event = Event(owner: RequestId, job: JobId, ids: seq<UploadId>, paths: seq<string>)

  /** Where the consumed-upload record of an upload is, below idempotency:.  An Idempotency-Key header h is below it
      too, at h itself and unchecked, so a header may name a record. */
  function RecordKey(id: UploadId): string {
    "upload:" + id
  }

  /** Shared state.  keys is what Redis has below idempotency:, reservations and consumed-upload records alike: always a
      job id, with ten minutes to live from when it is set.  The request that set a claim is kept for the proofs; no
      step reads it.
      origin, lapsed, retired and issued only record history. */
  datatype World = World(
    sessions: map<UploadId, Session>,
    claims: map<UploadId, RequestId>,
    keys: map<string, JobId>,
    jobs: map<JobId, JobRow>,
    dispatched: seq<Event>,
    requests: map<RequestId, Request>,
    origin: map<UploadId, Session>,
    lapsed: set<string>,
    retired: set<JobId>,
    issued: set<JobId>)

  const Empty: World := World(map[], map[], map[], map[], [], map[], map[], {}, {}, {})

  datatype Step =
    | Arrive(q: RequestId, key: Option<string>, body: Body, job: JobId)
    | Run(q: RequestId, ok: bool)            // ok = false: the call or check fails where it may
    | InitUpload(id: UploadId, session: Session)
    | CompleteUpload(id: UploadId)           // its HSET, however late it lands
    | DropSession(id: UploadId)              // abort, upload TTL, or the cleanup sweep
    | LapseKey(name: string)                 // TTL of a reservation or a consumed-upload record
    | DeleteJob(job: JobId)                  // by its owner, or by the cleanup sweep

  predicate Enabled(w: World, step: Step) {
    match step
    case Arrive(q, _, _, job) => q !in w.requests && job !in w.issued
    case Run(q, _) => q in w.requests && !w.requests[q].pc.Done?
    case InitUpload(id, s) => id !in w.origin && id != "" && s.fileName != "" && s.key != ""
    case CompleteUpload(id) => id in w.origin
    case DropSession(_) => true
    case LapseKey(k) => k in w.keys
    case DeleteJob(job) => job in w.jobs
  }

  function Apply(w: World, step: Step): World
    requires Enabled(w, step)
  {
    match step
    case Arrive(q, key, body, job) =>
      w.(requests := w.requests[q := Request(key, body, job, false, false, Arrived)],
         issued := w.issued + {job})
    case Run(q, ok) => RunRequest(w, q, ok)
    case InitUpload(id, s) => w.(sessions := w.sessions[id := s], origin := w.origin[id := s])
    case CompleteUpload(id) =>
      if id in w.sessions then w else w.(sessions := w.sessions[id := Session("", "")])
    case DropSession(id) => w.(sessions := w.sessions - {id})
    case LapseKey(k) => w.(keys := w.keys - {k}, lapsed := w.lapsed + {k})
    case DeleteJob(job) => w.(jobs := w.jobs - {job}, retired := w.retired + {job})
  }

  function Elements(ids: seq<UploadId>): set<UploadId> {
    set id | id in ids
  }

  /** What consumeUpload accepts, before its checks of the stored object. */
  predicate Consumable(sessions: map<UploadId, Session>, id: UploadId) {
    id != "" && id in sessions && sessions[id].fileName != "" && sessions[id].key != ""
  }

  function Goto(w: World, q: RequestId, pc: Pc): World
    requires q in w.requests
  {
    w.(requests := w.requests[q := w.requests[q].(pc := pc)])
  }

  function NotFound(conflicted: bool): Pc {
    if conflicted then ReleasingKey(Conflict) else Validating
  }

  /** A step that only reads shared state, and where it goes. */
  predicate OnlyReads(pc: Pc) {
    pc.KeyHeld? || pc.KeyRead? || pc.Checking? || pc.Finding? || pc.Validating?
  }

  function NextPc(w: World, r: Request, ok: bool): Pc
    requires OnlyReads(r.pc)
  {
    var ids := r.Ids();
    match r.pc
    case KeyHeld =>
      if r.key.Some? && r.key.value in w.keys then KeyRead(w.keys[r.key.value]) else Done(Conflict)
    case KeyRead(owner) => Done(if owner in w.jobs then Existing(owner) else Conflict)
    case Checking =>
      (match r.body
       case Json(_) => if ok && ids != [] then Finding(0, None, false) else ReleasingKey(Rejected)
       case Multipart(files) => if ok && files != [] then Committing(files) else ReleasingKey(Rejected))
    case Finding(i, found, conflicted) =>
      if i >= |ids| then
        if found.Some? && found.value in w.jobs then ReleasingKey(Existing(found.value)) else NotFound(conflicted)
      else if ids[i] == "" || RecordKey(ids[i]) !in w.keys
              || (found.Some? && found.value != w.keys[RecordKey(ids[i])])
      then NotFound(conflicted)
      else Finding(i + 1, Some(w.keys[RecordKey(ids[i])]), conflicted)
    case Validating => if ok then Claiming(0) else ReleasingKey(Rejected)
  }

  /** SETNX and DEL of the claim keys. */
  function NextClaims(claims: map<UploadId, RequestId>, q: RequestId, r: Request, ok: bool): map<UploadId, RequestId> {
    var ids := r.Ids();
    match r.pc
    case Claiming(i) => if i < |ids| && ok && ids[i] !in claims then claims[ids[i] := q] else claims
    case Unclaiming(i, _) => claims - Elements(if i <= |ids| then ids[..i] else ids)
    case ReleasingClaims(_) => claims - Elements(ids)
    case _ => claims
  }

  /** SETNX and DEL of the reservation, SET of the records. */
  function NextKeys(keys: map<string, JobId>, r: Request): map<string, JobId> {
    match r.pc
    case Arrived =>
      if r.key.Some? && r.key.value !in keys then keys[r.key.value := r.job] else keys
    case Recording(i) =>
      if i < |r.Ids()| && r.Ids()[i] != "" then keys[RecordKey(r.Ids()[i]) := r.job] else keys
    case ReleasingKey(_) =>
      if r.reserved && !r.committed && r.key.Some? then keys - {r.key.value} else keys
    case _ => keys
  }

  function NextSessions(sessions: map<UploadId, Session>, r: Request): map<UploadId, Session> {
    if r.pc.Clearing? && r.pc.i < |r.Ids()| then sessions - {r.Ids()[r.pc.i]} else sessions
  }

  function NextJobs(jobs: map<JobId, JobRow>, q: RequestId, r: Request, ok: bool): map<JobId, JobRow> {
    if r.pc.Committing? && ok then jobs[r.job := JobRow(q, r.pc.paths)] else jobs
  }

  function NextDispatched(dispatched: seq<Event>, q: RequestId, r: Request, ok: bool): seq<Event> {
    if r.pc.Publishing? && ok then dispatched + [Event(q, r.job, r.Ids(), r.pc.paths)] else dispatched
  }

  function NextRequest(w: World, r: Request, ok: bool): Request {
    if OnlyReads(r.pc) then r.(pc := NextPc(w, r, ok)) else
    var ids := r.Ids();
    match r.pc
    case Arrived =>
      if r.key.None? then r.(pc := Checking)
      else if r.key.value in w.keys then r.(pc := KeyHeld)
      else r.(reserved := true, pc := Checking)
    case Claiming(i) =>
      r.(pc := if i >= |ids| then Consuming(0, [])
               else if !ok then Unclaiming(i, false)
               else if ids[i] in w.claims then Unclaiming(i, true)
               else Claiming(i + 1))
    case Unclaiming(_, taken) => r.(pc := if taken then Finding(0, None, true) else ReleasingKey(Failed))
    case Consuming(i, paths) =>
      r.(pc := if i >= |ids| then Committing(paths)
               else if ok && Consumable(w.sessions, ids[i]) then Consuming(i + 1, paths + [w.sessions[ids[i]].key])
               else ReleasingClaims(Rejected))
    case Committing(paths) =>
      if ok then r.(committed := true, pc := Publishing(paths)) else r.(pc := ReleasingClaims(Failed))
    case Publishing(_) => r.(pc := if ok then Recording(0) else ReleasingClaims(Failed))
    case Recording(i) => r.(pc := if i >= |ids| then ReleasingClaims(Created) else Clearing(i))
    case Clearing(i) => r.(pc := Recording(i + 1))
    case ReleasingClaims(outcome) => r.(pc := ReleasingKey(outcome))
    case ReleasingKey(outcome) => r.(pc := Done(outcome))
    case _ => r
  }

  /** One call of request q. */
  function RunRequest(w: World, q: RequestId, ok: bool): World
    requires q in w.requests && !w.requests[q].pc.Done?
  {
    var r := w.requests[q];
    w.(claims := NextClaims(w.claims, q, r, ok),
       keys := NextKeys(w.keys, r),
       sessions := NextSessions(w.sessions, r),
       jobs := NextJobs(w.jobs, q, r, ok),
       dispatched := NextDispatched(w.dispatched, q, r, ok),
       requests := w.requests[q := NextRequest(w, r, ok)])
  }

  /** The world after a list of steps, each of which could be taken. */
  predicate Legal(w: World, steps: seq<Step>)
    decreases |steps|
  {
    steps == [] || (Enabled(w, steps[0]) && Legal(Apply(w, steps[0]), steps[1..]))
  }

  function Exec(w: World, steps: seq<Step>): World
    requires Legal(w, steps)
    decreases |steps|
  {
    if steps == [] then w else Exec(Apply(w, steps[0]), steps[1..])
  }

  /** A run can be extended by any step that is enabled at its end. */
  lemma {:induction false} RunSnoc(w: World, steps: seq<Step>, step: Step)
    requires Legal(w, steps) && Enabled(Exec(w, steps), step)
    ensures Legal(w, steps + [step]) && Exec(w, steps + [step]) == Apply(Exec(w, steps), step)
    decreases |steps|
  {
    if steps == [] {
      assert [step][1..] == [];
    } else {
      RunSnoc(Apply(w, steps[0]), steps[1..], step);
      assert (steps + [step])[1..] == steps[1..] + [step];
    }
  }

  ghost predicate Reachable(w: World) {
    exists steps :: Legal(Empty, steps) && Exec(Empty, steps) == w
  }

  // ------------------------------------------------------------ Which Idempotency-Keys arrive

  /** A header that is the record key of some upload.  "upload:" alone is not: no upload id is empty. */
  predicate Collides(key: string) {
    "upload:" < key
  }

  /** Every Idempotency-Key of the run is one of these. */
  ghost predicate KeysFrom(admitted: iset<string>, steps: seq<Step>) {
    forall i :: 0 <= i < |steps| && steps[i].Arrive? && steps[i].key.Some? ==> steps[i].key.value in admitted
  }

  ghost predicate ReachableOn(admitted: iset<string>, w: World) {
    exists steps :: Legal(Empty, steps) && KeysFrom(admitted, steps) && Exec(Empty, steps) == w
  }
}
