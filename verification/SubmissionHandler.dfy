/** CreateJobFromTool as the program it is: the loops, early returns and deferred releases of
    job-service/handlers/jobs.go over Redis, the database and the uploads bucket, run with no other request in between.
    A ghost copy of the protocol machine takes the same calls, so each handler is proved to be a run of it. */
module SubmissionHandler {
  import opened Wrappers
  import opened Submission
  import opened SubmissionCalls
  import opened SubmissionOutcomes
  import opened SubmissionSafety

  /** Redis, the database and the uploads bucket of job-service. */
  class Server {
    var sessions: map<UploadId, Session>
    var claims: map<UploadId, RequestId>
    var keys: map<string, JobId>
    var jobs: map<JobId, JobRow>
    var dispatched: seq<Event>
    var objects: set<string>
    ghost var world: World

    constructor ()
      ensures Mirrors() && world == Empty
    {
      sessions, claims, keys, jobs, dispatched, objects := map[], map[], map[], map[], [], {};
      world := Empty;
    }

    /** The machine's shared state is this one. */
    ghost predicate Mirrors()
      reads this
    {
      && world.sessions == sessions && world.claims == claims && world.keys == keys
      && world.jobs == jobs && world.dispatched == dispatched
    }

    function Uploads(): UploadState
      reads this`sessions, this`keys
    {
      UploadState(sessions, keys)
    }

    function Queued(): JobState
      reads this`jobs, this`dispatched
    {
      JobState(jobs, dispatched)
    }

    /** claimUploads: one SETNX per id; the first that fails undoes the others. */
    method ClaimUploads(ghost start: World, q: RequestId, ghost r: Request, uploadIDs: seq<UploadId>,
                        calls: nat -> bool)
      returns (claimed: bool, conflict: bool)
      requires Mirrors() && Here(start, q, world, r, Claiming(0)) && r.Ids() == uploadIDs
      modifies this`claims, this`world
      ensures Mirrors()
      ensures Here(start, q, world, r, if claimed then Consuming(0, [])
                                       else if conflict then Finding(0, None, true) else ReleasingKey(Failed))
      ensures if claimed then Claimed(old(claims), claims, q, uploadIDs) else claims == old(claims)
      ensures claimed <==> AllFree(old(claims), uploadIDs, calls)
      ensures conflict <==> Contested(old(claims), uploadIDs, calls)
    {
      NoneClaimed(claims, q);
      var i := 0;
      while i < |uploadIDs|
        invariant 0 <= i <= |uploadIDs| && Mirrors() && Here(start, q, world, r, Claiming(i))
        invariant Claimed(old(claims), claims, q, uploadIDs[..i])
        invariant forall k :: 0 <= k < i ==> Free(old(claims), uploadIDs, calls, k)
      {
        var id, ok := uploadIDs[i], calls(i);
        ClaimStep(start, q, world, r, i, ok);
        OneMoreClaimed(old(claims), claims, q, uploadIDs, i);
        if !ok || id in claims {
          world := Goto(world, q, Unclaiming(i, ok));
          ClaimsUndone(old(claims), claims, q, uploadIDs[..i]);
          Unclaim(start, q, r, uploadIDs, i, ok);
          StopsAt(old(claims), uploadIDs, calls, i);
          return false, ok;
        }
        claims := claims[id := q];
        world := Goto(world.(claims := claims), q, Claiming(i + 1));
        i := i + 1;
      }
      assert uploadIDs[..i] == uploadIDs;
      assert AllFree(old(claims), uploadIDs, calls);
      ClaimedStep(start, q, world, r);
      world := Goto(world, q, Consuming(0, []));
      return true, false;
    }

    /** The claims set so far are released when a later one fails. */
    method Unclaim(ghost start: World, q: RequestId, ghost r: Request, uploadIDs: seq<UploadId>, i: nat, taken: bool)
      requires Mirrors() && Here(start, q, world, r, Unclaiming(i, taken)) && r.Ids() == uploadIDs && i < |uploadIDs|
      modifies this`claims, this`world
      ensures Mirrors() && claims == old(claims) - Elements(uploadIDs[..i])
      ensures Here(start, q, world, r, if taken then Finding(0, None, true) else ReleasingKey(Failed))
    {
      UnclaimStep(start, q, world, r, i, taken);
      ReleaseUploadClaims(uploadIDs[..i]);
      world := Goto(world.(claims := claims), q, if taken then Finding(0, None, true) else ReleasingKey(Failed));
    }

    /** One DEL of all these claim keys. */
    method ReleaseUploadClaims(uploadIDs: seq<UploadId>)
      modifies this`claims
      ensures claims == old(claims) - Elements(uploadIDs)
    {
      claims := claims - Elements(uploadIDs);
    }

    /** The loop of findExistingJobForUploads: one GET per id, until one is missing or names another job. */
    method ReadRecords(ghost start: World, q: RequestId, ghost r: Request, conflicted: bool, uploadIDs: seq<UploadId>)
      returns (all: bool, jobID: Option<JobId>)
      requires Mirrors() && Here(start, q, world, r, Finding(0, None, conflicted)) && r.Ids() == uploadIDs
      modifies this`world
      ensures Mirrors()
      ensures all ==> AllRecorded(keys, uploadIDs, jobID)
      ensures !all ==> forall jobs :: FindExisting(keys, jobs, uploadIDs) == None
      ensures Here(start, q, world, r, if all then Finding(|uploadIDs|, jobID, conflicted) else NotFound(conflicted))
    {
      jobID := None;
      var i := 0;
      while i < |uploadIDs|
        invariant 0 <= i <= |uploadIDs| && Mirrors() && Here(start, q, world, r, Finding(i, jobID, conflicted))
        invariant AllRecorded(keys, uploadIDs[..i], jobID)
      {
        var id := uploadIDs[i];
        ReadStep(start, q, world, r, Finding(i, jobID, conflicted), true);
        RecordedSoFar(keys, uploadIDs, i, jobID);
        if id == "" || RecordKey(id) !in keys || (jobID.Some? && keys[RecordKey(id)] != jobID.value) {
          world := Goto(world, q, NotFound(conflicted));
          return false, None;
        }
        jobID := Some(keys[RecordKey(id)]);
        i := i + 1;
        world := Goto(world, q, Finding(i, jobID, conflicted));
      }
      assert uploadIDs[..i] == uploadIDs;
      return true, jobID;
    }

    /** findExistingJobForUploads: the records, then the job row. */
    method FindExistingJobForUploads(ghost start: World, q: RequestId, ghost r: Request, conflicted: bool,
                                     uploadIDs: seq<UploadId>)
      returns (job: Option<JobId>)
      requires Mirrors() && Here(start, q, world, r, Finding(0, None, conflicted)) && r.Ids() == uploadIDs
      modifies this`world
      ensures Mirrors()
      ensures job == FindExisting(keys, jobs, uploadIDs)
      ensures forall j: JobId :: job == Some(j) <==> TakenBy(keys, jobs, uploadIDs, j)
      ensures Here(start, q, world, r, if job.Some? then ReleasingKey(Existing(job.value)) else NotFound(conflicted))
    {
      FoundIsTaken(keys, jobs, uploadIDs);
      var all, jobID := ReadRecords(start, q, r, conflicted, uploadIDs);
      if !all {
        return None;
      }
      FoundJob(keys, jobs, uploadIDs, jobID);
      ReadStep(start, q, world, r, Finding(|uploadIDs|, jobID, conflicted), true);
      if jobID.None? || jobID.value !in jobs {
        world := Goto(world, q, NotFound(conflicted));
        return None;
      }
      world := Goto(world, q, ReleasingKey(Existing(jobID.value)));
      return jobID;
    }

    /** The consume loop: the object key of every upload, in order. */
    method ConsumeUploads(ghost start: World, q: RequestId, ghost r: Request, uploadIDs: seq<UploadId>,
                          checks: nat -> bool)
      returns (ok: bool, inputPaths: seq<string>)
      requires Mirrors() && Here(start, q, world, r, Consuming(0, [])) && r.Ids() == uploadIDs
      modifies this`world
      ensures Mirrors()
      ensures ok <==> AllReady(sessions, uploadIDs, checks)
      ensures ok ==> KeysOf(sessions, uploadIDs, inputPaths)
      ensures Here(start, q, world, r, if ok then Committing(inputPaths) else ReleasingClaims(Rejected))
    {
      inputPaths := [];
      var i := 0;
      while i < |uploadIDs|
        invariant 0 <= i <= |uploadIDs| && Mirrors() && Here(start, q, world, r, Consuming(i, inputPaths))
        invariant KeysOf(sessions, uploadIDs[..i], inputPaths)
        invariant forall k :: 0 <= k < i ==> checks(k)
      {
        var id, passes := uploadIDs[i], checks(i);
        ConsumeStep(start, q, world, r, i, inputPaths, passes);
        if id == "" || id !in sessions || sessions[id].fileName == "" || sessions[id].key == "" || !passes {
          world := Goto(world, q, ReleasingClaims(Rejected));
          return false, [];
        }
        inputPaths := inputPaths + [sessions[id].key];
        i := i + 1;
        world := Goto(world, q, Consuming(i, inputPaths));
      }
      assert uploadIDs[..i] == uploadIDs;
      ConsumeStep(start, q, world, r, i, inputPaths, true);
      world := Goto(world, q, Committing(inputPaths));
      return true, inputPaths;
    }

    /** recordConsumedUpload, then releaseUpload. */
    method RecordUpload(ghost start: World, q: RequestId, ghost r: Request, ghost i: nat, id: UploadId, job: JobId)
      requires Mirrors() && Here(start, q, world, r, Recording(i)) && i < |r.Ids()| && r.Ids()[i] == id && r.job == job
      modifies this`keys, this`sessions, this`world
      ensures Mirrors() && Here(start, q, world, r, Recording(i + 1))
      ensures keys == if id != "" then old(keys)[RecordKey(id) := job] else old(keys)
      ensures sessions == old(sessions) - {id}
    {
      RecordStep(start, q, world, r, i);
      if id != "" {
        keys := keys[RecordKey(id) := job];
      }
      world := Goto(world.(keys := keys), q, Clearing(i));
      ClearStep(start, q, world, r, i);
      sessions := sessions - {id};
      world := Goto(world.(sessions := sessions), q, Recording(i + 1));
    }

    /** Each consumed upload, recorded before it is released. */
    method RecordAndRelease(ghost start: World, q: RequestId, ghost r: Request, uploadIDs: seq<UploadId>, job: JobId)
      requires Mirrors() && Here(start, q, world, r, Recording(0)) && r.Ids() == uploadIDs && r.job == job
      modifies this`keys, this`sessions, this`world
      ensures Mirrors() && Here(start, q, world, r, ReleasingClaims(Created))
      ensures keys == RecordedAll(old(keys), uploadIDs, job)
      ensures sessions == old(sessions) - Elements(uploadIDs)
    {
      var i := 0;
      assert sessions == sessions - Elements([]);
      while i < |uploadIDs|
        invariant 0 <= i <= |uploadIDs| && Mirrors() && Here(start, q, world, r, Recording(i))
        invariant keys == RecordedAll(old(keys), uploadIDs[..i], job)
        invariant sessions == old(sessions) - Elements(uploadIDs[..i])
      {
        RecordUpload(start, q, r, i, uploadIDs[i], job);
        OneMoreRecorded(old(keys), old(sessions), uploadIDs, i, job);
        i := i + 1;
      }
      assert uploadIDs[..i] == uploadIDs;
      RecordedStep(start, q, world, r);
      world := Goto(world, q, ReleasingClaims(Created));
    }

    /** From the transaction on: commit the rows, publish, then free the uploads. */
    method CommitAndPublish(ghost start: World, q: RequestId, ghost r: Request, uploadIDs: seq<UploadId>,
                            inputPaths: seq<string>, job: JobId, commits: bool, publishes: bool)
      returns (outcome: Outcome, committed: bool)
      requires Mirrors() && Here(start, q, world, r, Committing(inputPaths))
      requires r.Ids() == uploadIDs && r.job == job && !r.committed
      modifies this`jobs, this`dispatched, this`keys, this`sessions, this`world
      ensures Mirrors() && Here(start, q, world, r.(committed := committed), ReleasingClaims(outcome))
      ensures committed == commits && outcome == if commits && publishes then Created else Failed
      ensures jobs == if committed then old(jobs)[job := JobRow(q, inputPaths)] else old(jobs)
      ensures outcome == Created ==>
                && committed && dispatched == old(dispatched) + [Event(q, job, uploadIDs, inputPaths)]
                && keys == RecordedAll(old(keys), uploadIDs, job)
                && sessions == old(sessions) - Elements(uploadIDs)
      ensures outcome == Failed ==>
                dispatched == old(dispatched) && keys == old(keys) && sessions == old(sessions)
    {
      CommitStep(start, q, world, r, inputPaths, commits);
      if !commits {
        world := Goto(world, q, ReleasingClaims(Failed));
        assert r.(committed := false) == r;
        return Failed, false;
      }
      ghost var r' := r.(committed := true);
      jobs := jobs[job := JobRow(q, inputPaths)];
      world := world.(jobs := jobs, requests := world.requests[q := r'.(pc := Publishing(inputPaths))]);
      PublishStep(start, q, world, r', inputPaths, publishes);
      if !publishes {
        assert dispatched + [] == dispatched;
        world := Goto(world, q, ReleasingClaims(Failed));
        return Failed, true;
      }
      dispatched := dispatched + [Event(q, job, uploadIDs, inputPaths)];
      world := Goto(world.(dispatched := dispatched), q, Recording(0));
      RecordAndRelease(start, q, r', uploadIDs, job);
      return Created, true;
    }

    /** A submission of uploads: replay check, claims, consumption, commit, and the deferred release of the claims. */
    method SubmitUploads(ghost start: World, q: RequestId, ghost r: Request, uploadIDs: seq<UploadId>, job: JobId,
                         calls: Calls)
      returns (outcome: Outcome, committed: bool)
      requires Mirrors() && Here(start, q, world, r, Finding(0, None, false))
      requires r.Ids() == uploadIDs && r.job == job && !r.committed
      modifies this`claims, this`jobs, this`dispatched, this`keys, this`sessions, this`world
      ensures Mirrors() && Here(start, q, world, r.(committed := committed), ReleasingKey(outcome))
      ensures claims == old(claims)
      ensures UploadsAnswer(true, uploadIDs, calls, old(claims), old(sessions), old(keys), old(jobs), outcome,
                            committed)
      ensures Leaves(q, uploadIDs, job, outcome, committed, old(Uploads()), Uploads(), old(Queued()), Queued())
    {
      assert r.(committed := false) == r;
      var existing := FindExistingJobForUploads(start, q, r, false, uploadIDs);
      if existing.Some? {
        return Existing(existing.value), false;
      }
      ReadStep(start, q, world, r, Validating, calls.optionsValid);
      world := Goto(world, q, if calls.optionsValid then Claiming(0) else ReleasingKey(Rejected));
      if !calls.optionsValid {
        return Rejected, false;
      }
      outcome, committed := ClaimAndSubmit(start, q, r, uploadIDs, job, calls);
    }

    /** Past validation: the claims, and what follows when they are held. */
    method ClaimAndSubmit(ghost start: World, q: RequestId, ghost r: Request, uploadIDs: seq<UploadId>, job: JobId,
                          calls: Calls)
      returns (outcome: Outcome, committed: bool)
      requires Mirrors() && Here(start, q, world, r, Claiming(0)) && FindExisting(keys, jobs, uploadIDs) == None
      requires r.Ids() == uploadIDs && r.job == job && !r.committed
      modifies this`claims, this`jobs, this`dispatched, this`keys, this`sessions, this`world
      ensures Mirrors() && Here(start, q, world, r.(committed := committed), ReleasingKey(outcome))
      ensures claims == old(claims)
      ensures Settles(AllFree(old(claims), uploadIDs, calls.claims), Contested(old(claims), uploadIDs, calls.claims),
                      AllReady(old(sessions), uploadIDs, calls.checks), calls, outcome, committed)
      ensures Leaves(q, uploadIDs, job, outcome, committed, old(Uploads()), Uploads(), old(Queued()), Queued())
    {
      assert r.(committed := false) == r;
      var claimed, conflict := ClaimUploads(start, q, r, uploadIDs, calls.claims);
      if conflict {
        // The holder may have committed meanwhile; alone, the second lookup answers like the first.
        var existing := FindExistingJobForUploads(start, q, r, true, uploadIDs);
        assert existing == None;
        return Conflict, false;
      }
      if !claimed {
        return Failed, false;
      }
      ClaimsUndone(old(claims), claims, q, uploadIDs);
      outcome, committed := SubmitAndRelease(start, q, r, uploadIDs, job, calls);
    }

    /** With the claims held, and their deferred release. */
    method SubmitAndRelease(ghost start: World, q: RequestId, ghost r: Request, uploadIDs: seq<UploadId>, job: JobId,
                            calls: Calls)
      returns (outcome: Outcome, committed: bool)
      requires Mirrors() && Here(start, q, world, r, Consuming(0, []))
      requires r.Ids() == uploadIDs && r.job == job && !r.committed
      modifies this`claims, this`jobs, this`dispatched, this`keys, this`sessions, this`world
      ensures Mirrors() && Here(start, q, world, r.(committed := committed), ReleasingKey(outcome))
      ensures claims == old(claims) - Elements(uploadIDs)
      ensures Settles(true, false, AllReady(old(sessions), uploadIDs, calls.checks), calls, outcome, committed)
      ensures Leaves(q, uploadIDs, job, outcome, committed, old(Uploads()), Uploads(), old(Queued()), Queued())
    {
      outcome, committed := SubmitClaimed(start, q, r, uploadIDs, job, calls);
      ReleaseStep(start, q, world, r.(committed := committed), outcome);
      ReleaseUploadClaims(uploadIDs);
      world := Goto(world.(claims := claims), q, ReleasingKey(outcome));
    }

    method SubmitClaimed(ghost start: World, q: RequestId, ghost r: Request, uploadIDs: seq<UploadId>, job: JobId,
                         calls: Calls)
      returns (outcome: Outcome, committed: bool)
      requires Mirrors() && Here(start, q, world, r, Consuming(0, []))
      requires r.Ids() == uploadIDs && r.job == job && !r.committed
      modifies this`jobs, this`dispatched, this`keys, this`sessions, this`world
      ensures Mirrors() && Here(start, q, world, r.(committed := committed), ReleasingClaims(outcome))
      ensures Settles(true, false, AllReady(old(sessions), uploadIDs, calls.checks), calls, outcome, committed)
      ensures Leaves(q, uploadIDs, job, outcome, committed, old(Uploads()), Uploads(), old(Queued()), Queued())
    {
      var ok, inputPaths := ConsumeUploads(start, q, r, uploadIDs, calls.checks);
      if !ok {
        assert r.(committed := false) == r;
        return Rejected, false;
      }
      outcome, committed := CommitAndPublish(start, q, r, uploadIDs, inputPaths, job, calls.commits, calls.publishes);
      RecordedAllIs(old(keys), uploadIDs, job);
      assert ObjectKeys(old(sessions), uploadIDs, inputPaths);
    }

    /** The deferred release of the Idempotency-Key. */
    method ReleaseKey(ghost start: World, q: RequestId, ghost r: Request, key: Option<string>, reserved: bool,
                      committed: bool, outcome: Outcome)
      requires Mirrors() && Here(start, q, world, r, ReleasingKey(outcome))
      requires r.key == key && r.reserved == reserved && r.committed == committed && (reserved ==> key.Some?)
      modifies this`keys, this`world
      ensures Mirrors() && Here(start, q, world, r, Done(outcome))
      ensures keys == if reserved && !committed then old(keys) - {key.value} else old(keys)
    {
      FreeKeyStep(start, q, world, r, outcome);
      if reserved && !committed {
        keys := keys - {key.value};
      }
      world := Goto(world.(keys := keys), q, Done(outcome));
    }

    /** The Idempotency-Key: reserve it, or answer for the request that has it. */
    method ReserveKey(ghost start: World, q: RequestId, ghost r: Request, key: Option<string>, job: JobId)
      returns (reserved: bool, answer: Option<Outcome>)
      requires Mirrors() && Here(start, q, world, r, Arrived) && r.key == key && r.job == job && !r.reserved
      modifies this`keys, this`world
      ensures Mirrors()
      ensures Here(start, q, world, r.(reserved := reserved), if answer.Some? then Done(answer.value) else Checking)
      ensures answer.Some? ==>
                && !reserved && keys == old(keys) && key.Some? && key.value in keys
                && answer.value == if keys[key.value] in jobs then Existing(keys[key.value]) else Conflict
      ensures answer.None? ==>
                && (reserved <==> key.Some?)
                && (reserved ==> key.value !in old(keys) && keys == old(keys)[key.value := job])
                && (!reserved ==> keys == old(keys))
    {
      assert r.(reserved := false) == r;
      ArriveStep(start, q, world, r);
      if key.None? {
        world := Goto(world, q, Checking);
        return false, None;
      }
      if key.value in keys {
        world := Goto(world, q, KeyHeld);
        ReadStep(start, q, world, r, KeyHeld, true);
        var owner := keys[key.value];
        world := Goto(world, q, KeyRead(owner));
        ReadStep(start, q, world, r, KeyRead(owner), true);
        var outcome := if owner in jobs then Existing(owner) else Conflict;
        world := Goto(world, q, Done(outcome));
        return false, Some(outcome);
      }
      ReserveStep(start, q, world, r);
      keys := keys[key.value := job];
      world := world.(keys := keys, requests := world.requests[q := r.(reserved := true, pc := Checking)]);
      return true, None;
    }

    /** Between the reservation and its deferred release, for a body that names uploads: one id may stand alone. */
    method SubmitBody(ghost start: World, q: RequestId, ghost r: Request, uploadIDs: seq<UploadId>, uploadID: UploadId,
                      job: JobId, maxFiles: int, calls: Calls, ghost ids: seq<UploadId>)
      returns (outcome: Outcome, committed: bool)
      requires Mirrors() && Here(start, q, world, r, Checking)
      requires ids == if uploadIDs == [] && uploadID != "" then [uploadID] else uploadIDs
      requires r.body == Json(ids) && r.job == job && !r.committed
      modifies this`claims, this`jobs, this`dispatched, this`keys, this`sessions, this`world
      ensures Mirrors() && Here(start, q, world, r.(committed := committed), ReleasingKey(outcome))
      ensures claims == old(claims)
      ensures UploadsAnswer(calls.parses && 0 < |ids| <= maxFiles, ids, calls, old(claims), old(sessions), old(keys),
                            old(jobs), outcome, committed)
      ensures Leaves(q, ids, job, outcome, committed, old(Uploads()), Uploads(), old(Queued()), Queued())
    {
      var listed := uploadIDs;
      if |uploadIDs| == 0 && uploadID != "" {
        listed := [uploadID];
      }
      var accepted := calls.parses && |listed| <= maxFiles;
      ReadStep(start, q, world, r, Checking, accepted);
      if !accepted || |listed| == 0 {
        world := Goto(world, q, ReleasingKey(Rejected));
        assert r.(committed := false) == r;
        return Rejected, false;
      }
      world := Goto(world, q, Finding(0, None, false));
      outcome, committed := SubmitUploads(start, q, r, listed, job, calls);
    }

    /** The rest of the request once its key is reserved, if it has one, and that release. */
    method SubmitHeld(ghost start: World, q: RequestId, ghost r: Request, key: Option<string>, uploadIDs: seq<UploadId>,
                      uploadID: UploadId, job: JobId, maxFiles: int, calls: Calls, ghost ids: seq<UploadId>)
      returns (outcome: Outcome, committed: bool)
      requires ids == if uploadIDs == [] && uploadID != "" then [uploadID] else uploadIDs
      requires Mirrors() && Here(start, q, world, r, Checking) && r.body == Json(ids) && r.job == job && !r.committed
      requires r.key == key && r.reserved == key.Some?
      modifies this`claims, this`jobs, this`dispatched, this`keys, this`sessions, this`world
      ensures Mirrors() && Here(start, q, world, r.(committed := committed), Done(outcome))
      ensures claims == old(claims)
      ensures UploadsAnswer(calls.parses && 0 < |ids| <= maxFiles, ids, calls, old(claims), old(sessions), old(keys),
                            old(jobs), outcome, committed)
      ensures committed ==> Leaves(q, ids, job, outcome, true, old(Uploads()), Uploads(), old(Queued()), Queued())
      ensures !committed ==>
                && sessions == old(sessions) && Queued() == old(Queued())
                && keys == if key.Some? then old(keys) - {key.value} else old(keys)
    {
      outcome, committed := SubmitBody(start, q, r, uploadIDs, uploadID, job, maxFiles, calls, ids);
      ReleaseKey(start, q, r.(committed := committed), key, key.Some?, committed, outcome);
    }

    /** One submission of uploads with nothing else running: when it gets which answer, and what each leaves behind.  A
        key in use answers by its job.  A request that does not commit leaves everything as it was, its key and its
        claims included. */
    method CreateJobFromUploads(q: RequestId, key: Option<string>, uploadIDs: seq<UploadId>, uploadID: UploadId,
                                job: JobId, maxFiles: int, calls: Calls, ghost ids: seq<UploadId>)
      returns (outcome: Outcome, committed: bool)
      requires ids == if uploadIDs == [] && uploadID != "" then [uploadID] else uploadIDs
      requires Mirrors() && q in world.requests
      requires world.requests[q] == Request(key, Json(ids), job, false, false, Arrived)
      modifies this`claims, this`jobs, this`dispatched, this`keys, this`sessions, this`world
      ensures Mirrors() && Goes(old(world), q, world)
      ensures q in world.requests && world.requests[q].pc == Done(outcome) && world.requests[q].committed == committed
      ensures claims == old(claims)
      ensures key.Some? && key.value in old(keys) ==>
                !committed && outcome == if old(keys)[key.value] in old(jobs) then Existing(old(keys)[key.value])
                                         else Conflict
      ensures var held := if key.Some? then old(keys)[key.value := job] else old(keys);
              key.None? || key.value !in old(keys) ==>
                && UploadsAnswer(calls.parses && 0 < |ids| <= maxFiles, ids, calls, old(claims), old(sessions), held,
                                 old(jobs), outcome, committed)
                && (committed ==>
                      Leaves(q, ids, job, outcome, committed, UploadState(old(sessions), held), Uploads(),
                             old(Queued()), Queued()))
      ensures !committed ==> Uploads() == old(Uploads()) && Queued() == old(Queued())
    {
      ghost var start := world;
      ghost var r := world.requests[q];
      Stays(start, q);
      var reserved, answer := ReserveKey(start, q, r, key, job);
      if answer.Some? {
        return answer.value, false;
      }
      KeyFreed(old(keys), key, job);
      outcome, committed := SubmitHeld(start, q, r.(reserved := reserved), key, uploadIDs, uploadID, job, maxFiles,
                                       calls, ids);
    }

    // ---------------------------------------------------------- Files in the request itself

    /** The loop over the files: check one, then store it.  A failed check refuses the request, a failed read or write
        fails it. */
    method StoreDirectUploads(jobID: string, parts: seq<Part>, maxSize: int, ghost files: seq<string>)
      returns (failure: Option<Outcome>, directUploadKeys: seq<string>)
      requires DirectKeys(jobID, parts, files)
      modifies this`objects
      ensures failure.None? <==> AllFit(parts, maxSize)
      ensures failure.Some? ==> failure.value == if FirstBreaks(parts, maxSize) then Failed else Rejected
      ensures directUploadKeys <= files && (failure.None? ==> directUploadKeys == files)
      ensures objects == old(objects) + Elements(directUploadKeys)
    {
      directUploadKeys := [];
      assert Elements([]) == {};
      for i := 0 to |parts|
        invariant forall k :: 0 <= k < i ==> Fits(parts[k], maxSize)
        invariant directUploadKeys == files[..i] && objects == old(objects) + Elements(directUploadKeys)
      {
        var part := parts[i];
        if !Fits(part, maxSize) {
          FirstMisfit(parts, maxSize, i);
        }
        if part.size > maxSize || !part.typed || part.name == "" {
          return Some(Rejected), directUploadKeys;
        }
        if part.content == Unreadable {
          return Some(Failed), directUploadKeys;
        }
        if part.content == Unexpected {
          return Some(Rejected), directUploadKeys;
        }
        if !part.put {
          return Some(Failed), directUploadKeys;
        }
        var key := "uploads/" + jobID + "/" + part.name;
        assert files[..i + 1] == files[..i] + [key];
        assert Elements(files[..i + 1]) == Elements(files[..i]) + {key};
        objects := objects + {key};
        directUploadKeys := directUploadKeys + [key];
      }
      assert files[..|parts|] == files;
      return None, directUploadKeys;
    }

    /** The deferred removal of what a request that queued no job has stored. */
    method RemoveDirectUploads(directUploadKeys: seq<string>)
      modifies this`objects
      ensures objects == old(objects) - Elements(directUploadKeys)
    {
      assert Elements(directUploadKeys[..0]) == {};
      for i := 0 to |directUploadKeys|
        invariant objects == old(objects) - Elements(directUploadKeys[..i])
      {
        assert directUploadKeys[..i + 1] == directUploadKeys[..i] + [directUploadKeys[i]];
        objects := objects - {directUploadKeys[i]};
      }
      assert directUploadKeys[..|directUploadKeys|] == directUploadKeys;
    }

    /** With the files stored: commit, publish, and the deferred release of no claims. */
    method SubmitStored(ghost start: World, q: RequestId, ghost r: Request, inputPaths: seq<string>, job: JobId,
                        calls: Calls)
      returns (outcome: Outcome, committed: bool)
      requires Mirrors() && Here(start, q, world, r, Committing(inputPaths))
      requires r.Ids() == [] && r.job == job && !r.committed
      modifies this`jobs, this`dispatched, this`keys, this`sessions, this`world
      ensures Mirrors() && Here(start, q, world, r.(committed := committed), ReleasingKey(outcome))
      ensures committed == calls.commits && outcome == if calls.commits && calls.publishes then Created else Failed
      ensures Uploads() == old(Uploads())
      ensures jobs == if committed then old(jobs)[job := JobRow(q, inputPaths)] else old(jobs)
      ensures dispatched == if outcome == Created then old(dispatched) + [Event(q, job, [], inputPaths)]
                            else old(dispatched)
    {
      outcome, committed := CommitAndPublish(start, q, r, [], inputPaths, job, calls.commits, calls.publishes);
      ReleaseStep(start, q, world, r.(committed := committed), outcome);
      assert claims - Elements([]) == claims;
      world := Goto(world.(claims := claims), q, ReleasingKey(outcome));
    }

    /** Between the reservation and its deferred release, for a request that brings its files. */
    method SubmitFiles(ghost start: World, q: RequestId, ghost r: Request, parts: seq<Part>, jobID: string, job: JobId,
                       maxFiles: int, maxSize: int, calls: Calls, ghost files: seq<string>)
      returns (outcome: Outcome, committed: bool)
      requires Mirrors() && Here(start, q, world, r, Checking) && DirectKeys(jobID, parts, files)
      requires r.body == Multipart(files) && r.job == job && !r.committed
      modifies this`jobs, this`dispatched, this`keys, this`sessions, this`objects, this`world
      ensures Mirrors() && Here(start, q, world, r.(committed := committed), ReleasingKey(outcome))
      ensures FilesAnswer(parts, maxFiles, maxSize, calls, outcome, committed)
      ensures Uploads() == old(Uploads())
      ensures jobs == if committed then old(jobs)[job := JobRow(q, files)] else old(jobs)
      ensures dispatched == if outcome == Created then old(dispatched) + [Event(q, job, [], files)] else old(dispatched)
      ensures Stored(old(objects), objects, files, outcome == Created)
    {
      assert r.(committed := false) == r;
      if !calls.parses || |parts| == 0 || |parts| > maxFiles || !calls.optionsValid {
        ReadStep(start, q, world, r, Checking, false);
        world := Goto(world, q, ReleasingKey(Rejected));
        return Rejected, false;
      }
      var failure, directUploadKeys := StoreDirectUploads(jobID, parts, maxSize, files);
      assert forall k :: k in directUploadKeys ==> k in files;
      if failure == Some(Rejected) {
        ReadStep(start, q, world, r, Checking, false);
        world := Goto(world, q, ReleasingKey(Rejected));
        RemoveDirectUploads(directUploadKeys);
        return Rejected, false;
      }
      ReadStep(start, q, world, r, Checking, true);
      world := Goto(world, q, Committing(files));
      if failure == Some(Failed) {
        NothingCommitted(start, q, r, files);
        RemoveDirectUploads(directUploadKeys);
        return Failed, false;
      }
      outcome, committed := SubmitStored(start, q, r, directUploadKeys, job, calls);
      if outcome != Created {
        RemoveDirectUploads(directUploadKeys);
      }
    }

    /** A failed store looks to everyone else like a failed transaction. */
    ghost method NothingCommitted(start: World, q: RequestId, r: Request, files: seq<string>)
      requires Mirrors() && Here(start, q, world, r, Committing(files)) && r.Ids() == []
      modifies this`world
      ensures Mirrors() && Here(start, q, world, r, ReleasingKey(Failed))
    {
      CommitStep(start, q, world, r, files, false);
      world := Goto(world, q, ReleasingClaims(Failed));
      ReleaseStep(start, q, world, r, Failed);
      assert claims - Elements([]) == claims;
      world := Goto(world.(claims := claims), q, ReleasingKey(Failed));
    }

    /** One request that brings its files, with nothing else running: when it gets which answer, and what each leaves
        behind.  The objects stay exactly if the job is queued: a committed job whose publish failed has lost them. */
    method CreateJobFromFiles(q: RequestId, key: Option<string>, parts: seq<Part>, jobID: string, job: JobId,
                              maxFiles: int, maxSize: int, calls: Calls, ghost files: seq<string>)
      returns (outcome: Outcome, committed: bool)
      requires Mirrors() && q in world.requests && DirectKeys(jobID, parts, files)
      requires world.requests[q] == Request(key, Multipart(files), job, false, false, Arrived)
      modifies this`jobs, this`dispatched, this`keys, this`sessions, this`objects, this`world
      ensures Mirrors() && Goes(old(world), q, world)
      ensures q in world.requests && world.requests[q].pc == Done(outcome) && world.requests[q].committed == committed
      ensures sessions == old(sessions)
      ensures key.Some? && key.value in old(keys) ==>
                !committed && outcome == if old(keys)[key.value] in old(jobs) then Existing(old(keys)[key.value])
                                         else Conflict
      ensures key.None? || key.value !in old(keys) ==> FilesAnswer(parts, maxFiles, maxSize, calls, outcome, committed)
      ensures keys == if committed && key.Some? then old(keys)[key.value := job] else old(keys)
      ensures jobs == if committed then old(jobs)[job := JobRow(q, files)] else old(jobs)
      ensures dispatched == if outcome == Created then old(dispatched) + [Event(q, job, [], files)] else old(dispatched)
      ensures Stored(old(objects), objects, files, outcome == Created)
    {
      ghost var start := world;
      ghost var r := world.requests[q];
      Stays(start, q);
      var reserved, answer := ReserveKey(start, q, r, key, job);
      if answer.Some? {
        return answer.value, false;
      }
      KeyFreed(old(keys), key, job);
      outcome, committed := SubmitFiles(start, q, r.(reserved := reserved), parts, jobID, job, maxFiles, maxSize, calls,
                                        files);
      ReleaseKey(start, q, r.(reserved := reserved, committed := committed), key, reserved, committed, outcome);
    }
  }
}
