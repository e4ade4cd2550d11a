/** The calls of one request run alone, as steps of the protocol machine, and what its loops compute. */
module SubmissionCalls {
  import opened Wrappers
  import opened Submission
  import opened SubmissionSafety

  /** Steps of one request, in any outcome. */
  ghost predicate Runs(q: RequestId, steps: seq<Step>) {
    forall k :: 0 <= k < |steps| ==> steps[k].Run? && steps[k].q == q
  }

  /** w' is where w gets by steps of request q alone. */
  ghost predicate Goes(w: World, q: RequestId, w': World) {
    exists steps :: Runs(q, steps) && Legal(w, steps) && Exec(w, steps) == w'
  }

  lemma Stays(w: World, q: RequestId)
    ensures Goes(w, q, w)
  {
    assert Runs(q, []) && Legal(w, []) && Exec(w, []) == w;
  }

  lemma GoesOn(w: World, q: RequestId, w1: World, ok: bool)
    requires Goes(w, q, w1) && q in w1.requests && !w1.requests[q].pc.Done?
    ensures Goes(w, q, RunRequest(w1, q, ok))
  {
    var steps :| Runs(q, steps) && Legal(w, steps) && Exec(w, steps) == w1;
    RunSnoc(w, steps, Run(q, ok));
    assert Runs(q, steps + [Run(q, ok)]);
  }

  /** Request q of the machine is r, about to make this call. */
  predicate At(w: World, q: RequestId, r: Request, pc: Pc) {
    q in w.requests && w.requests[q] == r.(pc := pc)
  }

  /** q has run from start to w, where it is r about to make this call. */
  ghost predicate Here(start: World, q: RequestId, w: World, r: Request, pc: Pc) {
    Goes(start, q, w) && At(w, q, r, pc)
  }

  // ------------------------------------------------------------ The machine's calls, one by one

  lemma ReadStep(start: World, q: RequestId, w: World, r: Request, pc: Pc, ok: bool)
    requires Here(start, q, w, r, pc) && OnlyReads(pc)
    ensures Here(start, q, Goto(w, q, NextPc(w, r.(pc := pc), ok)), r, NextPc(w, r.(pc := pc), ok))
  {
    GoesOn(start, q, w, ok);
  }

  lemma ArriveStep(start: World, q: RequestId, w: World, r: Request)
    requires Here(start, q, w, r, Arrived)
    ensures r.key.None? ==> Here(start, q, Goto(w, q, Checking), r, Checking)
    ensures r.key.Some? && r.key.value in w.keys ==> Here(start, q, Goto(w, q, KeyHeld), r, KeyHeld)
  {
    GoesOn(start, q, w, true);
  }

  lemma ReserveStep(start: World, q: RequestId, w: World, r: Request)
    requires Here(start, q, w, r, Arrived) && r.key.Some? && r.key.value !in w.keys
    ensures var r' := r.(reserved := true);
            Here(start, q, w.(keys := w.keys[r.key.value := r.job],
                              requests := w.requests[q := r'.(pc := Checking)]), r', Checking)
  {
    GoesOn(start, q, w, true);
  }

  lemma ClaimStep(start: World, q: RequestId, w: World, r: Request, i: nat, ok: bool)
    requires Here(start, q, w, r, Claiming(i)) && i < |r.Ids()|
    ensures var id := r.Ids()[i];
            var pc := if !ok then Unclaiming(i, false)
                      else if id in w.claims then Unclaiming(i, true) else Claiming(i + 1);
            var claims := if ok && id !in w.claims then w.claims[id := q] else w.claims;
            Here(start, q, Goto(w.(claims := claims), q, pc), r, pc)
  {
    GoesOn(start, q, w, ok);
  }

  lemma ClaimedStep(start: World, q: RequestId, w: World, r: Request)
    requires Here(start, q, w, r, Claiming(|r.Ids()|))
    ensures Here(start, q, Goto(w, q, Consuming(0, [])), r, Consuming(0, []))
  {
    GoesOn(start, q, w, true);
  }

  lemma UnclaimStep(start: World, q: RequestId, w: World, r: Request, i: nat, taken: bool)
    requires Here(start, q, w, r, Unclaiming(i, taken)) && i <= |r.Ids()|
    ensures var pc := if taken then Finding(0, None, true) else ReleasingKey(Failed);
            Here(start, q, Goto(w.(claims := w.claims - Elements(r.Ids()[..i])), q, pc), r, pc)
  {
    GoesOn(start, q, w, true);
  }

  lemma ConsumeStep(start: World, q: RequestId, w: World, r: Request, i: nat, paths: seq<string>, ok: bool)
    requires Here(start, q, w, r, Consuming(i, paths))
    ensures var pc := if i >= |r.Ids()| then Committing(paths)
                      else if ok && Consumable(w.sessions, r.Ids()[i])
                      then Consuming(i + 1, paths + [w.sessions[r.Ids()[i]].key])
                      else ReleasingClaims(Rejected);
            Here(start, q, Goto(w, q, pc), r, pc)
  {
    GoesOn(start, q, w, ok);
  }

  lemma CommitStep(start: World, q: RequestId, w: World, r: Request, paths: seq<string>, ok: bool)
    requires Here(start, q, w, r, Committing(paths))
    ensures !ok ==> Here(start, q, Goto(w, q, ReleasingClaims(Failed)), r, ReleasingClaims(Failed))
    ensures ok ==>
              var r' := r.(committed := true);
              Here(start, q, w.(jobs := w.jobs[r.job := JobRow(q, paths)],
                                requests := w.requests[q := r'.(pc := Publishing(paths))]), r', Publishing(paths))
  {
    GoesOn(start, q, w, ok);
  }

  lemma PublishStep(start: World, q: RequestId, w: World, r: Request, paths: seq<string>, ok: bool)
    requires Here(start, q, w, r, Publishing(paths))
    ensures var pc := if ok then Recording(0) else ReleasingClaims(Failed);
            var event := if ok then [Event(q, r.job, r.Ids(), paths)] else [];
            Here(start, q, Goto(w.(dispatched := w.dispatched + event), q, pc), r, pc)
  {
    GoesOn(start, q, w, ok);
    assert w.dispatched + [] == w.dispatched;
  }

  lemma RecordStep(start: World, q: RequestId, w: World, r: Request, i: nat)
    requires Here(start, q, w, r, Recording(i)) && i < |r.Ids()|
    ensures var id := r.Ids()[i];
            var keys := if id != "" then w.keys[RecordKey(id) := r.job] else w.keys;
            Here(start, q, Goto(w.(keys := keys), q, Clearing(i)), r, Clearing(i))
  {
    GoesOn(start, q, w, true);
  }

  lemma ClearStep(start: World, q: RequestId, w: World, r: Request, i: nat)
    requires Here(start, q, w, r, Clearing(i)) && i < |r.Ids()|
    ensures Here(start, q, Goto(w.(sessions := w.sessions - {r.Ids()[i]}), q, Recording(i + 1)), r, Recording(i + 1))
  {
    GoesOn(start, q, w, true);
  }

  lemma RecordedStep(start: World, q: RequestId, w: World, r: Request)
    requires Here(start, q, w, r, Recording(|r.Ids()|))
    ensures Here(start, q, Goto(w, q, ReleasingClaims(Created)), r, ReleasingClaims(Created))
  {
    GoesOn(start, q, w, true);
  }

  lemma ReleaseStep(start: World, q: RequestId, w: World, r: Request, outcome: Outcome)
    requires Here(start, q, w, r, ReleasingClaims(outcome))
    ensures var w' := Goto(w.(claims := w.claims - Elements(r.Ids())), q, ReleasingKey(outcome));
            Here(start, q, w', r, ReleasingKey(outcome))
  {
    GoesOn(start, q, w, true);
  }

  lemma FreeKeyStep(start: World, q: RequestId, w: World, r: Request, outcome: Outcome)
    requires Here(start, q, w, r, ReleasingKey(outcome))
    ensures var keys := if r.reserved && !r.committed && r.key.Some? then w.keys - {r.key.value} else w.keys;
            Here(start, q, Goto(w.(keys := keys), q, Done(outcome)), r, Done(outcome))
  {
    GoesOn(start, q, w, true);
  }

  // ------------------------------------------------------------ What the loops compute

  /** These ids, none of them held before and no two equal, are now held by q. */
  ghost predicate Claimed(before: map<UploadId, RequestId>, after: map<UploadId, RequestId>, q: RequestId,
                          ids: seq<UploadId>)
  {
    && after.Keys == before.Keys + Elements(ids) && before.Keys !! Elements(ids)
    && (forall id :: id in before ==> after[id] == before[id])
    && (forall id :: id in ids ==> id in after && after[id] == q)
    && (forall i, j :: 0 <= i < j < |ids| ==> ids[i] != ids[j])
  }

  lemma NoneClaimed(before: map<UploadId, RequestId>, q: RequestId)
    ensures Claimed(before, before, q, [])
  {
  }

  lemma OneMoreClaimed(before: map<UploadId, RequestId>, after: map<UploadId, RequestId>, q: RequestId,
                       ids: seq<UploadId>, i: nat)
    requires i < |ids| && Claimed(before, after, q, ids[..i])
    ensures ids[i] in after <==> ids[i] in before || ids[i] in ids[..i]
    ensures ids[i] !in after ==> Claimed(before, after[ids[i] := q], q, ids[..i + 1])
  {
    assert ids[..i + 1] == ids[..i] + [ids[i]];
  }

  lemma ClaimsUndone(before: map<UploadId, RequestId>, after: map<UploadId, RequestId>, q: RequestId,
                     ids: seq<UploadId>)
    requires Claimed(before, after, q, ids)
    ensures after - Elements(ids) == before
  {
  }

  /** What consuming these uploads reads. */
  ghost predicate KeysOf(sessions: map<UploadId, Session>, ids: seq<UploadId>, paths: seq<string>) {
    |paths| == |ids| && forall k :: 0 <= k < |ids| ==> Consumable(sessions, ids[k]) && paths[k] == sessions[ids[k]].key
  }

  /** Every one of these uploads recorded for the job. */
  function RecordedAll(keys: map<string, JobId>, ids: seq<UploadId>, job: JobId): map<string, JobId> {
    if ids == [] then keys
    else
      var before, id := RecordedAll(keys, ids[..|ids| - 1], job), ids[|ids| - 1];
      if id != "" then before[RecordKey(id) := job] else before
  }

  /** The upload state, and the job state. */
  datatype UploadState = UploadState(sessions: map<UploadId, Session>, keys: map<string, JobId>)
  datatype JobState = JobState(jobs: map<JobId, JobRow>, dispatched: seq<Event>)

  lemma OneMoreRecorded(keys: map<string, JobId>, sessions: map<UploadId, Session>, ids: seq<UploadId>, i: nat,
                        job: JobId)
    requires i < |ids|
    ensures var before := RecordedAll(keys, ids[..i], job);
            RecordedAll(keys, ids[..i + 1], job)
            == if ids[i] != "" then before[RecordKey(ids[i]) := job] else before
    ensures sessions - Elements(ids[..i + 1]) == sessions - Elements(ids[..i]) - {ids[i]}
  {
    assert ids[..i + 1][..i] == ids[..i] && ids[..i + 1] == ids[..i] + [ids[i]];
  }

  /** All of these uploads' record keys hold one job. */
  ghost predicate AllRecorded(keys: map<string, JobId>, ids: seq<UploadId>, job: Option<JobId>) {
    && (job.None? <==> ids == [])
    && forall id :: id in ids ==> id != "" && RecordKey(id) in keys && Some(keys[RecordKey(id)]) == job
  }

  /** The record of this upload is there and names what the ones before it named. */
  predicate Matches(keys: map<string, JobId>, id: UploadId, job: Option<JobId>) {
    id != "" && RecordKey(id) in keys && (job.Some? ==> keys[RecordKey(id)] == job.value)
  }

  lemma RecordedSoFar(keys: map<string, JobId>, ids: seq<UploadId>, i: nat, job: Option<JobId>)
    requires i < |ids| && AllRecorded(keys, ids[..i], job)
    ensures Matches(keys, ids[i], job) ==> AllRecorded(keys, ids[..i + 1], Some(keys[RecordKey(ids[i])]))
    ensures !Matches(keys, ids[i], job) ==> forall jobs :: FindExisting(keys, jobs, ids) == None
  {
    assert ids[..i + 1] == ids[..i] + [ids[i]];
    if job.Some? {
      assert ids[0] == ids[..i][0];
    }
  }

  lemma FoundJob(keys: map<string, JobId>, jobs: map<JobId, JobRow>, ids: seq<UploadId>, job: Option<JobId>)
    requires AllRecorded(keys, ids, job)
    ensures FindExisting(keys, jobs, ids) == if job.Some? && job.value in jobs then job else None
  {
  }
}
