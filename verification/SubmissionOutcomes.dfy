/** What job-service answers to a request that runs alone, and what it leaves behind, told from the request, what it
    finds, and how the calls that may fail go. */
module SubmissionOutcomes {
  import opened Wrappers
  import opened Submission
  import opened SubmissionCalls
  import opened SubmissionSafety

  /** How the calls of one request go: whether the body parses and the options are valid for the tool; SETNX of claim
      number i; the stat, size, name and content checks of upload number i; the transaction; the publish. */
  datatype Calls = Calls(parses: bool, optionsValid: bool, claims: nat -> bool, checks: nat -> bool, commits: bool,
                         publishes: bool)

  // ------------------------------------------------------------ When a request is answered how

  /** The SETNX of claim number i goes well, nobody holds that upload, and the request has not listed it before. */
  predicate Free(claims: map<UploadId, RequestId>, ids: seq<UploadId>, calls: nat -> bool, i: nat)
    requires i < |ids|
  {
    calls(i) && ids[i] !in claims && ids[i] !in ids[..i]
  }

  predicate AllFree(claims: map<UploadId, RequestId>, ids: seq<UploadId>, calls: nat -> bool) {
    forall i :: 0 <= i < |ids| ==> Free(claims, ids, calls, i)
  }

  /** The first claim that is not set is refused: someone holds that upload, or the request has listed it before. */
  ghost predicate Contested(claims: map<UploadId, RequestId>, ids: seq<UploadId>, calls: nat -> bool) {
    exists i :: 0 <= i < |ids| && calls(i) && !Free(claims, ids, calls, i)
                && forall k :: 0 <= k < i ==> Free(claims, ids, calls, k)
  }

  lemma StopsAt(claims: map<UploadId, RequestId>, ids: seq<UploadId>, calls: nat -> bool, i: nat)
    requires i < |ids| && !Free(claims, ids, calls, i) && forall k :: 0 <= k < i ==> Free(claims, ids, calls, k)
    ensures !AllFree(claims, ids, calls) && (Contested(claims, ids, calls) <==> calls(i))
  {
    if j :| 0 <= j < |ids| && calls(j) && !Free(claims, ids, calls, j)
            && forall k :: 0 <= k < j ==> Free(claims, ids, calls, k) {
      assert j == i;
    }
  }

  /** Every upload has a session with a file name and an object key, and passes its checks. */
  predicate AllReady(sessions: map<UploadId, Session>, ids: seq<UploadId>, checks: nat -> bool) {
    forall i :: 0 <= i < |ids| ==>
      && ids[i] != "" && ids[i] in sessions && sessions[ids[i]].fileName != "" && sessions[ids[i]].key != ""
      && checks(i)
  }

  /** The records of all these uploads name job j, which exists. */
  predicate TakenBy(keys: map<string, JobId>, jobs: map<JobId, JobRow>, ids: seq<UploadId>, j: JobId) {
    && ids != [] && j in jobs
    && forall i :: 0 <= i < |ids| ==> ids[i] != "" && "upload:" + ids[i] in keys && keys["upload:" + ids[i]] == j
  }

  /** How a submission of uploads is answered, and whether it commits a job.  It is accepted or not for its number of
      uploads; an accepted one that repeats an earlier submission gets that job. */
  ghost predicate UploadsAnswer(accepted: bool, ids: seq<UploadId>, calls: Calls, claims: map<UploadId, RequestId>,
                                sessions: map<UploadId, Session>, keys: map<string, JobId>, jobs: map<JobId, JobRow>,
                                outcome: Outcome, committed: bool)
  {
    var replay := exists j :: TakenBy(keys, jobs, ids, j);
    var claiming := accepted && !replay && calls.optionsValid;
    var claimed := claiming && AllFree(claims, ids, calls.claims);
    var consumed := claimed && AllReady(sessions, ids, calls.checks);
    && (committed <==> consumed && calls.commits)
    && (outcome == Created <==> consumed && calls.commits && calls.publishes)
    && (forall j: JobId :: outcome == Existing(j) <==> accepted && TakenBy(keys, jobs, ids, j))
    && (outcome == Conflict <==> claiming && Contested(claims, ids, calls.claims))
    && (outcome == Rejected <==>
          !accepted || (!replay && !calls.optionsValid) || (claimed && !AllReady(sessions, ids, calls.checks)))
    && (outcome == Failed <==>
          || (claiming && !AllFree(claims, ids, calls.claims) && !Contested(claims, ids, calls.claims))
          || (consumed && !(calls.commits && calls.publishes)))
  }

  // ------------------------------------------------------------ What a request leaves behind

  predicate IsRecord(ids: seq<UploadId>, name: string) {
    exists i :: 0 <= i < |ids| && name == "upload:" + ids[i]
  }

  /** The records of these uploads name the job, and no other key has changed. */
  ghost predicate Recorded(keys: map<string, JobId>, keys': map<string, JobId>, ids: seq<UploadId>, job: JobId) {
    forall name ::
      && (name in keys' <==> name in keys || IsRecord(ids, name))
      && (name in keys' ==> keys'[name] == if IsRecord(ids, name) then job else keys[name])
  }

  /** The sessions of these uploads are gone, and no other has changed. */
  ghost predicate Cleared(sessions: map<UploadId, Session>, sessions': map<UploadId, Session>, ids: seq<UploadId>) {
    forall id ::
      && (id in sessions' <==> id in sessions && id !in ids)
      && (id in sessions' ==> sessions'[id] == sessions[id])
  }

  /** One new job row, of request q with these inputs, and no other row has changed. */
  predicate NewRow(jobs: map<JobId, JobRow>, jobs': map<JobId, JobRow>, q: RequestId, job: JobId, paths: seq<string>) {
    jobs' == jobs[job := JobRow(q, paths)]
  }

  /** The object keys that the sessions of these uploads name, in order. */
  predicate ObjectKeys(sessions: map<UploadId, Session>, ids: seq<UploadId>, paths: seq<string>) {
    |paths| == |ids| && forall i :: 0 <= i < |ids| ==> ids[i] in sessions && paths[i] == sessions[ids[i]].key
  }

  /** What a submission of uploads leaves: if it commits, its job row with the objects of the uploads; if it is answered
      Created, also its event, and the uploads recorded and released; and otherwise nothing. */
  ghost predicate Leaves(q: RequestId, ids: seq<UploadId>, job: JobId, outcome: Outcome, committed: bool,
                         u: UploadState, u': UploadState, j: JobState, j': JobState)
  {
    && (!committed ==> u' == u && j' == j)
    && (committed ==>
          exists paths :: ObjectKeys(u.sessions, ids, paths) && NewRow(j.jobs, j'.jobs, q, job, paths)
            && if outcome != Created then u' == u && j'.dispatched == j.dispatched
               else && j'.dispatched == j.dispatched + [Event(q, job, ids, paths)]
                    && Recorded(u.keys, u'.keys, ids, job) && Cleared(u.sessions, u'.sessions, ids))
  }

  lemma {:induction false} RecordedAllIs(keys: map<string, JobId>, ids: seq<UploadId>, job: JobId)
    requires forall i :: 0 <= i < |ids| ==> ids[i] != ""
    ensures Recorded(keys, RecordedAll(keys, ids, job), ids, job)
  {
    if ids != [] {
      var n := |ids| - 1;
      RecordedAllIs(keys, ids[..n], job);
      forall name
        ensures IsRecord(ids, name) <==> IsRecord(ids[..n], name) || name == "upload:" + ids[n]
      {
        if IsRecord(ids[..n], name) {
          var i :| 0 <= i < n && name == "upload:" + ids[..n][i];
          assert name == "upload:" + ids[i];
        }
        if i :| 0 <= i < n && name == "upload:" + ids[i] {
          assert name == "upload:" + ids[..n][i];
        }
      }
    }
  }

  /** A lookup finds the job that all records name. */
  lemma FoundIsTaken(keys: map<string, JobId>, jobs: map<JobId, JobRow>, ids: seq<UploadId>)
    ensures forall j: JobId :: FindExisting(keys, jobs, ids) == Some(j) <==> TakenBy(keys, jobs, ids, j)
  {
    assert forall i :: 0 <= i < |ids| ==> ids[i] in ids && RecordKey(ids[i]) == "upload:" + ids[i];
    forall j: JobId | TakenBy(keys, jobs, ids, j)
      ensures FindExisting(keys, jobs, ids) == Some(j)
    {
      assert forall id :: id in ids ==> id != "" && RecordKey(id) in keys && keys[RecordKey(id)] == j;
    }
  }

  lemma KeyFreed(keys: map<string, JobId>, key: Option<string>, job: JobId)
    ensures key.Some? && key.value !in keys ==> keys[key.value := job] - {key.value} == keys
  {
  }

  /** The answer past validation, told from how the claims and the checks go. */
  predicate Settles(claimed: bool, contested: bool, ready: bool, calls: Calls, outcome: Outcome, committed: bool) {
    && committed == (claimed && ready && calls.commits)
    && outcome == if contested then Conflict else if !claimed then Failed else if !ready then Rejected
                  else if calls.commits && calls.publishes then Created else Failed
  }

  // ------------------------------------------------------------ Files in the request itself

  /** What the first bytes of a file say. */
  datatype Content = Expected | Unexpected | Unreadable

  /** A file of a multipart request: its sanitised name, its size, whether the tool takes files of that type, its
      content, and whether the store takes it. */
  datatype Part = Part(name: string, size: int, typed: bool, content: Content, put: bool)

  /** The file passes every check and is stored. */
  predicate Fits(part: Part, maxSize: int) {
    part.size <= maxSize && part.typed && part.name != "" && part.content == Expected && part.put
  }

  /** The file passes every check it gets to, and reading or storing it fails. */
  predicate Breaks(part: Part, maxSize: int) {
    part.size <= maxSize && part.typed && part.name != ""
    && (part.content == Unreadable || (part.content == Expected && !part.put))
  }

  predicate AllFit(parts: seq<Part>, maxSize: int) {
    forall i :: 0 <= i < |parts| ==> Fits(parts[i], maxSize)
  }

  /** The first file that does not fit breaks. */
  ghost predicate FirstBreaks(parts: seq<Part>, maxSize: int) {
    exists i :: 0 <= i < |parts| && Breaks(parts[i], maxSize) && forall k :: 0 <= k < i ==> Fits(parts[k], maxSize)
  }

  lemma FirstMisfit(parts: seq<Part>, maxSize: int, i: nat)
    requires i < |parts| && !Fits(parts[i], maxSize) && forall k :: 0 <= k < i ==> Fits(parts[k], maxSize)
    ensures !AllFit(parts, maxSize) && (FirstBreaks(parts, maxSize) <==> Breaks(parts[i], maxSize))
  {
    if j :| 0 <= j < |parts| && Breaks(parts[j], maxSize) && forall k :: 0 <= k < j ==> Fits(parts[k], maxSize) {
      assert !Fits(parts[j], maxSize);
      assert j == i;
    }
  }

  /** How a request with these files is answered, and whether it commits a job. */
  ghost predicate FilesAnswer(parts: seq<Part>, maxFiles: int, maxSize: int, calls: Calls, outcome: Outcome,
                              committed: bool)
  {
    var accepted := calls.parses && 0 < |parts| <= maxFiles && calls.optionsValid;
    var stored := accepted && AllFit(parts, maxSize);
    && (committed <==> stored && calls.commits)
    && (outcome == Created <==> stored && calls.commits && calls.publishes)
    && (outcome == Failed <==>
          (accepted && FirstBreaks(parts, maxSize)) || (stored && !(calls.commits && calls.publishes)))
    && (outcome == Rejected <==>
          !accepted || (!AllFit(parts, maxSize) && !FirstBreaks(parts, maxSize)))
  }

  /** The object keys of these files. */
  ghost predicate DirectKeys(jobID: string, parts: seq<Part>, keys: seq<string>) {
    |keys| == |parts| && forall i :: 0 <= i < |keys| ==> keys[i] == "uploads/" + jobID + "/" + parts[i].name
  }

  /** The files that are new in the bucket, as those of a new job are, stay if they are kept and go if not. */
  ghost predicate Stored(objects: set<string>, objects': set<string>, files: seq<string>, kept: bool) {
    forall o ::
      if o in files then (kept ==> o in objects') && (!kept && o !in objects ==> o !in objects')
      else o in objects' <==> o in objects
  }
}
