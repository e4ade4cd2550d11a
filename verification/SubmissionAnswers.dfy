/** What an "already created" answer of the submission protocol can name. */
module SubmissionAnswers {
  import opened Wrappers
  import opened Submission
  import opened SubmissionInvariant
  import opened SubmissionKeys

  /** Some request with this Idempotency-Key was given job j. */
  ghost predicate KeyOwner(reqs: Requests, j: JobId, key: Option<string>) {
    key.Some? && exists p :: p in reqs && reqs[p].job == j && reqs[p].key == key
  }

  /** Some request that committed job j took this upload. */
  ghost predicate UploadOwner(reqs: Requests, j: JobId, id: UploadId) {
    exists p :: p in reqs && reqs[p].job == j && id in reqs[p].Ids() && reqs[p].committed
  }

  ghost predicate Committed(reqs: Requests, j: JobId) {
    exists p :: p in reqs && reqs[p].job == j && reqs[p].committed
  }

  /** The answer j is for request r: a replay of its key, or of its uploads. */
  ghost predicate Answers(reqs: Requests, r: Request, j: JobId) {
    && Committed(reqs, j)
    && (KeyOwner(reqs, j, r.key) || (r.Ids() != [] && forall id :: id in r.Ids() ==> UploadOwner(reqs, j, id)))
  }

  /** What a request has seen so far. */
  ghost predicate Seen(reqs: Requests, r: Request) {
    match r.pc
    case KeyRead(owner) => KeyOwner(reqs, owner, r.key)
    case Finding(i, found, _) =>
      && i <= |r.Ids()| && (found.Some? <==> i > 0)
      && (found.Some? ==> forall k :: 0 <= k < i ==> UploadOwner(reqs, found.value, r.Ids()[k]))
    case Publishing(_) => r.committed
    case Recording(_) => r.committed
    case Clearing(_) => r.committed
    case ReleasingClaims(o) => !o.Existing?
    case ReleasingKey(o) => o.Existing? ==> Answers(reqs, r, o.job)
    case Done(o) => o.Existing? ==> Answers(reqs, r, o.job)
    case _ => true
  }

  ghost predicate KeysNamed(reqs: Requests, keys: map<string, JobId>) {
    forall k :: k in keys && !Collides(k) ==> KeyOwner(reqs, keys[k], Some(k))
  }

  ghost predicate RecordsNamed(reqs: Requests, keys: map<string, JobId>) {
    forall id :: id != "" && RecordKey(id) in keys ==> UploadOwner(reqs, keys[RecordKey(id)], id)
  }

  ghost predicate RowsNamed(reqs: Requests, jobs: map<JobId, JobRow>) {
    forall j :: j in jobs ==> Committed(reqs, j)
  }

  ghost predicate AllSeen(reqs: Requests) {
    forall q :: q in reqs ==> Seen(reqs, reqs[q])
  }

  ghost predicate Named(w: World) {
    && KeysClean(w.requests) && KeysNamed(w.requests, w.keys) && RecordsNamed(w.requests, w.keys)
    && RowsNamed(w.requests, w.jobs) && AllSeen(w.requests)
  }

  /** Requests keep their key, body and job, and stay committed. */
  ghost predicate Later(reqs: Requests, reqs': Requests) {
    forall p :: p in reqs ==>
      && p in reqs' && reqs'[p].key == reqs[p].key && reqs'[p].body == reqs[p].body && reqs'[p].job == reqs[p].job
      && (reqs[p].committed ==> reqs'[p].committed)
  }

  lemma OwnersStay(reqs: Requests, reqs': Requests)
    requires Later(reqs, reqs')
    ensures forall j, key :: KeyOwner(reqs, j, key) ==> KeyOwner(reqs', j, key)
    ensures forall j, id :: UploadOwner(reqs, j, id) ==> UploadOwner(reqs', j, id)
    ensures forall j :: Committed(reqs, j) ==> Committed(reqs', j)
  {
    forall j, key | KeyOwner(reqs, j, key)
      ensures KeyOwner(reqs', j, key)
    {
      var p :| p in reqs && reqs[p].job == j && reqs[p].key == key;
      assert p in reqs' && reqs'[p].job == j && reqs'[p].key == key;
    }
    forall j, id | UploadOwner(reqs, j, id)
      ensures UploadOwner(reqs', j, id)
    {
      var p :| p in reqs && reqs[p].job == j && id in reqs[p].Ids() && reqs[p].committed;
      assert p in reqs' && reqs'[p].job == j && id in reqs'[p].Ids() && reqs'[p].committed;
    }
    forall j | Committed(reqs, j)
      ensures Committed(reqs', j)
    {
      var p :| p in reqs && reqs[p].job == j && reqs[p].committed;
      assert p in reqs' && reqs'[p].job == j && reqs'[p].committed;
    }
  }

  lemma StaysNamed(w: World, reqs': Requests)
    requires Named(w) && Later(w.requests, reqs')
    ensures KeysNamed(reqs', w.keys) && RecordsNamed(reqs', w.keys) && RowsNamed(reqs', w.jobs)
    ensures forall q :: q in w.requests ==> Seen(reqs', w.requests[q])
  {
    OwnersStay(w.requests, reqs');
    forall q | q in w.requests
      ensures Seen(reqs', w.requests[q])
    {
      assert Seen(w.requests, w.requests[q]);
    }
  }

  /** Moving q to a request whose own view is justified. */
  lemma MoveKeepsSeen(w: World, q: RequestId, r': Request)
    requires Named(w) && Later(w.requests, w.requests[q := r']) && Seen(w.requests[q := r'], r')
    ensures AllSeen(w.requests[q := r'])
    ensures KeysNamed(w.requests[q := r'], w.keys) && RecordsNamed(w.requests[q := r'], w.keys)
    ensures RowsNamed(w.requests[q := r'], w.jobs)
  {
    StaysNamed(w, w.requests[q := r']);
  }

  /** Each read is of something named. */
  lemma ReadIsSeen(w: World, r: Request, ok: bool)
    requires Named(w) && OnlyReads(r.pc) && Seen(w.requests, r) && (r.key.Some? ==> !Collides(r.key.value))
    ensures Seen(w.requests, r.(pc := NextPc(w, r, ok)))
  {
    var ids := r.Ids();
    match r.pc
    case Finding(i, found, _) =>
      if i < |ids| && ids[i] != "" && RecordKey(ids[i]) in w.keys {
        assert UploadOwner(w.requests, w.keys[RecordKey(ids[i])], ids[i]);
      } else if i >= |ids| && found.Some? && found.value in w.jobs {
        assert Committed(w.requests, found.value);
        assert forall id :: id in ids ==> exists k :: 0 <= k < i && ids[k] == id;
      }
    case KeyRead(owner) =>
      if owner in w.jobs {
        assert Committed(w.requests, owner);
      }
    case _ =>
  }

  lemma ReadKeepsNamed(w: World, q: RequestId, ok: bool)
    requires Named(w) && q in w.requests && OnlyReads(w.requests[q].pc)
    ensures Named(RunRequest(w, q, ok))
  {
    var r := w.requests[q];
    var r' := r.(pc := NextPc(w, r, ok));
    assert Seen(w.requests, r);
    CleanStays(w.requests, q, r');
    ReadIsSeen(w, r, ok);
    OwnersStay(w.requests, w.requests[q := r']);
    MoveKeepsSeen(w, q, r');
  }

  /** Where a call that writes can lead, as far as answers go. */
  predicate Leads(r: Request, r': Request) {
    && r'.key == r.key && r'.body == r.body && r'.job == r.job && (r.committed ==> r'.committed)
    && match r'.pc
       case KeyRead(_) => false
       case Finding(i, found, _) => i == 0 && found.None?
       case Publishing(_) => r'.committed
       case Recording(_) => r.pc.Publishing? || r.pc.Clearing? || r.pc.Recording?
       case Clearing(_) => r.pc.Recording?
       case ReleasingClaims(o) => !o.Existing?
       case ReleasingKey(o) => o.Existing? ==> r.pc == ReleasingClaims(o)
       case Done(o) => r.pc == ReleasingKey(o)
       case _ => true
  }

  lemma WriteLeads(w: World, r: Request, ok: bool)
    requires !r.pc.Done? && !OnlyReads(r.pc)
    ensures Leads(r, NextRequest(w, r, ok))
  {
  }

  lemma LeadsKeepSeen(w: World, q: RequestId, r': Request)
    requires Named(w) && q in w.requests && Leads(w.requests[q], r')
    ensures Later(w.requests, w.requests[q := r']) && Seen(w.requests[q := r'], r')
  {
    assert Seen(w.requests, w.requests[q]);
    assert Later(w.requests, w.requests[q := r']);
    OwnersStay(w.requests, w.requests[q := r']);
  }

  /** What a call of q writes into the shared maps names the job of q. */
  lemma KeysOfOwn(keys: map<string, JobId>, r: Request, k: string)
    requires !OnlyReads(r.pc) && k in NextKeys(keys, r)
    ensures || (k in keys && NextKeys(keys, r)[k] == keys[k])
            || (NextKeys(keys, r)[k] == r.job
                && (|| r.key == Some(k)
                    || (r.pc.Recording? && exists id :: id != "" && id in r.Ids() && k == RecordKey(id))))
  {
    if r.pc.Recording? && r.pc.i < |r.Ids()| {
      assert r.Ids()[r.pc.i] in r.Ids();
    }
  }

  lemma WriteKeepsKeys(w: World, q: RequestId, r': Request)
    requires Named(w) && q in w.requests && Leads(w.requests[q], r') && !OnlyReads(w.requests[q].pc)
    requires w.requests[q].pc.Recording? ==> r'.committed
    ensures KeysNamed(w.requests[q := r'], NextKeys(w.keys, w.requests[q]))
    ensures RecordsNamed(w.requests[q := r'], NextKeys(w.keys, w.requests[q]))
  {
    var r, reqs, keys := w.requests[q], w.requests[q := r'], NextKeys(w.keys, w.requests[q]);
    StaysNamed(w, reqs);
    OwnJob(reqs, q);
    forall k | k in keys && !Collides(k)
      ensures KeyOwner(reqs, keys[k], Some(k))
    {
      KeysOfOwn(w.keys, r, k);
      forall id {
        RecordKeysDistinct(id, id);
      }
    }
    forall id | id != "" && RecordKey(id) in keys
      ensures UploadOwner(reqs, keys[RecordKey(id)], id)
    {
      KeysOfOwn(w.keys, r, RecordKey(id));
      RecordKeysDistinct(id, id);
      forall x {
        RecordKeysDistinct(id, x);
      }
    }
  }

  lemma WriteKeepsNamed(w: World, q: RequestId, ok: bool)
    requires Named(w) && q in w.requests && !w.requests[q].pc.Done? && !OnlyReads(w.requests[q].pc)
    ensures Named(RunRequest(w, q, ok))
  {
    var r, r' := w.requests[q], NextRequest(w, w.requests[q], ok);
    WriteLeads(w, r, ok);
    LeadsKeepSeen(w, q, r');
    MoveKeepsSeen(w, q, r');
    CleanStays(w.requests, q, r');
    assert r.pc.Recording? ==> r'.committed by {
      assert Seen(w.requests, r);
    }
    WriteKeepsKeys(w, q, r');
    OwnJob(w.requests[q := r'], q);
  }

  lemma OwnJob(reqs: Requests, q: RequestId)
    requires q in reqs
    ensures reqs[q].key.Some? ==> KeyOwner(reqs, reqs[q].job, reqs[q].key)
    ensures reqs[q].committed ==> Committed(reqs, reqs[q].job)
    ensures reqs[q].committed ==> forall id :: id in reqs[q].Ids() ==> UploadOwner(reqs, reqs[q].job, id)
  {
  }

  lemma LapseKeepsNamed(w: World, key: string)
    requires Named(w) && Enabled(w, LapseKey(key))
    ensures Named(Apply(w, LapseKey(key)))
  {
  }

  lemma StepKeepsNamed(w: World, step: Step)
    requires Named(w) && Enabled(w, step) && (step.Arrive? && step.key.Some? ==> !Collides(step.key.value))
    ensures Named(Apply(w, step))
  {
    match step
    case Arrive(q, key, body, job) => MoveKeepsSeen(w, q, Request(key, body, job, false, false, Arrived));
    case Run(q, ok) =>
      if OnlyReads(w.requests[q].pc) {
        ReadKeepsNamed(w, q, ok);
      } else {
        WriteKeepsNamed(w, q, ok);
      }
    case LapseKey(key) => LapseKeepsNamed(w, key);
    case _ =>
  }

  lemma {:induction false} RunsKeepNamed(admitted: iset<string>, w: World, steps: seq<Step>)
    requires Named(w) && Legal(w, steps) && KeysFrom(admitted, steps) && CleanKeys(admitted)
    ensures Named(Exec(w, steps))
    decreases |steps|
  {
    if steps != [] {
      StepKeepsNamed(w, steps[0]);
      RunsKeepNamed(admitted, Apply(w, steps[0]), steps[1..]);
    }
  }

  /** Job j was committed by a request with r's own Idempotency-Key, or by one that took every upload r lists. */
  ghost predicate Replays(reqs: Requests, r: Request, j: JobId) {
    exists p :: p in reqs && reqs[p].committed && reqs[p].job == j
      && (|| (r.key.Some? && reqs[p].key == r.key)
          || (r.Ids() != [] && forall id :: id in r.Ids() ==> id in reqs[p].Ids()))
  }

  /** A request answered with an existing job is answered with its own: never with a stranger's. */
  ghost predicate AnswersAreReplays(w: World) {
    forall q :: q in w.requests && w.requests[q].pc.Done? && w.requests[q].pc.outcome.Existing? ==>
      Replays(w.requests, w.requests[q], w.requests[q].pc.outcome.job)
  }

  lemma AnswerHolds(w: World, q: RequestId)
    requires Named(w) && JobsDistinct(w.issued, w.requests)
    requires q in w.requests && w.requests[q].pc.Done? && w.requests[q].pc.outcome.Existing?
    ensures Replays(w.requests, w.requests[q], w.requests[q].pc.outcome.job)
  {
    var r, j := w.requests[q], w.requests[q].pc.outcome.job;
    assert Seen(w.requests, r);
    var p :| p in w.requests && w.requests[p].job == j && w.requests[p].committed;
    if KeyOwner(w.requests, j, r.key) {
      var o :| o in w.requests && w.requests[o].job == j && w.requests[o].key == r.key;
      assert o == p;
    } else {
      forall id | id in r.Ids()
        ensures id in w.requests[p].Ids()
      {
        var o :| o in w.requests && w.requests[o].job == j && id in w.requests[o].Ids() && w.requests[o].committed;
        assert o == p;
      }
    }
  }

  lemma AnswersHold(admitted: iset<string>, w: World)
    requires ReachableOn(admitted, w) && CleanKeys(admitted)
    ensures AnswersAreReplays(w)
  {
    var steps :| Legal(Empty, steps) && KeysFrom(admitted, steps) && Exec(Empty, steps) == w;
    RunsKeepNamed(admitted, Empty, steps);
    assert JobsDistinct(w.issued, w.requests) by { InvHolds(w); }
    forall q | q in w.requests && w.requests[q].pc.Done? && w.requests[q].pc.outcome.Existing?
      ensures Replays(w.requests, w.requests[q], w.requests[q].pc.outcome.job)
    {
      AnswerHolds(w, q);
    }
  }
}
