/** What the submission protocol guarantees in every reachable state. */
module SubmissionSafety {
  import opened Wrappers
  import opened Submission
  import opened SubmissionInvariant

  /** However requests interleave, an upload is an input of at most one dispatched job,
      appears in it once, and a job is dispatched at most once. */
  lemma UploadsDispatchedAtMostOnce(w: World)
    requires Reachable(w)
    ensures var ds := w.dispatched;
            && (forall a, b, i, j :: 0 <= a < |ds| && 0 <= b < |ds| && 0 <= i < |ds[a].ids| && 0 <= j < |ds[b].ids|
                  && ds[a].ids[i] == ds[b].ids[j]
                  ==> a == b && i == j)
            && (forall a, b :: 0 <= a < |ds| && 0 <= b < |ds| && ds[a].job == ds[b].job ==> a == b)
  {
    InvHolds(w);
    var ds := w.dispatched;
    forall a, b, i, j | 0 <= a < |ds| && 0 <= b < |ds| && 0 <= i < |ds[a].ids| && 0 <= j < |ds[b].ids|
                        && ds[a].ids[i] == ds[b].ids[j]
      ensures a == b && i == j
    {
      assert ds[a].ids[i] in ds[a].ids && ds[a].ids[i] in ds[b].ids;
      assert NoDup(ds[a].ids);
    }
    forall a, b | 0 <= a < |ds| && 0 <= b < |ds| && ds[a].job == ds[b].job
      ensures a == b
    {
      assert EventOwned(w.origin, w.requests, ds[a]) && EventOwned(w.origin, w.requests, ds[b]);
    }
  }

  /** A dispatched event carries the objects its uploads were initialised with, in request order,
      and the same ones are on the job's input rows. */
  lemma DispatchedInputs(w: World, a: nat)
    requires Reachable(w) && a < |w.dispatched|
    ensures var e := w.dispatched[a];
            && e.owner in w.requests && w.requests[e.owner].job == e.job
            && (w.requests[e.owner].body.Json? ==>
                  |e.paths| == |e.ids| &&
                  forall k :: 0 <= k < |e.ids| ==> e.ids[k] in w.origin && e.paths[k] == w.origin[e.ids[k]].key)
            && (e.job in w.jobs ==> w.jobs[e.job].paths == e.paths)
  {
    InvHolds(w);
    var e := w.dispatched[a];
    assert EventOwned(w.origin, w.requests, e);
    if e.job in w.jobs {
      assert RowOk(w.origin, w.requests, e.job, w.jobs[e.job]);
      assert w.jobs[e.job].owner == e.owner;
    }
  }

  /** claimUploads has succeeded and the claims are not yet released. */
  predicate HoldsAll(r: Request) {
    || r.pc.Consuming? || r.pc.Committing? || r.pc.Publishing?
    || r.pc.Recording? || r.pc.Clearing? || r.pc.ReleasingClaims?
  }

  lemma HolderHasClaim(claims: map<UploadId, RequestId>, reqs: map<RequestId, Request>, q: RequestId, id: UploadId)
    requires ClaimsOwned(claims, reqs) && q in reqs && HoldsAll(reqs[q]) && id in reqs[q].Ids()
    ensures id in claims && claims[id] == q
  {
    assert Held(reqs[q]) == reqs[q].Ids();
  }

  /** Two requests that both got past claimUploads share no upload. */
  lemma ClaimsExclude(w: World, p: RequestId, q: RequestId, id: UploadId)
    requires Reachable(w) && p in w.requests && q in w.requests
    requires HoldsAll(w.requests[p]) && id in w.requests[p].Ids()
    requires HoldsAll(w.requests[q]) && id in w.requests[q].Ids()
    ensures p == q
  {
    InvHolds(w);
    HolderHasClaim(w.claims, w.requests, p, id);
    HolderHasClaim(w.claims, w.requests, q, id);
  }

  /** Claims never leak: every claim belongs to a request that is still running. */
  lemma ClaimsAreLive(w: World, id: UploadId)
    requires Reachable(w) && id in w.claims
    ensures w.claims[id] in w.requests && !w.requests[w.claims[id]].pc.Done? && id in w.requests[w.claims[id]].Ids()
  {
    assert ClaimsOwned(w.claims, w.requests) by { InvHolds(w); }
    assert id in Held(w.requests[w.claims[id]]);
  }

  /** A job row exists exactly for the requests that committed, until it is deleted. */
  lemma RowsAreCommits(w: World, j: JobId)
    requires Reachable(w)
    ensures j !in w.retired ==>
              (j in w.jobs <==> exists q :: q in w.requests && w.requests[q].job == j && w.requests[q].committed)
  {
    InvHolds(w);
    if j in w.jobs {
      assert RowOk(w.origin, w.requests, j, w.jobs[j]);
    }
  }

  /** However requests interleave, one that has ended was answered Created exactly if an event of its own job, with the
      uploads it lists, has been dispatched; and then it has committed. */
  lemma CreatedIffDispatched(w: World, q: RequestId)
    requires Reachable(w) && q in w.requests && w.requests[q].pc.Done?
    ensures var r := w.requests[q];
            && (r.pc.outcome == Created <==> exists a :: 0 <= a < |w.dispatched| && w.dispatched[a].owner == q)
            && (r.pc.outcome == Created ==> r.committed)
            && forall a :: 0 <= a < |w.dispatched| && w.dispatched[a].owner == q ==>
                 w.dispatched[a].job == r.job && w.dispatched[a].ids == r.Ids()
  {
    InvHolds(w);
    forall a | 0 <= a < |w.dispatched| && w.dispatched[a].owner == q
      ensures Published(w.requests[q].pc) && w.dispatched[a].job == w.requests[q].job
              && w.dispatched[a].ids == w.requests[q].Ids()
    {
      assert EventOwned(w.origin, w.requests, w.dispatched[a]);
    }
    assert LocalOk(w.origin, w.requests[q]);
  }

  /** What findExistingJobForUploads returns when nothing else runs meanwhile. */
  function FindExisting(keys: map<string, JobId>, jobs: map<JobId, JobRow>, ids: seq<UploadId>): Option<JobId> {
    if ids != [] && "" !in ids && RecordKey(ids[0]) in keys && keys[RecordKey(ids[0])] in jobs
       && (forall id :: id in ids ==> RecordKey(id) in keys && keys[RecordKey(id)] == keys[RecordKey(ids[0])])
    then Some(keys[RecordKey(ids[0])]) else None
  }

  /** The publishing request has recorded and cleared upload number k. */
  predicate PastUpload(pc: Pc, k: nat) {
    match pc
    case Recording(i) => k < i
    case Clearing(i) => k < i
    case ReleasingClaims(_) => true
    case ReleasingKey(_) => true
    case Done(_) => true
    case _ => false
  }

  /** An upload whose session a successful submission cleared can not be consumed again. */
  lemma ClearedUploadIsSpent(w: World, a: nat, k: nat)
    requires Reachable(w) && a < |w.dispatched| && k < |w.dispatched[a].ids|
    requires w.dispatched[a].owner in w.requests
    requires PastUpload(w.requests[w.dispatched[a].owner].pc, k)
    ensures w.dispatched[a].ids[k] in w.origin && !Consumable(w.sessions, w.dispatched[a].ids[k])
  {
    InvHolds(w);
    var e := w.dispatched[a];
    assert UploadOk(w.origin, w.sessions, w.requests[e.owner].pc, k, e.ids[k]);
  }
}
