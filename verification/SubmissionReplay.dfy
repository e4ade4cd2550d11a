/** What a replayed submission meets.  A key commits once until it lapses, whatever it is.  Reservations and
    consumed-upload records share one Redis keyspace, so the other results hold of every run with Idempotency-Keys from
    some set exactly if no key of the set is a record's. */
module SubmissionReplay {
  import opened Wrappers
  import opened Submission
  import opened SubmissionInvariant
  import opened SubmissionSafety
  import opened SubmissionKeys
  import opened SubmissionAnswers
  import opened SubmissionCollisions

  // ------------------------------------------------------------ One commit per key

  /** Until its key lapses a request that owns it finds it set, and no other request owns it. */
  ghost predicate OwnersApart(keys: map<string, JobId>, lapsed: set<string>, reqs: Requests) {
    && (forall q :: q in reqs && OwnsKey(reqs[q]) && reqs[q].key.Some? && reqs[q].key.value !in lapsed ==>
          reqs[q].key.value in keys)
    && (forall p, q :: p in reqs && q in reqs && OwnsKey(reqs[p]) && OwnsKey(reqs[q]) && reqs[p].key.Some?
                       && reqs[p].key == reqs[q].key && reqs[p].key.value !in lapsed
          ==> p == q)
  }

  /** A call that sets no key but its own free one, and frees none but its own. */
  lemma OwnersStayApart(keys: map<string, JobId>, keys': map<string, JobId>, lapsed: set<string>, reqs: Requests,
                        q: RequestId, r: Request)
    requires OwnersApart(keys, lapsed, reqs) && q in reqs && r.key == reqs[q].key
    requires OwnsKey(r) && !OwnsKey(reqs[q]) && r.key.Some? ==> r.key.value !in keys && r.key.value in keys'
    requires forall k :: k in keys && k !in keys' ==> OwnsKey(reqs[q]) && !OwnsKey(r) && r.key == Some(k)
    ensures OwnersApart(keys', lapsed, reqs[q := r])
  {
  }

  lemma RunKeepsOwners(w: World, q: RequestId, ok: bool)
    requires Inv(w) && q in w.requests && !w.requests[q].pc.Done? && OwnersApart(w.keys, w.lapsed, w.requests)
    ensures var w' := RunRequest(w, q, ok); OwnersApart(w'.keys, w'.lapsed, w'.requests)
  {
    var r, r' := w.requests[q], NextRequest(w, w.requests[q], ok);
    assert LocalOk(w.origin, r);
    OwnersStayApart(w.keys, NextKeys(w.keys, r), w.lapsed, w.requests, q, r');
  }

  lemma StepKeepsOwners(w: World, step: Step)
    requires Inv(w) && Enabled(w, step) && OwnersApart(w.keys, w.lapsed, w.requests)
    ensures var w' := Apply(w, step); OwnersApart(w'.keys, w'.lapsed, w'.requests)
  {
    match step
    case Run(q, ok) => RunKeepsOwners(w, q, ok);
    case _ =>
  }

  lemma {:induction false} RunsKeepOwners(w: World, steps: seq<Step>)
    requires Inv(w) && Legal(w, steps) && OwnersApart(w.keys, w.lapsed, w.requests)
    ensures var w' := Exec(w, steps); Inv(w') && OwnersApart(w'.keys, w'.lapsed, w'.requests)
    decreases |steps|
  {
    if steps != [] {
      StepKeepsInv(w, steps[0]);
      StepKeepsOwners(w, steps[0]);
      RunsKeepOwners(Apply(w, steps[0]), steps[1..]);
    }
  }

  /** Whatever the headers are: until an Idempotency-Key lapses, at most one request that has it commits a job. */
  lemma CommitsOnceUntilLapse(w: World, p: RequestId, q: RequestId)
    requires Reachable(w) && p in w.requests && q in w.requests && w.requests[p].committed && w.requests[q].committed
    requires w.requests[p].key.Some? && w.requests[p].key == w.requests[q].key && w.requests[p].key.value !in w.lapsed
    ensures p == q
  {
    var steps :| Legal(Empty, steps) && Exec(Empty, steps) == w;
    RunsKeepOwners(Empty, steps);
    assert LocalOk(w.origin, w.requests[p]) && LocalOk(w.origin, w.requests[q]);
  }

  /** Across all requests with one Idempotency-Key at most one commits a job. */
  ghost predicate OnePerKey(w: World) {
    forall p, q ::
      (p in w.requests && q in w.requests && w.requests[p].committed && w.requests[q].committed
       && w.requests[p].key.Some? && w.requests[p].key == w.requests[q].key)
      ==> p == q
  }

  /** The keys that lapse in the run to w are among these. */
  ghost predicate LapsesIn(lapsing: iset<string>, w: World) {
    forall k :: k in w.lapsed ==> k in lapsing
  }

  ghost predicate HeadersIn(admitted: iset<string>, reqs: Requests) {
    forall q :: q in reqs && reqs[q].key.Some? ==> reqs[q].key.value in admitted
  }

  lemma StepKeepsHeaders(admitted: iset<string>, w: World, step: Step)
    requires Enabled(w, step) && HeadersIn(admitted, w.requests)
    requires step.Arrive? && step.key.Some? ==> step.key.value in admitted
    ensures HeadersIn(admitted, Apply(w, step).requests)
  {
    if step.Run? {
      var r := w.requests[step.q];
      assert NextRequest(w, r, step.ok).key == r.key;
    }
  }

  lemma {:induction false} RunsKeepHeaders(admitted: iset<string>, w: World, steps: seq<Step>)
    requires Legal(w, steps) && KeysFrom(admitted, steps) && HeadersIn(admitted, w.requests)
    ensures HeadersIn(admitted, Exec(w, steps).requests)
    decreases |steps|
  {
    if steps != [] {
      StepKeepsHeaders(admitted, w, steps[0]);
      RunsKeepHeaders(admitted, Apply(w, steps[0]), steps[1..]);
    }
  }

  lemma HeadersAreAdmitted(admitted: iset<string>, w: World)
    requires ReachableOn(admitted, w)
    ensures HeadersIn(admitted, w.requests)
  {
    var steps :| Legal(Empty, steps) && KeysFrom(admitted, steps) && Exec(Empty, steps) == w;
    RunsKeepHeaders(admitted, Empty, steps);
  }

  lemma AdmittedCommitOnce(admitted: iset<string>, lapsing: iset<string>, w: World)
    requires ReachableOn(admitted, w) && LapsesIn(lapsing, w) && admitted !! lapsing
    ensures OnePerKey(w)
  {
    HeadersAreAdmitted(admitted, w);
    forall p, q | p in w.requests && q in w.requests && w.requests[p].committed && w.requests[q].committed
                  && w.requests[p].key.Some? && w.requests[p].key == w.requests[q].key
      ensures p == q
    {
      CommitsOnceUntilLapse(w, p, q);
    }
  }

  /** In every run with headers from one set and lapsing keys from another each key commits at most once, exactly if the
      two have no key in common. */
  lemma OneCommitPerKey(admitted: iset<string>, lapsing: iset<string>)
    ensures (forall w :: ReachableOn(admitted, w) && LapsesIn(lapsing, w) ==> OnePerKey(w)) <==> admitted !! lapsing
  {
    if admitted !! lapsing {
      forall w | ReachableOn(admitted, w) && LapsesIn(lapsing, w)
        ensures OnePerKey(w)
      {
        AdmittedCommitOnce(admitted, lapsing, w);
      }
    } else {
      var key :| key in admitted && key in lapsing;
      var w := CommittedAgain(admitted, key);
      assert w.requests[0].committed && w.requests[1].committed && w.requests[0].key == w.requests[1].key;
    }
  }

  // ------------------------------------------------------------ What keys hold

  /** Until it lapses, the key names the request's job from its commit on, and never once the request has ended without
      one. */
  predicate KeyFollows(keys: map<string, JobId>, lapsed: set<string>, r: Request) {
    r.key.Some? ==>
      && (r.committed && r.key.value !in lapsed ==> r.key.value in keys && keys[r.key.value] == r.job)
      && (!r.committed && r.pc.Done? && r.key.value in keys ==> keys[r.key.value] != r.job)
  }

  ghost predicate KeysFollowCommits(w: World) {
    forall q :: q in w.requests ==> KeyFollows(w.keys, w.lapsed, w.requests[q])
  }

  /** Until it lapses, the record of a cleared upload names the dispatched job. */
  ghost predicate RecordedWhenCleared(w: World, e: Event, k: nat)
    requires k < |e.ids|
  {
    (e.owner in w.requests && PastUpload(w.requests[e.owner].pc, k) && RecordKey(e.ids[k]) !in w.lapsed)
    ==> RecordKey(e.ids[k]) in w.keys && w.keys[RecordKey(e.ids[k])] == e.job
  }

  ghost predicate ClearedAreRecorded(w: World) {
    forall a, k :: 0 <= a < |w.dispatched| && 0 <= k < |w.dispatched[a].ids| ==>
      RecordedWhenCleared(w, w.dispatched[a], k)
  }

  /** A submission of this event has cleared its uploads and no record of them has lapsed. */
  ghost predicate Replayable(w: World, e: Event) {
    && e.owner in w.requests && e.ids != [] && PastUpload(w.requests[e.owner].pc, |e.ids| - 1)
    && forall id :: id in e.ids ==> RecordKey(id) !in w.lapsed
  }

  /** A duplicate of a dispatched submission finds exactly its job, as long as the job exists. */
  ghost predicate ReplaysFindTheirJob(w: World) {
    forall a :: 0 <= a < |w.dispatched| && Replayable(w, w.dispatched[a]) ==>
      FindExisting(w.keys, w.jobs, w.dispatched[a].ids)
      == if w.dispatched[a].job in w.jobs then Some(w.dispatched[a].job) else None
  }

  // ------------------------------------------------------------ With no record's key among the headers

  lemma ReservationFollowsCommit(admitted: iset<string>, w: World)
    requires CleanKeys(admitted) && ReachableOn(admitted, w)
    ensures KeysFollowCommits(w)
  {
    KeyInvHolds(admitted, w);
    forall q | q in w.requests
      ensures KeyFollows(w.keys, w.lapsed, w.requests[q])
    {
      assert LocalOk(w.origin, w.requests[q]);
    }
  }

  lemma ClearedUploadIsRecorded(admitted: iset<string>, w: World)
    requires CleanKeys(admitted) && ReachableOn(admitted, w)
    ensures ClearedAreRecorded(w)
  {
    KeyInvHolds(admitted, w);
    forall a, k | 0 <= a < |w.dispatched| && 0 <= k < |w.dispatched[a].ids|
      ensures RecordedWhenCleared(w, w.dispatched[a], k)
    {
      var e := w.dispatched[a];
      assert EventOwned(w.origin, w.requests, e);
      assert RecordOk(w.keys, w.lapsed, w.requests[e.owner].pc, k, e.ids[k], e.job);
    }
  }

  lemma ReplayFindsTheJob(admitted: iset<string>, w: World)
    requires CleanKeys(admitted) && ReachableOn(admitted, w)
    ensures ReplaysFindTheirJob(w)
  {
    KeyInvHolds(admitted, w);
    ClearedUploadIsRecorded(admitted, w);
    forall a | 0 <= a < |w.dispatched| && Replayable(w, w.dispatched[a])
      ensures FindExisting(w.keys, w.jobs, w.dispatched[a].ids)
              == if w.dispatched[a].job in w.jobs then Some(w.dispatched[a].job) else None
    {
      var e := w.dispatched[a];
      NoEmptyIds(w, a);
      forall k | 0 <= k < |e.ids|
        ensures RecordKey(e.ids[k]) in w.keys && w.keys[RecordKey(e.ids[k])] == e.job
      {
        assert RecordedWhenCleared(w, e, k);
        assert e.ids[k] in e.ids;
      }
    }
  }

  // ------------------------------------------------------------ Exactly then

  lemma Collider(admitted: iset<string>) returns (id: UploadId)
    requires !CleanKeys(admitted)
    ensures id != "" && RecordKey(id) in admitted
  {
    var k :| k in admitted && Collides(k);
    id := k[|"upload:"|..];
    assert k == RecordKey(id);
  }

  lemma ReservationsFollowCommits(admitted: iset<string>)
    ensures (forall w :: ReachableOn(admitted, w) ==> KeysFollowCommits(w)) <==> CleanKeys(admitted)
  {
    if CleanKeys(admitted) {
      forall w | ReachableOn(admitted, w)
        ensures KeysFollowCommits(w)
      {
        ReservationFollowsCommit(admitted, w);
      }
    } else {
      var id := Collider(admitted);
      var w := Overwritten(admitted, id);
      assert !KeyFollows(w.keys, w.lapsed, w.requests[1]);
    }
  }

  lemma ClearedUploadsAreRecorded(admitted: iset<string>)
    ensures (forall w :: ReachableOn(admitted, w) ==> ClearedAreRecorded(w)) <==> CleanKeys(admitted)
  {
    if CleanKeys(admitted) {
      forall w | ReachableOn(admitted, w)
        ensures ClearedAreRecorded(w)
      {
        ClearedUploadIsRecorded(admitted, w);
      }
    } else {
      var id := Collider(admitted);
      var w := RecordDeleted(admitted, id);
      assert !RecordedWhenCleared(w, w.dispatched[0], 0);
    }
  }

  lemma ReplaysFindTheJob(admitted: iset<string>)
    ensures (forall w :: ReachableOn(admitted, w) ==> ReplaysFindTheirJob(w)) <==> CleanKeys(admitted)
  {
    if CleanKeys(admitted) {
      forall w | ReachableOn(admitted, w)
        ensures ReplaysFindTheirJob(w)
      {
        ReplayFindsTheJob(admitted, w);
      }
    } else {
      var id := Collider(admitted);
      var w := RecordDeleted(admitted, id);
      assert Replayable(w, w.dispatched[0]);
      assert FindExisting(w.keys, w.jobs, w.dispatched[0].ids) == None;
    }
  }

  lemma ExistingAnswersAreReplays(admitted: iset<string>)
    ensures (forall w :: ReachableOn(admitted, w) ==> AnswersAreReplays(w)) <==> CleanKeys(admitted)
  {
    if CleanKeys(admitted) {
      forall w | ReachableOn(admitted, w)
        ensures AnswersAreReplays(w)
      {
        AnswersHold(admitted, w);
      }
    } else {
      var id := Collider(admitted);
      var w := StrangersJob(admitted, id);
      assert id in w.requests[1].Ids() && w.requests[0].Ids() == [];
      assert !Replays(w.requests, w.requests[1], 0);
    }
  }
}
