/** The inductive invariant of the submission protocol, and the proof that every step keeps it.
    The frame lemmas (Keep..., Add..., Drop...) speak of one part of the shared state at a time. */
module SubmissionInvariant {
  import opened Wrappers
  import opened Submission

  /** The upload ids whose claim a request holds. */
  function Held(r: Request): seq<UploadId> {
    match r.pc
    case Claiming(i) => if i <= |r.Ids()| then r.Ids()[..i] else []
    case Unclaiming(i, _) => if i <= |r.Ids()| then r.Ids()[..i] else []
    case Consuming(_, _) => r.Ids()
    case Committing(_) => r.Ids()
    case Publishing(_) => r.Ids()
    case Recording(_) => r.Ids()
    case Clearing(_) => r.Ids()
    case ReleasingClaims(_) => r.Ids()
    case _ => []
  }

  ghost predicate NoDup(ids: seq<UploadId>) {
    forall a, b :: 0 <= a < b < |ids| ==> ids[a] != ids[b]
  }

  /** Every claim key belongs to exactly the request that is between its SETNX and its DEL. */
  ghost predicate ClaimsOwned(claims: map<UploadId, RequestId>, reqs: map<RequestId, Request>) {
    && (forall id :: id in claims ==> claims[id] in reqs && id in Held(reqs[claims[id]]))
    && (forall q, id :: q in reqs && id in Held(reqs[q]) ==> id in claims && claims[id] == q)
    && (forall q :: q in reqs ==> NoDup(Held(reqs[q])))
  }

  /** paths are the stored objects of ids, in order. */
  ghost predicate PathsOf(origin: map<UploadId, Session>, ids: seq<UploadId>, paths: seq<string>) {
    |paths| == |ids| && forall k :: 0 <= k < |ids| ==> ids[k] in origin && paths[k] == origin[ids[k]].key
  }

  ghost predicate InputsOf(origin: map<UploadId, Session>, body: Body, paths: seq<string>) {
    match body
    case Json(ids) => PathsOf(origin, ids, paths)
    case Multipart(files) => paths == files
  }

  /** The request has published its event. */
  predicate Published(pc: Pc) {
    match pc
    case Recording(_) => true
    case Clearing(_) => true
    case ReleasingClaims(o) => o == Created
    case ReleasingKey(o) => o == Created
    case Done(o) => o == Created
    case _ => false
  }

  predicate Reserved(r: Request) {
    r.key.Some? ==> r.reserved
  }

  /** What a request's own fields satisfy. */
  ghost predicate LocalOk(origin: map<UploadId, Session>, r: Request) {
    var n := |r.Ids()|;
    && (r.reserved ==> r.key.Some?)
    && match r.pc
       case Arrived => !r.reserved && !r.committed
       case KeyHeld => r.key.Some? && !r.reserved && !r.committed
       case KeyRead(_) => r.key.Some? && !r.reserved && !r.committed
       case Checking => Reserved(r) && !r.committed
       case Finding(i, _, _) => i <= n && Reserved(r) && !r.committed && r.body.Json?
       case Validating => Reserved(r) && !r.committed && r.body.Json?
       case Claiming(i) => i <= n && Reserved(r) && !r.committed && r.body.Json?
       case Unclaiming(i, _) => i <= n && Reserved(r) && !r.committed && r.body.Json?
       case Consuming(i, paths) =>
         i <= n && Reserved(r) && !r.committed && r.body.Json? && PathsOf(origin, r.Ids()[..i], paths)
       case Committing(paths) => Reserved(r) && !r.committed && InputsOf(origin, r.body, paths)
       case Publishing(paths) => Reserved(r) && r.committed && InputsOf(origin, r.body, paths)
       case Recording(i) => i <= n && Reserved(r) && r.committed
       case Clearing(i) => i < n && Reserved(r) && r.committed
       case ReleasingClaims(o) => Reserved(r) && (o == Created ==> r.committed)
       case ReleasingKey(o) => Reserved(r) && (o == Created ==> r.committed)
       case Done(o) => (r.committed ==> Reserved(r)) && (o == Created ==> r.committed)
  }

  ghost predicate LocalsOk(origin: map<UploadId, Session>, reqs: map<RequestId, Request>) {
    forall q :: q in reqs ==> LocalOk(origin, reqs[q])
  }

  /** Job ids are never reused. */
  ghost predicate JobsDistinct(issued: set<JobId>, reqs: map<RequestId, Request>) {
    && (forall q :: q in reqs ==> reqs[q].job in issued)
    && (forall p, q :: p in reqs && q in reqs && p != q ==> reqs[p].job != reqs[q].job)
  }

  /** A session that can be consumed is still the one InitUpload wrote. */
  ghost predicate SessionsOk(origin: map<UploadId, Session>, sessions: map<UploadId, Session>) {
    && "" !in origin
    && (forall id :: Consumable(sessions, id) ==> id in origin && sessions[id] == origin[id])
  }

  ghost predicate RowOk(origin: map<UploadId, Session>, reqs: map<RequestId, Request>, j: JobId, row: JobRow) {
    row.owner in reqs && reqs[row.owner].job == j && reqs[row.owner].committed &&
    InputsOf(origin, reqs[row.owner].body, row.paths)
  }

  ghost predicate RowsOk(origin: map<UploadId, Session>, jobs: map<JobId, JobRow>, retired: set<JobId>,
                         reqs: map<RequestId, Request>)
  {
    && (forall j :: j in jobs ==> RowOk(origin, reqs, j, jobs[j]))
    && (forall q :: q in reqs && reqs[q].committed ==> reqs[q].job in jobs || reqs[q].job in retired)
  }

  /** The session can never be consumed again. */
  ghost predicate Cleared(origin: map<UploadId, Session>, sessions: map<UploadId, Session>, id: UploadId) {
    id in origin && !Consumable(sessions, id)
  }

  /** How far the publishing request has got with upload number k of its event. */
  ghost predicate UploadOk(origin: map<UploadId, Session>, sessions: map<UploadId, Session>, pc: Pc, k: nat,
                           id: UploadId)
  {
    match pc
    case Recording(i) => k < i ==> Cleared(origin, sessions, id)
    case Clearing(i) => k < i ==> Cleared(origin, sessions, id)
    case _ => Cleared(origin, sessions, id)
  }

  ghost predicate EventOwned(origin: map<UploadId, Session>, reqs: map<RequestId, Request>, e: Event) {
    && e.owner in reqs
    && Published(reqs[e.owner].pc) && reqs[e.owner].job == e.job && reqs[e.owner].Ids() == e.ids
    && InputsOf(origin, reqs[e.owner].body, e.paths)
  }

  ghost predicate EventsOwned(origin: map<UploadId, Session>, dispatched: seq<Event>, reqs: map<RequestId, Request>) {
    && (forall a :: 0 <= a < |dispatched| ==> EventOwned(origin, reqs, dispatched[a]))
    && (forall a :: 0 <= a < |dispatched| ==> NoDup(dispatched[a].ids))
    && (forall a, b :: 0 <= a < b < |dispatched| ==> dispatched[a].owner != dispatched[b].owner)
  }

  ghost predicate PublishedHasEvent(dispatched: seq<Event>, reqs: map<RequestId, Request>) {
    forall q :: q in reqs && Published(reqs[q].pc) ==> exists a :: 0 <= a < |dispatched| && dispatched[a].owner == q
  }

  ghost predicate UploadsOk(origin: map<UploadId, Session>, sessions: map<UploadId, Session>, dispatched: seq<Event>,
                            reqs: map<RequestId, Request>)
  {
    forall a, k :: 0 <= a < |dispatched| && 0 <= k < |dispatched[a].ids| && dispatched[a].owner in reqs ==>
      UploadOk(origin, sessions, reqs[dispatched[a].owner].pc, k, dispatched[a].ids[k])
  }

  /** The uploads a request has validated but not dispatched. */
  function Taken(r: Request): seq<UploadId> {
    match r.pc
    case Consuming(i, _) => if i <= |r.Ids()| then r.Ids()[..i] else []
    case Committing(_) => r.Ids()
    case Publishing(_) => r.Ids()
    case _ => []
  }

  /** No upload is in two events, and none that a request is about to dispatch is in any. */
  ghost predicate DispatchedOnce(dispatched: seq<Event>, reqs: map<RequestId, Request>) {
    && (forall a, b, id :: 0 <= a < |dispatched| && 0 <= b < |dispatched|
          && id in dispatched[a].ids && id in dispatched[b].ids
          ==> a == b)
    && (forall q, a, id :: q in reqs && 0 <= a < |dispatched| && id in Taken(reqs[q]) ==>
          id !in dispatched[a].ids)
  }

  ghost predicate Inv(w: World) {
    && LocalsOk(w.origin, w.requests)
    && JobsDistinct(w.issued, w.requests)
    && SessionsOk(w.origin, w.sessions)
    && ClaimsOwned(w.claims, w.requests)
    && RowsOk(w.origin, w.jobs, w.retired, w.requests)
    && EventsOwned(w.origin, w.dispatched, w.requests)
    && PublishedHasEvent(w.dispatched, w.requests)
    && UploadsOk(w.origin, w.sessions, w.dispatched, w.requests)
    && DispatchedOnce(w.dispatched, w.requests)
  }

  lemma KeepLocals(origin: map<UploadId, Session>, reqs: map<RequestId, Request>, q: RequestId, r: Request)
    requires LocalsOk(origin, reqs) && LocalOk(origin, r)
    ensures LocalsOk(origin, reqs[q := r])
  {
  }

  lemma KeepClaims(claims: map<UploadId, RequestId>, reqs: map<RequestId, Request>, q: RequestId, r: Request)
    requires ClaimsOwned(claims, reqs)
    requires Held(r) == if q in reqs then Held(reqs[q]) else []
    ensures ClaimsOwned(claims, reqs[q := r])
  {
  }

  lemma AddClaim(claims: map<UploadId, RequestId>, reqs: map<RequestId, Request>, q: RequestId, r: Request,
                 id: UploadId)
    requires ClaimsOwned(claims, reqs) && q in reqs && id !in claims
    requires Held(r) == Held(reqs[q]) + [id]
    ensures ClaimsOwned(claims[id := q], reqs[q := r])
  {
    var reqs' := reqs[q := r];
    forall p, x | p in reqs' && x in Held(reqs'[p])
      ensures x in claims[id := q] && claims[id := q][x] == p
    {
      assert p in reqs && (x in Held(reqs[p]) || (p == q && x == id));
    }
    assert NoDup(Held(r)) by {
      assert NoDup(Held(reqs[q])) && id !in Held(reqs[q]);
    }
  }

  lemma OthersClaims(claims: map<UploadId, RequestId>, reqs: map<RequestId, Request>, q: RequestId)
    requires ClaimsOwned(claims, reqs) && q in reqs
    ensures forall id :: id in claims && id !in Elements(Held(reqs[q])) <==> id in claims && claims[id] != q
  {
  }

  lemma DropClaims(claims: map<UploadId, RequestId>, reqs: map<RequestId, Request>, q: RequestId, r: Request)
    requires ClaimsOwned(claims, reqs) && q in reqs && Held(r) == []
    ensures ClaimsOwned(claims - Elements(Held(reqs[q])), reqs[q := r])
  {
    OthersClaims(claims, reqs, q);
    var left, reqs' := claims - Elements(Held(reqs[q])), reqs[q := r];
    forall p, id | p in reqs' && id in Held(reqs'[p])
      ensures id in left && left[id] == p
    {
      assert p != q && id in claims && claims[id] == p;
    }
  }

  lemma KeepJobs(issued: set<JobId>, reqs: map<RequestId, Request>, q: RequestId, r: Request)
    requires JobsDistinct(issued, reqs)
    requires if q in reqs then r.job == reqs[q].job else r.job !in issued
    ensures JobsDistinct(issued + {r.job}, reqs[q := r])
  {
  }

  lemma KeepRows(origin: map<UploadId, Session>, jobs: map<JobId, JobRow>, retired: set<JobId>,
                 reqs: map<RequestId, Request>, q: RequestId, r: Request)
    requires RowsOk(origin, jobs, retired, reqs)
    requires if q in reqs
             then r.job == reqs[q].job && r.body == reqs[q].body && r.committed == reqs[q].committed
             else !r.committed
    ensures RowsOk(origin, jobs, retired, reqs[q := r])
  {
  }

  lemma AddRow(origin: map<UploadId, Session>, jobs: map<JobId, JobRow>, retired: set<JobId>, issued: set<JobId>,
               reqs: map<RequestId, Request>, q: RequestId, r: Request, paths: seq<string>)
    requires RowsOk(origin, jobs, retired, reqs) && JobsDistinct(issued, reqs) && q in reqs
    requires r.job == reqs[q].job && r.body == reqs[q].body && r.committed && !reqs[q].committed
    requires InputsOf(origin, r.body, paths)
    ensures RowsOk(origin, jobs[r.job := JobRow(q, paths)], retired, reqs[q := r])
  {
  }

  lemma KeepEventsOwned(origin: map<UploadId, Session>, dispatched: seq<Event>, reqs: map<RequestId, Request>,
                        q: RequestId, r: Request)
    requires EventsOwned(origin, dispatched, reqs)
    requires if q in reqs
             then r.job == reqs[q].job && r.body == reqs[q].body && (Published(reqs[q].pc) ==> Published(r.pc))
             else true
    ensures EventsOwned(origin, dispatched, reqs[q := r])
  {
  }

  lemma AddEvent(origin: map<UploadId, Session>, dispatched: seq<Event>, reqs: map<RequestId, Request>,
                 q: RequestId, r: Request, paths: seq<string>)
    requires EventsOwned(origin, dispatched, reqs) && q in reqs && !Published(reqs[q].pc) && Published(r.pc)
    requires InputsOf(origin, r.body, paths) && NoDup(r.Ids())
    ensures EventsOwned(origin, dispatched + [Event(q, r.job, r.Ids(), paths)], reqs[q := r])
  {
    assert forall a :: 0 <= a < |dispatched| ==> dispatched[a].owner != q;
  }

  lemma KeepOnce(dispatched: seq<Event>, reqs: map<RequestId, Request>, q: RequestId, r: Request)
    requires DispatchedOnce(dispatched, reqs)
    requires forall id :: id in Taken(r) ==> q in reqs && id in Taken(reqs[q])
    ensures DispatchedOnce(dispatched, reqs[q := r])
  {
  }

  lemma KeepUploads(w: World, q: RequestId, r: Request)
    requires UploadsOk(w.origin, w.sessions, w.dispatched, w.requests)
    requires EventsOwned(w.origin, w.dispatched, w.requests)
    requires q in w.requests ==>
      r.pc == w.requests[q].pc || !Published(w.requests[q].pc) || w.requests[q].pc == Recording(|w.requests[q].Ids()|)
      || w.requests[q].pc.ReleasingClaims? || w.requests[q].pc.ReleasingKey?
    ensures UploadsOk(w.origin, w.sessions, w.dispatched, w.requests[q := r])
  {
  }

  /** An upload of a published request is in no other request's event. */
  lemma OwnEvent(w: World, q: RequestId, id: UploadId)
    requires EventsOwned(w.origin, w.dispatched, w.requests) && DispatchedOnce(w.dispatched, w.requests)
    requires PublishedHasEvent(w.dispatched, w.requests)
    requires q in w.requests && Published(w.requests[q].pc) && id in w.requests[q].Ids()
    ensures forall a :: 0 <= a < |w.dispatched| && id in w.dispatched[a].ids ==> w.dispatched[a].owner == q
  {
    var b :| 0 <= b < |w.dispatched| && w.dispatched[b].owner == q;
    assert EventOwned(w.origin, w.requests, w.dispatched[b]);
  }

  lemma RecordUpload(w: World, q: RequestId, i: nat)
    requires UploadsOk(w.origin, w.sessions, w.dispatched, w.requests)
    requires q in w.requests && w.requests[q].pc == Recording(i)
    ensures UploadsOk(w.origin, w.sessions, w.dispatched, w.requests[q := w.requests[q].(pc := Clearing(i))])
  {
  }

  lemma ClearUpload(w: World, q: RequestId, i: nat)
    requires UploadsOk(w.origin, w.sessions, w.dispatched, w.requests)
    requires EventsOwned(w.origin, w.dispatched, w.requests)
    requires q in w.requests && w.requests[q].pc == Clearing(i) && i < |w.requests[q].Ids()|
    ensures UploadsOk(w.origin, w.sessions - {w.requests[q].Ids()[i]}, w.dispatched,
                      w.requests[q := w.requests[q].(pc := Recording(i + 1))])
  {
  }

  lemma PublishUploads(w: World, q: RequestId, r: Request, e: Event)
    requires UploadsOk(w.origin, w.sessions, w.dispatched, w.requests)
    requires EventsOwned(w.origin, w.dispatched, w.requests)
    requires q in w.requests && !Published(w.requests[q].pc) && r.pc == Recording(0) && e.owner == q
    ensures UploadsOk(w.origin, w.sessions, w.dispatched + [e], w.requests[q := r])
  {
  }

  lemma TakenIsHeld(r: Request, id: UploadId)
    requires id in Taken(r)
    ensures id in Held(r)
  {
  }

  lemma PublishOnce(w: World, q: RequestId, r: Request, e: Event)
    requires DispatchedOnce(w.dispatched, w.requests) && ClaimsOwned(w.claims, w.requests)
    requires q in w.requests && w.requests[q].pc.Publishing? && r.pc == Recording(0) && e.ids == w.requests[q].Ids()
    ensures DispatchedOnce(w.dispatched + [e], w.requests[q := r])
  {
    var reqs, ds := w.requests[q := r], w.dispatched + [e];
    assert e.ids == Held(w.requests[q]);
    forall p, id | p in reqs && id in Taken(reqs[p])
      ensures id !in e.ids
    {
      TakenIsHeld(reqs[p], id);
      assert w.claims[id] == p;
    }
    forall a, id | 0 <= a < |w.dispatched| && id in w.dispatched[a].ids
      ensures id !in e.ids
    {
      assert e.ids == Taken(w.requests[q]);
    }
  }

  /** A dispatched upload that could still be consumed is claimed by the request that dispatched it. */
  lemma NotClearedIsHeld(w: World, a: nat, k: nat)
    requires EventsOwned(w.origin, w.dispatched, w.requests) && ClaimsOwned(w.claims, w.requests)
    requires UploadsOk(w.origin, w.sessions, w.dispatched, w.requests)
    requires a < |w.dispatched| && k < |w.dispatched[a].ids|
    requires Consumable(w.sessions, w.dispatched[a].ids[k])
    ensures w.dispatched[a].owner in w.requests && Published(w.requests[w.dispatched[a].owner].pc)
    ensures w.dispatched[a].ids[k] in w.claims
    ensures w.claims[w.dispatched[a].ids[k]] == w.dispatched[a].owner
  {
    assert EventOwned(w.origin, w.requests, w.dispatched[a]);
    var r := w.requests[w.dispatched[a].owner];
    assert UploadOk(w.origin, w.sessions, r.pc, k, w.dispatched[a].ids[k]);
    assert r.Ids()[k] in Held(r);
  }

  lemma ConsumeOnce(w: World, q: RequestId, i: nat, paths: seq<string>, r: Request)
    requires EventsOwned(w.origin, w.dispatched, w.requests) && ClaimsOwned(w.claims, w.requests)
    requires UploadsOk(w.origin, w.sessions, w.dispatched, w.requests)
    requires DispatchedOnce(w.dispatched, w.requests)
    requires q in w.requests && w.requests[q].pc == Consuming(i, paths) && i < |w.requests[q].Ids()|
    requires Consumable(w.sessions, w.requests[q].Ids()[i])
    requires r.pc.Consuming? && r.pc.i == i + 1 && r.body == w.requests[q].body
    ensures DispatchedOnce(w.dispatched, w.requests[q := r])
  {
    var id := w.requests[q].Ids()[i];
    assert id in Held(w.requests[q]);
    forall a | 0 <= a < |w.dispatched|
      ensures id !in w.dispatched[a].ids
    {
      forall k | 0 <= k < |w.dispatched[a].ids|
        ensures w.dispatched[a].ids[k] != id
      {
        if w.dispatched[a].ids[k] == id {
          NotClearedIsHeld(w, a, k);
        }
      }
    }
    assert r.Ids()[..i + 1] == w.requests[q].Ids()[..i] + [id];
  }

  lemma KeepHasEvent(dispatched: seq<Event>, reqs: map<RequestId, Request>, q: RequestId, r: Request)
    requires PublishedHasEvent(dispatched, reqs)
    requires Published(r.pc) ==> q in reqs && Published(reqs[q].pc)
    ensures PublishedHasEvent(dispatched, reqs[q := r])
  {
  }

  lemma AddHasEvent(dispatched: seq<Event>, reqs: map<RequestId, Request>, q: RequestId, r: Request, e: Event)
    requires PublishedHasEvent(dispatched, reqs) && e.owner == q
    ensures PublishedHasEvent(dispatched + [e], reqs[q := r])
  {
    var ds, reqs' := dispatched + [e], reqs[q := r];
    forall p | p in reqs' && Published(reqs'[p].pc)
      ensures exists a :: 0 <= a < |ds| && ds[a].owner == p
    {
      if p == q {
        assert ds[|dispatched|].owner == q;
      } else {
        var a :| 0 <= a < |dispatched| && dispatched[a].owner == p;
        assert ds[a].owner == p;
      }
    }
  }

  /** A step of q that moves only its own program counter. */
  ghost predicate OnlyMoves(origin: map<UploadId, Session>, r: Request, pc: Pc) {
    var r' := r.(pc := pc);
    && LocalOk(origin, r')
    && Held(r') == Held(r)
    && (forall id :: id in Taken(r') ==> id in Taken(r))
    && Published(pc) == Published(r.pc)
    && (Published(r.pc) ==> r.pc == Recording(|r.Ids()|))
  }

  lemma MoveKeepsInv(w: World, q: RequestId, pc: Pc)
    requires Inv(w) && q in w.requests && OnlyMoves(w.origin, w.requests[q], pc)
    ensures Inv(Goto(w, q, pc))
  {
    var r := w.requests[q].(pc := pc);
    var reqs := w.requests[q := r];
    assert LocalsOk(w.origin, reqs) by { KeepLocals(w.origin, w.requests, q, r); }
    assert ClaimsOwned(w.claims, reqs) by { KeepClaims(w.claims, w.requests, q, r); }
    assert JobsDistinct(w.issued, reqs) by {
      KeepJobs(w.issued, w.requests, q, r);
      assert w.issued + {r.job} == w.issued;
    }
    assert RowsOk(w.origin, w.jobs, w.retired, reqs) by { KeepRows(w.origin, w.jobs, w.retired, w.requests, q, r); }
    assert EventsOwned(w.origin, w.dispatched, reqs) by { KeepEventsOwned(w.origin, w.dispatched, w.requests, q, r); }
    assert PublishedHasEvent(w.dispatched, reqs) by { KeepHasEvent(w.dispatched, w.requests, q, r); }
    assert UploadsOk(w.origin, w.sessions, w.dispatched, reqs) by { KeepUploads(w, q, r); }
    assert DispatchedOnce(w.dispatched, reqs) by { KeepOnce(w.dispatched, w.requests, q, r); }
  }

  ghost predicate At(w: World, q: RequestId) {
    Inv(w) && q in w.requests && !w.requests[q].pc.Done?
  }

  // ------------------------------------------------------------ One call of a request

  lemma ArrivedRun(w: World, q: RequestId, ok: bool)
    requires q in w.requests && w.requests[q].pc.Arrived?
    ensures var r := w.requests[q];
            && (r.key.None? ==> RunRequest(w, q, ok) == Goto(w, q, Checking))
            && (r.key.Some? && r.key.value in w.keys ==> RunRequest(w, q, ok) == Goto(w, q, KeyHeld))
            && (r.key.Some? && r.key.value !in w.keys ==>
                  RunRequest(w, q, ok) == w.(keys := w.keys[r.key.value := r.job],
                                             requests := w.requests[q := r.(reserved := true, pc := Checking)]))
  {
  }

  lemma ClaimingRun(w: World, q: RequestId, ok: bool)
    requires q in w.requests && w.requests[q].pc.Claiming?
    ensures var ids, i := w.requests[q].Ids(), w.requests[q].pc.i;
            && (i >= |ids| ==> RunRequest(w, q, ok) == Goto(w, q, Consuming(0, [])))
            && (i < |ids| && (!ok || ids[i] in w.claims) ==> RunRequest(w, q, ok) == Goto(w, q, Unclaiming(i, ok)))
  {
  }

  lemma RecordingRun(w: World, q: RequestId, ok: bool)
    requires q in w.requests && (w.requests[q].pc.Recording? || w.requests[q].pc.Clearing?)
    ensures var r := w.requests[q];
            && (r.pc.Recording? && r.pc.i >= |r.Ids()| ==> RunRequest(w, q, ok) == Goto(w, q, ReleasingClaims(Created)))
            && (r.pc.Recording? ==> RunRequest(w, q, ok) == RunRequest(w, q, true))
            && (r.pc.Clearing? && r.pc.i < |r.Ids()| ==>
                  RunRequest(w, q, ok)
                  == Goto(w.(sessions := w.sessions - {r.Ids()[r.pc.i]}), q, Recording(r.pc.i + 1)))
  {
  }

  lemma ConsumingRun(w: World, q: RequestId, ok: bool)
    requires q in w.requests && w.requests[q].pc.Consuming?
    ensures var r := w.requests[q];
            RunRequest(w, q, ok) == Goto(w, q, NextRequest(w, r, ok).pc)
  {
  }

  lemma ArrivedKeepsInv(w: World, q: RequestId, ok: bool)
    requires At(w, q) && w.requests[q].pc.Arrived?
    ensures Inv(RunRequest(w, q, ok))
  {
    var r := w.requests[q];
    ArrivedRun(w, q, ok);
    if r.key.Some? && r.key.value !in w.keys {
      var r' := r.(reserved := true, pc := Checking);
      KeepClaims(w.claims, w.requests, q, r');
      KeepRestNoClaims(w, q, r');
    } else {
      MoveKeepsInv(w, q, if r.key.None? then Checking else KeyHeld);
    }
  }

  lemma ReadMoves(w: World, r: Request, ok: bool)
    requires LocalOk(w.origin, r) && OnlyReads(r.pc)
    ensures OnlyMoves(w.origin, r, NextPc(w, r, ok))
  {
    assert r.Ids()[..0] == [];
  }

  lemma ReadKeepsInv(w: World, q: RequestId, ok: bool)
    requires At(w, q) && OnlyReads(w.requests[q].pc)
    ensures Inv(RunRequest(w, q, ok))
  {
    ReadMoves(w, w.requests[q], ok);
    MoveKeepsInv(w, q, NextPc(w, w.requests[q], ok));
  }

  /** Everything but uploads and DispatchedOnce, for a step that keeps what q owns. */
  lemma KeepCore(w: World, q: RequestId, r: Request)
    requires At(w, q) && LocalOk(w.origin, r) && r == w.requests[q].(pc := r.pc)
    requires Held(r) == Held(w.requests[q])
    requires Published(r.pc) == Published(w.requests[q].pc)
    ensures LocalsOk(w.origin, w.requests[q := r])
    ensures JobsDistinct(w.issued, w.requests[q := r])
    ensures ClaimsOwned(w.claims, w.requests[q := r])
    ensures RowsOk(w.origin, w.jobs, w.retired, w.requests[q := r])
    ensures EventsOwned(w.origin, w.dispatched, w.requests[q := r])
    ensures PublishedHasEvent(w.dispatched, w.requests[q := r])
  {
    KeepClaims(w.claims, w.requests, q, r);
    KeepLocals(w.origin, w.requests, q, r);
    KeepJobs(w.issued, w.requests, q, r);
    assert w.issued + {r.job} == w.issued;
    KeepRows(w.origin, w.jobs, w.retired, w.requests, q, r);
    KeepEventsOwned(w.origin, w.dispatched, w.requests, q, r);
    KeepHasEvent(w.dispatched, w.requests, q, r);
  }

  lemma ClaimTakenKeepsInv(w: World, q: RequestId)
    requires At(w, q) && w.requests[q].pc.Claiming?
    requires w.requests[q].pc.i < |w.requests[q].Ids()| && w.requests[q].Ids()[w.requests[q].pc.i] !in w.claims
    ensures Inv(RunRequest(w, q, true))
  {
    var r := w.requests[q];
    var i, ids := r.pc.i, r.Ids();
    var r' := r.(pc := Claiming(i + 1));
    assert Held(r') == Held(r) + [ids[i]] by {
      assert ids[..i + 1] == ids[..i] + [ids[i]];
    }
    assert ClaimsOwned(w.claims[ids[i] := q], w.requests[q := r']) by {
      AddClaim(w.claims, w.requests, q, r', ids[i]);
    }
    KeepRestNoClaims(w, q, r');
  }

  lemma ClaimingMoves(origin: map<UploadId, Session>, r: Request, ok: bool)
    requires LocalOk(origin, r) && r.pc.Claiming?
    ensures r.pc.i >= |r.Ids()| ==> OnlyMoves(origin, r, Consuming(0, []))
    ensures r.pc.i < |r.Ids()| ==> OnlyMoves(origin, r, Unclaiming(r.pc.i, ok))
  {
    assert r.Ids()[..|r.Ids()|] == r.Ids() && r.Ids()[..0] == [];
  }

  lemma ClaimingKeepsInv(w: World, q: RequestId, ok: bool)
    requires At(w, q) && w.requests[q].pc.Claiming?
    ensures Inv(RunRequest(w, q, ok))
  {
    var r := w.requests[q];
    var i, ids := r.pc.i, r.Ids();
    ClaimingRun(w, q, ok);
    assert LocalOk(w.origin, r);
    ClaimingMoves(w.origin, r, ok);
    if i >= |ids| {
      MoveKeepsInv(w, q, Consuming(0, []));
    } else if !ok || ids[i] in w.claims {
      MoveKeepsInv(w, q, Unclaiming(i, ok));
    } else {
      ClaimTakenKeepsInv(w, q);
    }
  }

  /** Everything but claims and keys. */
  lemma KeepRestNoClaims(w: World, q: RequestId, r: Request)
    requires At(w, q) && LocalOk(w.origin, r)
    requires r.job == w.requests[q].job && r.body == w.requests[q].body && r.committed == w.requests[q].committed
    requires Published(r.pc) == Published(w.requests[q].pc)
    requires Published(r.pc) ==> w.requests[q].pc.ReleasingClaims? || w.requests[q].pc.ReleasingKey?
    requires Taken(r) == []
    ensures LocalsOk(w.origin, w.requests[q := r])
    ensures JobsDistinct(w.issued, w.requests[q := r])
    ensures RowsOk(w.origin, w.jobs, w.retired, w.requests[q := r])
    ensures EventsOwned(w.origin, w.dispatched, w.requests[q := r])
    ensures PublishedHasEvent(w.dispatched, w.requests[q := r])
    ensures UploadsOk(w.origin, w.sessions, w.dispatched, w.requests[q := r])
    ensures DispatchedOnce(w.dispatched, w.requests[q := r])
  {
    KeepLocals(w.origin, w.requests, q, r);
    KeepJobs(w.issued, w.requests, q, r);
    assert w.issued + {r.job} == w.issued;
    KeepRows(w.origin, w.jobs, w.retired, w.requests, q, r);
    KeepEventsOwned(w.origin, w.dispatched, w.requests, q, r);
    KeepHasEvent(w.dispatched, w.requests, q, r);
    KeepUploads(w, q, r);
    KeepOnce(w.dispatched, w.requests, q, r);
  }

  /** Where a request goes when it has dropped all its claims. */
  function Dropped(pc: Pc): Pc
    requires pc.Unclaiming? || pc.ReleasingClaims?
  {
    if pc.ReleasingClaims? then ReleasingKey(pc.outcome)
    else if pc.taken then Finding(0, None, true) else ReleasingKey(Failed)
  }

  lemma DroppedMoves(origin: map<UploadId, Session>, r: Request)
    requires LocalOk(origin, r) && (r.pc.Unclaiming? || r.pc.ReleasingClaims?)
    ensures var r' := r.(pc := Dropped(r.pc));
            && LocalOk(origin, r') && Held(r') == [] && Taken(r') == []
            && Published(r'.pc) == Published(r.pc)
  {
  }

  lemma ReleasingRun(w: World, q: RequestId, ok: bool)
    requires q in w.requests && LocalOk(w.origin, w.requests[q])
    requires w.requests[q].pc.Unclaiming? || w.requests[q].pc.ReleasingClaims?
    ensures var r := w.requests[q];
            RunRequest(w, q, ok) == Goto(w.(claims := w.claims - Elements(Held(r))), q, Dropped(r.pc))
  {
  }

  lemma ReleasingKeepsInv(w: World, q: RequestId, ok: bool)
    requires At(w, q) && (w.requests[q].pc.Unclaiming? || w.requests[q].pc.ReleasingClaims?)
    ensures Inv(RunRequest(w, q, ok))
  {
    var r := w.requests[q];
    assert LocalOk(w.origin, r);
    var r' := r.(pc := Dropped(r.pc));
    DroppedMoves(w.origin, r);
    ReleasingRun(w, q, ok);
    assert ClaimsOwned(w.claims - Elements(Held(r)), w.requests[q := r']) by {
      DropClaims(w.claims, w.requests, q, r');
    }
    KeepRestNoClaims(w, q, r');
  }

  lemma ReleasingKeyKeepsInv(w: World, q: RequestId, ok: bool)
    requires At(w, q) && w.requests[q].pc.ReleasingKey?
    ensures Inv(RunRequest(w, q, ok))
  {
    var r := w.requests[q];
    var r' := r.(pc := Done(r.pc.outcome));
    KeepClaims(w.claims, w.requests, q, r');
    KeepRestNoClaims(w, q, r');
  }

  lemma ConsumedKeepsInv(w: World, q: RequestId)
    requires At(w, q) && w.requests[q].pc.Consuming?
    requires w.requests[q].pc.i < |w.requests[q].Ids()|
    requires Consumable(w.sessions, w.requests[q].Ids()[w.requests[q].pc.i])
    ensures Inv(Goto(w, q, NextRequest(w, w.requests[q], true).pc))
  {
    var r := w.requests[q];
    var i, paths, ids := r.pc.i, r.pc.paths, r.Ids();
    var r' := r.(pc := Consuming(i + 1, paths + [w.sessions[ids[i]].key]));
    assert LocalOk(w.origin, r') by {
      assert ids[..i + 1] == ids[..i] + [ids[i]];
    }
    KeepCore(w, q, r');
    KeepUploads(w, q, r');
    ConsumeOnce(w, q, i, paths, r');
  }

  lemma ConsumingKeepsInv(w: World, q: RequestId, ok: bool)
    requires At(w, q) && w.requests[q].pc.Consuming?
    ensures Inv(RunRequest(w, q, ok))
  {
    var r := w.requests[q];
    var i, ids := r.pc.i, r.Ids();
    ConsumingRun(w, q, ok);
    if i >= |ids| {
      assert ids[..i] == ids;
      MoveKeepsInv(w, q, Committing(r.pc.paths));
    } else if ok && Consumable(w.sessions, ids[i]) {
      ConsumedKeepsInv(w, q);
    } else {
      MoveKeepsInv(w, q, ReleasingClaims(Rejected));
    }
  }

  lemma CommittedKeepsInv(w: World, q: RequestId)
    requires At(w, q) && w.requests[q].pc.Committing?
    ensures Inv(RunRequest(w, q, true))
  {
    var r := w.requests[q];
    var r' := r.(committed := true, pc := Publishing(r.pc.paths));
    KeepClaims(w.claims, w.requests, q, r');
    KeepJobs(w.issued, w.requests, q, r');
    assert w.issued + {r'.job} == w.issued;
    AddRow(w.origin, w.jobs, w.retired, w.issued, w.requests, q, r', r.pc.paths);
    KeepEventsOwned(w.origin, w.dispatched, w.requests, q, r');
    KeepHasEvent(w.dispatched, w.requests, q, r');
    KeepUploads(w, q, r');
    KeepOnce(w.dispatched, w.requests, q, r');
  }

  lemma CommittingKeepsInv(w: World, q: RequestId, ok: bool)
    requires At(w, q) && w.requests[q].pc.Committing?
    ensures Inv(RunRequest(w, q, ok))
  {
    if ok {
      CommittedKeepsInv(w, q);
    } else {
      MoveKeepsInv(w, q, ReleasingClaims(Failed));
    }
  }

  lemma PublishedKeepsInv(w: World, q: RequestId)
    requires At(w, q) && w.requests[q].pc.Publishing?
    ensures Inv(RunRequest(w, q, true))
  {
    var r := w.requests[q];
    var r' := r.(pc := Recording(0));
    var e := Event(q, r.job, r.Ids(), r.pc.paths);
    KeepClaims(w.claims, w.requests, q, r');
    KeepRowsAndJobs(w, q, r');
    AddEvent(w.origin, w.dispatched, w.requests, q, r', r.pc.paths);
    AddHasEvent(w.dispatched, w.requests, q, r', e);
    PublishUploads(w, q, r', e);
    PublishOnce(w, q, r', e);
  }

  lemma KeepRowsAndJobs(w: World, q: RequestId, r: Request)
    requires At(w, q) && LocalOk(w.origin, r) && r == w.requests[q].(pc := r.pc)
    ensures LocalsOk(w.origin, w.requests[q := r])
    ensures JobsDistinct(w.issued, w.requests[q := r])
    ensures RowsOk(w.origin, w.jobs, w.retired, w.requests[q := r])
  {
    KeepLocals(w.origin, w.requests, q, r);
    KeepJobs(w.issued, w.requests, q, r);
    assert w.issued + {r.job} == w.issued;
    KeepRows(w.origin, w.jobs, w.retired, w.requests, q, r);
  }

  lemma PublishingKeepsInv(w: World, q: RequestId, ok: bool)
    requires At(w, q) && w.requests[q].pc.Publishing?
    ensures Inv(RunRequest(w, q, ok))
  {
    if ok {
      PublishedKeepsInv(w, q);
    } else {
      MoveKeepsInv(w, q, ReleasingClaims(Failed));
    }
  }

  lemma RecordedKeepsInv(w: World, q: RequestId)
    requires At(w, q) && w.requests[q].pc.Recording? && w.requests[q].pc.i < |w.requests[q].Ids()|
    ensures Inv(RunRequest(w, q, true))
  {
    var r := w.requests[q];
    var i := r.pc.i;
    var r' := r.(pc := Clearing(i));
    KeepCore(w, q, r');
    KeepOnce(w.dispatched, w.requests, q, r');
    RecordUpload(w, q, i);
  }

  lemma DropSessionOk(origin: map<UploadId, Session>, sessions: map<UploadId, Session>, id: UploadId)
    requires SessionsOk(origin, sessions)
    ensures SessionsOk(origin, sessions - {id})
  {
  }

  lemma ClearedKeepsInv(w: World, q: RequestId)
    requires At(w, q) && w.requests[q].pc.Clearing?
    ensures var r := w.requests[q];
            Inv(Goto(w.(sessions := w.sessions - {r.Ids()[r.pc.i]}), q, Recording(r.pc.i + 1)))
  {
    var r := w.requests[q];
    var i := r.pc.i;
    var r' := r.(pc := Recording(i + 1));
    var reqs, sessions := w.requests[q := r'], w.sessions - {r.Ids()[i]};
    assert SessionsOk(w.origin, sessions) by { DropSessionOk(w.origin, w.sessions, r.Ids()[i]); }
    assert DispatchedOnce(w.dispatched, reqs) by { KeepOnce(w.dispatched, w.requests, q, r'); }
    assert UploadsOk(w.origin, sessions, w.dispatched, reqs) by { ClearUpload(w, q, i); }
    KeepCore(w, q, r');
  }

  lemma RecordingKeepsInv(w: World, q: RequestId, ok: bool)
    requires At(w, q) && (w.requests[q].pc.Recording? || w.requests[q].pc.Clearing?)
    ensures Inv(RunRequest(w, q, ok))
  {
    var r := w.requests[q];
    assert LocalOk(w.origin, r);
    RecordingRun(w, q, ok);
    if r.pc.Clearing? {
      ClearedKeepsInv(w, q);
    } else if r.pc.i < |r.Ids()| {
      RecordedKeepsInv(w, q);
    } else {
      MoveKeepsInv(w, q, ReleasingClaims(Created));
    }
  }

  lemma RunKeepsInv(w: World, q: RequestId, ok: bool)
    requires At(w, q)
    ensures Inv(RunRequest(w, q, ok))
  {
    match w.requests[q].pc
    case Arrived => ArrivedKeepsInv(w, q, ok);
    case Claiming(_) => ClaimingKeepsInv(w, q, ok);
    case Unclaiming(_, _) => ReleasingKeepsInv(w, q, ok);
    case Consuming(_, _) => ConsumingKeepsInv(w, q, ok);
    case Committing(_) => CommittingKeepsInv(w, q, ok);
    case Publishing(_) => PublishingKeepsInv(w, q, ok);
    case Recording(_) => RecordingKeepsInv(w, q, ok);
    case Clearing(_) => RecordingKeepsInv(w, q, ok);
    case ReleasingClaims(_) => ReleasingKeepsInv(w, q, ok);
    case ReleasingKey(_) => ReleasingKeyKeepsInv(w, q, ok);
    case _ => ReadKeepsInv(w, q, ok);
  }

  lemma ArriveKeepsInv(w: World, q: RequestId, key: Option<string>, body: Body, job: JobId)
    requires Inv(w) && Enabled(w, Arrive(q, key, body, job))
    ensures Inv(Apply(w, Arrive(q, key, body, job)))
  {
    var r := Request(key, body, job, false, false, Arrived);
    KeepClaims(w.claims, w.requests, q, r);
    KeepJobs(w.issued, w.requests, q, r);
    KeepRows(w.origin, w.jobs, w.retired, w.requests, q, r);
    KeepEventsOwned(w.origin, w.dispatched, w.requests, q, r);
    KeepHasEvent(w.dispatched, w.requests, q, r);
    KeepUploads(w, q, r);
    KeepOnce(w.dispatched, w.requests, q, r);
  }

  lemma InitKeepsLocals(origin: map<UploadId, Session>, reqs: map<RequestId, Request>, id: UploadId, s: Session)
    requires LocalsOk(origin, reqs) && id !in origin
    ensures LocalsOk(origin[id := s], reqs)
  {
  }

  lemma InitKeepsOwned(w: World, id: UploadId, s: Session)
    requires RowsOk(w.origin, w.jobs, w.retired, w.requests) && EventsOwned(w.origin, w.dispatched, w.requests)
    requires id !in w.origin
    ensures RowsOk(w.origin[id := s], w.jobs, w.retired, w.requests)
    ensures EventsOwned(w.origin[id := s], w.dispatched, w.requests)
  {
  }

  /** A change to sessions and origin that leaves every cleared upload cleared. */
  lemma KeepCleared(w: World, w': World)
    requires UploadsOk(w.origin, w.sessions, w.dispatched, w.requests)
    requires w'.dispatched == w.dispatched && w'.requests == w.requests
    requires forall id :: Cleared(w.origin, w.sessions, id) ==> Cleared(w'.origin, w'.sessions, id)
    ensures UploadsOk(w'.origin, w'.sessions, w'.dispatched, w'.requests)
  {
    forall a, k | 0 <= a < |w.dispatched| && 0 <= k < |w.dispatched[a].ids| && w.dispatched[a].owner in w.requests
      ensures UploadOk(w'.origin, w'.sessions, w.requests[w.dispatched[a].owner].pc, k, w.dispatched[a].ids[k])
    {
      assert UploadOk(w.origin, w.sessions, w.requests[w.dispatched[a].owner].pc, k, w.dispatched[a].ids[k]);
    }
  }

  lemma InitKeepsInv(w: World, id: UploadId, s: Session)
    requires Inv(w) && Enabled(w, InitUpload(id, s))
    ensures Inv(Apply(w, InitUpload(id, s)))
  {
    var w' := Apply(w, InitUpload(id, s));
    KeepCleared(w, w');
    InitKeepsLocals(w.origin, w.requests, id, s);
    InitKeepsOwned(w, id, s);
  }

  lemma CompleteKeepsInv(w: World, id: UploadId)
    requires Inv(w) && Enabled(w, CompleteUpload(id))
    ensures Inv(Apply(w, CompleteUpload(id)))
  {
    KeepCleared(w, Apply(w, CompleteUpload(id)));
  }

  lemma DropKeepsInv(w: World, id: UploadId)
    requires Inv(w)
    ensures Inv(Apply(w, DropSession(id)))
  {
    var w' := Apply(w, DropSession(id));
    assert SessionsOk(w'.origin, w'.sessions) by { DropSessionOk(w.origin, w.sessions, id); }
    KeepCleared(w, w');
  }

  lemma LapseKeepsInv(w: World, step: Step)
    requires Inv(w) && Enabled(w, step) && (step.LapseKey? || step.DeleteJob?)
    ensures Inv(Apply(w, step))
  {
    KeepCleared(w, Apply(w, step));
  }

  lemma EnvironmentKeepsInv(w: World, step: Step)
    requires Inv(w) && Enabled(w, step) && !step.Arrive? && !step.Run?
    ensures Inv(Apply(w, step))
  {
    match step
    case InitUpload(id, s) => InitKeepsInv(w, id, s);
    case CompleteUpload(id) => CompleteKeepsInv(w, id);
    case DropSession(id) => DropKeepsInv(w, id);
    case _ => LapseKeepsInv(w, step);
  }

  lemma StepKeepsInv(w: World, step: Step)
    requires Inv(w) && Enabled(w, step)
    ensures Inv(Apply(w, step))
  {
    match step
    case Arrive(q, key, body, job) => ArriveKeepsInv(w, q, key, body, job);
    case Run(q, ok) => RunKeepsInv(w, q, ok);
    case _ => EnvironmentKeepsInv(w, step);
  }

  lemma {:induction false} RunsKeepInv(w: World, steps: seq<Step>)
    requires Inv(w) && Legal(w, steps)
    ensures Inv(Exec(w, steps))
    decreases |steps|
  {
    if steps != [] {
      StepKeepsInv(w, steps[0]);
      RunsKeepInv(Apply(w, steps[0]), steps[1..]);
    }
  }

  lemma InvHolds(w: World)
    requires Reachable(w)
    ensures Inv(w)
  {
    var steps :| Legal(Empty, steps) && Exec(Empty, steps) == w;
    RunsKeepInv(Empty, steps);
  }
}
