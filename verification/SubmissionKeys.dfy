/** What the shared Redis keys hold in runs whose Idempotency-Keys name no consumed-upload record: reservations belong
    to their requests, and records name the job that took the upload. */
module SubmissionKeys {
  import opened Wrappers
  import opened Submission
  import opened SubmissionInvariant

  type Requests = map<RequestId, Request>

  lemma RecordKeysDistinct(a: UploadId, b: UploadId)
    ensures RecordKey(a) == RecordKey(b) ==> a == b
    ensures a != "" ==> Collides(RecordKey(a))
  {
    assert RecordKey(a)[|"upload:"|..] == a && RecordKey(b)[|"upload:"|..] == b;
  }

  /** A request owns its reservation from the SETNX on, unless it ended without committing. */
  predicate OwnsKey(r: Request) {
    r.reserved && (r.committed || !r.pc.Done?)
  }

  ghost predicate KeysClean(reqs: Requests) {
    forall q :: q in reqs && reqs[q].key.Some? ==> !Collides(reqs[q].key.value)
  }

  ghost predicate KeysOwned(keys: map<string, JobId>, lapsed: set<string>, issued: set<JobId>, reqs: Requests) {
    && (forall q :: q in reqs && OwnsKey(reqs[q]) && reqs[q].key.Some? && reqs[q].key.value !in lapsed ==>
          reqs[q].key.value in keys && keys[reqs[q].key.value] == reqs[q].job)
    && (forall q, k :: q in reqs && k in keys && !Collides(k) && keys[k] == reqs[q].job ==>
          OwnsKey(reqs[q]) && reqs[q].key == Some(k))
    && (forall k :: k in keys ==> keys[k] in issued)
  }

  ghost predicate Recorded(keys: map<string, JobId>, lapsed: set<string>, id: UploadId, job: JobId) {
    (RecordKey(id) in keys && keys[RecordKey(id)] == job) || RecordKey(id) in lapsed
  }

  /** How far the publishing request has got with the record of upload number k. */
  ghost predicate RecordOk(keys: map<string, JobId>, lapsed: set<string>, pc: Pc, k: nat, id: UploadId, job: JobId) {
    match pc
    case Recording(i) => k < i ==> Recorded(keys, lapsed, id, job)
    case Clearing(i) => k <= i ==> Recorded(keys, lapsed, id, job)
    case _ => Recorded(keys, lapsed, id, job)
  }

  ghost predicate RecordsOk(keys: map<string, JobId>, lapsed: set<string>, dispatched: seq<Event>, reqs: Requests) {
    forall a, k :: 0 <= a < |dispatched| && 0 <= k < |dispatched[a].ids| && dispatched[a].owner in reqs ==>
      RecordOk(keys, lapsed, reqs[dispatched[a].owner].pc, k, dispatched[a].ids[k], dispatched[a].job)
  }

  ghost predicate KeyInv(w: World) {
    && KeysClean(w.requests)
    && KeysOwned(w.keys, w.lapsed, w.issued, w.requests)
    && RecordsOk(w.keys, w.lapsed, w.dispatched, w.requests)
  }

  // ------------------------------------------------------------ Reservations

  lemma KeepKeys(keys: map<string, JobId>, lapsed: set<string>, issued: set<JobId>, reqs: Requests, q: RequestId,
                 r: Request)
    requires KeysOwned(keys, lapsed, issued, reqs) && q in reqs
    requires r.key == reqs[q].key && r.job == reqs[q].job && OwnsKey(r) == OwnsKey(reqs[q])
    ensures KeysOwned(keys, lapsed, issued, reqs[q := r])
  {
  }

  lemma ReserveKey(keys: map<string, JobId>, lapsed: set<string>, issued: set<JobId>, reqs: Requests, q: RequestId,
                   r: Request)
    requires KeysOwned(keys, lapsed, issued, reqs) && JobsDistinct(issued, reqs) && q in reqs
    requires r.key == reqs[q].key && r.job == reqs[q].job && OwnsKey(r) && r.key.Some? && r.key.value !in keys
    requires !Collides(r.key.value)
    ensures KeysOwned(keys[r.key.value := r.job], lapsed, issued, reqs[q := r])
  {
  }

  lemma FreeKey(keys: map<string, JobId>, lapsed: set<string>, issued: set<JobId>, reqs: Requests, q: RequestId,
                r: Request)
    requires KeysOwned(keys, lapsed, issued, reqs) && JobsDistinct(issued, reqs) && q in reqs
    requires OwnsKey(reqs[q]) && r.key == reqs[q].key && r.job == reqs[q].job && !OwnsKey(r) && r.key.Some?
    requires !Collides(r.key.value)
    ensures KeysOwned(keys - {r.key.value}, lapsed, issued, reqs[q := r])
  {
  }

  /** A new record touches no reservation. */
  lemma SetRecord(keys: map<string, JobId>, lapsed: set<string>, issued: set<JobId>, reqs: Requests, k: string,
                  job: JobId)
    requires KeysOwned(keys, lapsed, issued, reqs) && KeysClean(reqs) && Collides(k) && job in issued
    ensures KeysOwned(keys[k := job], lapsed, issued, reqs)
  {
  }

  // ------------------------------------------------------------ Records

  lemma KeepRecords(w: World, q: RequestId, r: Request)
    requires RecordsOk(w.keys, w.lapsed, w.dispatched, w.requests) && EventsOwned(w.origin, w.dispatched, w.requests)
    requires q in w.requests ==> !Published(w.requests[q].pc) || RecordsKept(w.requests[q], r)
    ensures RecordsOk(w.keys, w.lapsed, w.dispatched, w.requests[q := r])
  {
    forall a, k | 0 <= a < |w.dispatched| && 0 <= k < |w.dispatched[a].ids|
                  && w.dispatched[a].owner in w.requests[q := r]
      ensures RecordOk(w.keys, w.lapsed, w.requests[q := r][w.dispatched[a].owner].pc, k, w.dispatched[a].ids[k],
                       w.dispatched[a].job)
    {
      var e := w.dispatched[a];
      assert EventOwned(w.origin, w.requests, e);
      assert RecordOk(w.keys, w.lapsed, w.requests[e.owner].pc, k, e.ids[k], e.job);
    }
  }

  /** A move of a publishing request that needs no new record. */
  predicate RecordsKept(r: Request, r': Request) {
    || r.pc.ReleasingClaims? || r.pc.ReleasingKey?
    || (r.pc.Clearing? && r'.pc == Recording(r.pc.i + 1))
    || r.pc == Recording(|r.Ids()|)
  }

  /** The records named below other keys, or rewritten with what they say, are the same. */
  lemma SameRecords(keys: map<string, JobId>, keys': map<string, JobId>, lapsed: set<string>, lapsed': set<string>,
                    dispatched: seq<Event>, reqs: Requests)
    requires RecordsOk(keys, lapsed, dispatched, reqs)
    requires forall id, job :: Recorded(keys, lapsed, id, job) ==> id == "" || Recorded(keys', lapsed', id, job)
    requires forall a :: 0 <= a < |dispatched| ==> "" !in dispatched[a].ids
    ensures RecordsOk(keys', lapsed', dispatched, reqs)
  {
    forall a, k | 0 <= a < |dispatched| && 0 <= k < |dispatched[a].ids| && dispatched[a].owner in reqs
      ensures RecordOk(keys', lapsed', reqs[dispatched[a].owner].pc, k, dispatched[a].ids[k], dispatched[a].job)
    {
      assert RecordOk(keys, lapsed, reqs[dispatched[a].owner].pc, k, dispatched[a].ids[k], dispatched[a].job);
      assert dispatched[a].ids[k] in dispatched[a].ids;
    }
  }

  /** Dispatched uploads are real ones. */
  lemma NoEmptyIds(w: World, a: nat)
    requires Inv(w) && a < |w.dispatched|
    ensures "" !in w.dispatched[a].ids
  {
    var e := w.dispatched[a];
    assert EventOwned(w.origin, w.requests, e);
    forall k | 0 <= k < |e.ids|
      ensures e.ids[k] != ""
    {
      assert e.ids[k] in w.origin;
    }
  }

  /** A write below a key that is no record leaves every record as it is. */
  lemma PlainWrite(w: World, keys': map<string, JobId>, k: string)
    requires Inv(w) && RecordsOk(w.keys, w.lapsed, w.dispatched, w.requests) && !Collides(k)
    requires forall x :: x != k ==> (x in keys' <==> x in w.keys) && (x in w.keys ==> keys'[x] == w.keys[x])
    ensures RecordsOk(keys', w.lapsed, w.dispatched, w.requests)
  {
    forall id, job | Recorded(w.keys, w.lapsed, id, job) && id != ""
      ensures Recorded(keys', w.lapsed, id, job)
    {
      RecordKeysDistinct(id, id);
    }
    forall a | 0 <= a < |w.dispatched|
      ensures "" !in w.dispatched[a].ids
    {
      NoEmptyIds(w, a);
    }
    SameRecords(w.keys, keys', w.lapsed, w.lapsed, w.dispatched, w.requests);
  }

  /** The upload a publishing request is about to record is a real one, and in no other event. */
  lemma OwnRecord(w: World, q: RequestId, i: nat)
    requires Inv(w) && q in w.requests && w.requests[q].pc == Recording(i) && i < |w.requests[q].Ids()|
    ensures var id := w.requests[q].Ids()[i];
            id != "" && forall a :: 0 <= a < |w.dispatched| && id in w.dispatched[a].ids ==> w.dispatched[a].owner == q
  {
    var id := w.requests[q].Ids()[i];
    var b :| 0 <= b < |w.dispatched| && w.dispatched[b].owner == q;
    assert EventOwned(w.origin, w.requests, w.dispatched[b]);
    NoEmptyIds(w, b);
    assert id in w.dispatched[b].ids;
    OwnEvent(w, q, id);
  }

  lemma RecordUpload(w: World, q: RequestId, i: nat)
    requires EventsOwned(w.origin, w.dispatched, w.requests)
    requires RecordsOk(w.keys, w.lapsed, w.dispatched, w.requests)
    requires q in w.requests && w.requests[q].pc == Recording(i) && i < |w.requests[q].Ids()|
    requires forall a :: 0 <= a < |w.dispatched| && w.requests[q].Ids()[i] in w.dispatched[a].ids
               ==> w.dispatched[a].owner == q
    ensures RecordsOk(w.keys[RecordKey(w.requests[q].Ids()[i]) := w.requests[q].job], w.lapsed, w.dispatched,
                      w.requests[q := w.requests[q].(pc := Clearing(i))])
  {
    var r := w.requests[q];
    var id, reqs := r.Ids()[i], w.requests[q := r.(pc := Clearing(i))];
    var keys := w.keys[RecordKey(id) := r.job];
    forall a, k | 0 <= a < |w.dispatched| && 0 <= k < |w.dispatched[a].ids| && w.dispatched[a].owner in reqs
      ensures RecordOk(keys, w.lapsed, reqs[w.dispatched[a].owner].pc, k, w.dispatched[a].ids[k], w.dispatched[a].job)
    {
      var e := w.dispatched[a];
      assert EventOwned(w.origin, w.requests, e);
      assert RecordOk(w.keys, w.lapsed, w.requests[e.owner].pc, k, e.ids[k], e.job);
      assert e.ids[k] == id ==> id in e.ids;
      RecordKeysDistinct(e.ids[k], id);
    }
  }

  lemma AddEventRecords(w: World, q: RequestId, r: Request, e: Event)
    requires RecordsOk(w.keys, w.lapsed, w.dispatched, w.requests) && EventsOwned(w.origin, w.dispatched, w.requests)
    requires q in w.requests && !Published(w.requests[q].pc) && r.pc == Recording(0) && e.owner == q
    ensures RecordsOk(w.keys, w.lapsed, w.dispatched + [e], w.requests[q := r])
  {
    KeepRecords(w, q, r);
  }

  // ------------------------------------------------------------ Steps

  ghost predicate At(w: World, q: RequestId) {
    Inv(w) && KeyInv(w) && q in w.requests && !w.requests[q].pc.Done?
  }

  lemma CleanStays(reqs: Requests, q: RequestId, r: Request)
    requires KeysClean(reqs) && q in reqs && r.key == reqs[q].key
    ensures KeysClean(reqs[q := r])
  {
  }

  lemma ArrivedKeepsKeys(w: World, q: RequestId, ok: bool)
    requires At(w, q) && w.requests[q].pc.Arrived?
    ensures KeyInv(RunRequest(w, q, ok))
  {
    var r, r' := w.requests[q], NextRequest(w, w.requests[q], ok);
    var keys := NextKeys(w.keys, r);
    assert LocalOk(w.origin, r);
    CleanStays(w.requests, q, r');
    if r.key.Some? && r.key.value !in w.keys {
      ReserveKey(w.keys, w.lapsed, w.issued, w.requests, q, r');
      PlainWrite(w, keys, r.key.value);
      KeepRecords(w.(keys := keys), q, r');
    } else {
      KeepKeys(w.keys, w.lapsed, w.issued, w.requests, q, r');
      KeepRecords(w, q, r');
    }
  }

  lemma ReleasedKeepsKeys(w: World, q: RequestId, ok: bool)
    requires At(w, q) && w.requests[q].pc.ReleasingKey?
    ensures KeyInv(RunRequest(w, q, ok))
  {
    var r, r' := w.requests[q], NextRequest(w, w.requests[q], ok);
    var keys := NextKeys(w.keys, r);
    assert LocalOk(w.origin, r);
    CleanStays(w.requests, q, r');
    if r.reserved && !r.committed {
      FreeKey(w.keys, w.lapsed, w.issued, w.requests, q, r');
      PlainWrite(w, keys, r.key.value);
      KeepRecords(w.(keys := keys), q, r');
    } else {
      KeepKeys(w.keys, w.lapsed, w.issued, w.requests, q, r');
      KeepRecords(w, q, r');
    }
  }

  lemma RecordedKeepsKeys(w: World, q: RequestId, ok: bool)
    requires At(w, q) && w.requests[q].pc.Recording?
    ensures KeyInv(RunRequest(w, q, ok))
  {
    var r, r' := w.requests[q], NextRequest(w, w.requests[q], ok);
    assert LocalOk(w.origin, r);
    CleanStays(w.requests, q, r');
    KeepKeys(w.keys, w.lapsed, w.issued, w.requests, q, r');
    if r.pc.i < |r.Ids()| {
      var id := r.Ids()[r.pc.i];
      OwnRecord(w, q, r.pc.i);
      RecordUpload(w, q, r.pc.i);
      RecordKeysDistinct(id, id);
      SetRecord(w.keys, w.lapsed, w.issued, w.requests[q := r'], RecordKey(id), r.job);
    } else {
      KeepRecords(w, q, r');
    }
  }

  /** The calls that write no key. */
  lemma OtherKeepsKeys(w: World, q: RequestId, ok: bool)
    requires At(w, q)
    requires var pc := w.requests[q].pc; !pc.Arrived? && !pc.ReleasingKey? && !pc.Recording?
    ensures KeyInv(RunRequest(w, q, ok))
  {
    var r, r' := w.requests[q], NextRequest(w, w.requests[q], ok);
    assert LocalOk(w.origin, r);
    CleanStays(w.requests, q, r');
    OtherMoves(w, r, ok);
    KeepKeys(w.keys, w.lapsed, w.issued, w.requests, q, r');
    if r.pc.Publishing? && ok {
      AddEventRecords(w, q, r', Event(q, r.job, r.Ids(), r.pc.paths));
    } else {
      KeepRecords(w, q, r');
    }
  }

  lemma OtherMoves(w: World, r: Request, ok: bool)
    requires LocalOk(w.origin, r) && !r.pc.Arrived? && !r.pc.ReleasingKey? && !r.pc.Recording? && !r.pc.Done?
    ensures var r' := NextRequest(w, r, ok);
            && r'.key == r.key && r'.job == r.job && OwnsKey(r') == OwnsKey(r)
            && (!Published(r.pc) || RecordsKept(r, r'))
            && (r.pc.Publishing? && ok ==> r'.pc == Recording(0))
  {
  }

  lemma RunKeepsKeys(w: World, q: RequestId, ok: bool)
    requires At(w, q)
    ensures KeyInv(RunRequest(w, q, ok))
  {
    match w.requests[q].pc
    case Arrived => ArrivedKeepsKeys(w, q, ok);
    case ReleasingKey(_) => ReleasedKeepsKeys(w, q, ok);
    case Recording(_) => RecordedKeepsKeys(w, q, ok);
    case _ => OtherKeepsKeys(w, q, ok);
  }

  lemma AddRequest(keys: map<string, JobId>, lapsed: set<string>, issued: set<JobId>, reqs: Requests, q: RequestId,
                   r: Request)
    requires KeysOwned(keys, lapsed, issued, reqs) && q !in reqs && r.job !in issued && !r.reserved
    ensures KeysOwned(keys, lapsed, issued + {r.job}, reqs[q := r])
  {
  }

  lemma ArriveKeepsKeys(w: World, q: RequestId, key: Option<string>, body: Body, job: JobId)
    requires Inv(w) && KeyInv(w) && Enabled(w, Arrive(q, key, body, job)) && (key.Some? ==> !Collides(key.value))
    ensures KeyInv(Apply(w, Arrive(q, key, body, job)))
  {
    var r := Request(key, body, job, false, false, Arrived);
    AddRequest(w.keys, w.lapsed, w.issued, w.requests, q, r);
    KeepRecords(w, q, r);
  }

  lemma LapseOwned(keys: map<string, JobId>, lapsed: set<string>, issued: set<JobId>, reqs: Requests, k: string)
    requires KeysOwned(keys, lapsed, issued, reqs)
    ensures KeysOwned(keys - {k}, lapsed + {k}, issued, reqs)
  {
  }

  lemma LapseKeepsKeys(w: World, key: string)
    requires Inv(w) && KeyInv(w) && Enabled(w, LapseKey(key))
    ensures KeyInv(Apply(w, LapseKey(key)))
  {
    var w' := Apply(w, LapseKey(key));
    LapseOwned(w.keys, w.lapsed, w.issued, w.requests, key);
    forall a | 0 <= a < |w.dispatched|
      ensures "" !in w.dispatched[a].ids
    {
      NoEmptyIds(w, a);
    }
    SameRecords(w.keys, w'.keys, w.lapsed, w'.lapsed, w.dispatched, w.requests);
  }

  lemma StepKeepsKeys(w: World, step: Step)
    requires Inv(w) && KeyInv(w) && Enabled(w, step)
    requires step.Arrive? && step.key.Some? ==> !Collides(step.key.value)
    ensures KeyInv(Apply(w, step))
  {
    match step
    case Arrive(q, key, body, job) => ArriveKeepsKeys(w, q, key, body, job);
    case Run(q, ok) => RunKeepsKeys(w, q, ok);
    case LapseKey(key) => LapseKeepsKeys(w, key);
    case _ =>
  }

  /** No header that arrives is a record's. */
  ghost predicate CleanKeys(admitted: iset<string>) {
    forall k :: k in admitted ==> !Collides(k)
  }

  lemma {:induction false} RunsKeepKeys(admitted: iset<string>, w: World, steps: seq<Step>)
    requires Inv(w) && KeyInv(w) && Legal(w, steps) && KeysFrom(admitted, steps) && CleanKeys(admitted)
    ensures KeyInv(Exec(w, steps))
    decreases |steps|
  {
    if steps != [] {
      StepKeepsInv(w, steps[0]);
      StepKeepsKeys(w, steps[0]);
      RunsKeepKeys(admitted, Apply(w, steps[0]), steps[1..]);
    }
  }

  lemma KeyInvHolds(admitted: iset<string>, w: World)
    requires ReachableOn(admitted, w) && CleanKeys(admitted)
    ensures Inv(w) && KeyInv(w)
  {
    var steps :| Legal(Empty, steps) && KeysFrom(admitted, steps) && Exec(Empty, steps) == w;
    RunsKeepKeys(admitted, Empty, steps);
    InvHolds(w);
  }
}
