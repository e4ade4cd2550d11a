/** Runs in which replays go wrong.  In most an Idempotency-Key is the record key of an upload: request 0 or a later one
    submits upload id, and another request arrives with the header "upload:" + id.  In the last a key lapses. */
module SubmissionCollisions {
  import opened Wrappers
  import opened Submission

  lemma Start(admitted: iset<string>)
    ensures ReachableOn(admitted, Empty)
  {
    assert Legal(Empty, []) && KeysFrom(admitted, []) && Exec(Empty, []) == Empty;
  }

  lemma Then(admitted: iset<string>, w: World, step: Step) returns (w': World)
    requires ReachableOn(admitted, w) && Enabled(w, step)
    requires step.Arrive? && step.key.Some? ==> step.key.value in admitted
    ensures ReachableOn(admitted, w') && w' == Apply(w, step)
  {
    var steps :| Legal(Empty, steps) && KeysFrom(admitted, steps) && Exec(Empty, steps) == w;
    RunSnoc(Empty, steps, step);
    assert KeysFrom(admitted, steps + [step]);
    w' := Apply(w, step);
  }

  /** Request q, which is r, makes one call. */
  lemma Call(admitted: iset<string>, w: World, q: RequestId, r: Request, ok: bool) returns (w': World)
    requires ReachableOn(admitted, w) && q in w.requests && w.requests[q] == r && !r.pc.Done?
    ensures ReachableOn(admitted, w')
    ensures w'.requests == w.requests[q := NextRequest(w, r, ok)] && w'.keys == NextKeys(w.keys, r)
    ensures w'.claims == NextClaims(w.claims, q, r, ok) && w'.sessions == NextSessions(w.sessions, r)
    ensures w'.jobs == NextJobs(w.jobs, q, r, ok) && w'.dispatched == NextDispatched(w.dispatched, q, r, ok)
    ensures w'.lapsed == w.lapsed && w'.issued == w.issued && w'.origin == w.origin
  {
    w' := Then(admitted, w, Run(q, ok));
  }

  // ------------------------------------------------------------ Request 0 submits upload id

  predicate IsCommitted(pc: Pc) {
    pc.Publishing? || pc.Recording? || pc.Clearing? || pc.ReleasingClaims? || pc.ReleasingKey? || pc.Done?
  }

  /** Request 0, keyless and for upload id, at this call. */
  function Submitter(id: UploadId, pc: Pc): Request {
    Request(None, Json([id]), 0, false, IsCommitted(pc), pc)
  }

  /** The calls up to the dispatch, when all goes well. */
  function Onward(pc: Pc): Pc {
    match pc
    case Arrived => Checking
    case Checking => Finding(0, None, false)
    case Finding(_, _, _) => Validating
    case Validating => Claiming(0)
    case Claiming(i) => if i == 0 then Claiming(1) else Consuming(0, [])
    case Consuming(i, _) => if i == 0 then Consuming(1, ["o"]) else Committing(["o"])
    case Committing(_) => Publishing(["o"])
    case _ => Recording(0)
  }

  predicate OnTheWay(pc: Pc) {
    pc in {Arrived, Checking, Finding(0, None, false), Validating, Claiming(0), Claiming(1), Consuming(0, []),
           Consuming(1, ["o"]), Committing(["o"]), Publishing(["o"])}
  }

  predicate BeforeClaim(pc: Pc) {
    pc in {Arrived, Checking, Finding(0, None, false), Validating, Claiming(0)}
  }

  /** The state when nothing has happened but request 0's calls. */
  predicate Shape(w: World, id: UploadId, pc: Pc) {
    && w.requests == map[0 := Submitter(id, pc)] && w.keys == map[]
    && w.sessions == map[id := Session("f", "o")] && w.lapsed == {} && w.issued == {0}
    && w.claims == (if BeforeClaim(pc) then map[] else map[id := 0])
    && w.jobs == (if IsCommitted(pc) then map[0 := JobRow(0, ["o"])] else map[])
    && w.dispatched == (if pc.Recording? then [Event(0, 0, [id], ["o"])] else [])
  }

  ghost predicate Alone(admitted: iset<string>, w: World, id: UploadId, pc: Pc) {
    ReachableOn(admitted, w) && Shape(w, id, pc)
  }

  lemma EarlyCall(w: World, id: UploadId, pc: Pc)
    requires id != "" && Shape(w, id, pc) && BeforeClaim(pc)
    ensures Shape(RunRequest(w, 0, true), id, Onward(pc))
  {
  }

  lemma ClaimedCall(w: World, id: UploadId, pc: Pc)
    requires id != "" && Shape(w, id, pc) && pc in {Claiming(1), Consuming(0, []), Consuming(1, ["o"])}
    ensures Shape(RunRequest(w, 0, true), id, Onward(pc))
  {
    assert [] + ["o"] == ["o"];
  }

  lemma CommitCall(w: World, id: UploadId, pc: Pc)
    requires id != "" && Shape(w, id, pc) && pc in {Committing(["o"]), Publishing(["o"])}
    ensures Shape(RunRequest(w, 0, true), id, Onward(pc))
  {
  }

  lemma OnwardCall(w: World, id: UploadId, pc: Pc)
    requires id != "" && Shape(w, id, pc) && OnTheWay(pc)
    ensures Shape(RunRequest(w, 0, true), id, Onward(pc)) && (OnTheWay(Onward(pc)) || Onward(pc) == Recording(0))
  {
    if BeforeClaim(pc) {
      EarlyCall(w, id, pc);
    } else if pc.Claiming? || pc.Consuming? {
      ClaimedCall(w, id, pc);
    } else {
      CommitCall(w, id, pc);
    }
  }

  /** How many calls are left before the record. */
  function Left(pc: Pc): nat {
    match pc
    case Arrived => 10
    case Checking => 9
    case Finding(_, _, _) => 8
    case Validating => 7
    case Claiming(i) => if i == 0 then 6 else 5
    case Consuming(i, _) => if i == 0 then 4 else 3
    case Committing(_) => 2
    case Publishing(_) => 1
    case _ => 0
  }

  lemma {:induction false} RunOn(admitted: iset<string>, w: World, id: UploadId, pc: Pc) returns (w': World)
    requires id != "" && Alone(admitted, w, id, pc) && (OnTheWay(pc) || pc == Recording(0))
    ensures Alone(admitted, w', id, Recording(0))
    decreases Left(pc)
  {
    w' := w;
    if OnTheWay(pc) {
      OnwardCall(w, id, pc);
      w' := Then(admitted, w, Run(0, true));
      w' := RunOn(admitted, w', id, Onward(pc));
    }
  }

  lemma Submitted(admitted: iset<string>, id: UploadId) returns (w: World)
    requires id != ""
    ensures Alone(admitted, w, id, Arrived)
  {
    Start(admitted);
    w := Then(admitted, Empty, InitUpload(id, Session("f", "o")));
    w := Then(admitted, w, Arrive(0, None, Json([id]), 0));
  }

  /** Its job is dispatched, and it is about to record the upload. */
  lemma BeforeRecord(admitted: iset<string>, id: UploadId) returns (w: World)
    requires id != ""
    ensures Alone(admitted, w, id, Recording(0))
  {
    w := Submitted(admitted, id);
    w := RunOn(admitted, w, id, Arrived);
  }

  // ------------------------------------------------------------ Request 1 arrives with the record's key

  /** Request q, multipart, under this key, at this call. */
  function Keyed(key: string, q: RequestId, pc: Pc): Request {
    Request(Some(key), Multipart(["x"]), q, !pc.Arrived?, pc.Publishing?, pc)
  }

  /** Two requests and what the keys hold; request 0's job is dispatched. */
  ghost predicate Two(admitted: iset<string>, w: World, id: UploadId, pc0: Pc, pc1: Pc, keys: map<string, JobId>) {
    && ReachableOn(admitted, w) && w.requests == map[0 := Submitter(id, pc0), 1 := Keyed(RecordKey(id), 1, pc1)]
    && w.keys == keys && w.lapsed == {} && w.issued == {0, 1} && 0 in w.jobs
    && w.dispatched == [Event(0, 0, [id], ["o"])]
  }

  lemma KeyReserved(admitted: iset<string>, id: UploadId) returns (w: World)
    requires id != "" && RecordKey(id) in admitted
    ensures Two(admitted, w, id, Recording(0), Checking, map[RecordKey(id) := 1])
  {
    w := BeforeRecord(admitted, id);
    w := Then(admitted, w, Arrive(1, Some(RecordKey(id)), Multipart(["x"]), 1));
    w := Call(admitted, w, 1, Keyed(RecordKey(id), 1, Arrived), true);
  }

  /** Request 0 from its record on. */
  function Finishing(pc: Pc): Pc {
    match pc
    case Recording(i) => if i == 0 then Clearing(0) else ReleasingClaims(Created)
    case Clearing(_) => Recording(1)
    case ReleasingClaims(_) => ReleasingKey(Created)
    case _ => Done(Created)
  }

  lemma Finish(admitted: iset<string>, w: World, id: UploadId, pc: Pc, pc1: Pc, keys: map<string, JobId>)
    returns (w': World)
    requires id != "" && Two(admitted, w, id, pc, pc1, keys)
    requires pc in {Recording(0), Clearing(0), Recording(1), ReleasingClaims(Created), ReleasingKey(Created)}
    ensures Two(admitted, w', id, Finishing(pc), pc1,
                if pc == Recording(0) then keys[RecordKey(id) := 0] else keys)
  {
    w' := Call(admitted, w, 0, Submitter(id, pc), true);
  }

  /** Request 0, past its record, finishes. */
  lemma {:induction false} FinishAll(admitted: iset<string>, w: World, id: UploadId, pc: Pc, pc1: Pc,
                                     keys: map<string, JobId>)
    returns (w': World)
    requires id != "" && Two(admitted, w, id, pc, pc1, keys)
    requires pc in {Clearing(0), Recording(1), ReleasingClaims(Created), ReleasingKey(Created), Done(Created)}
    ensures Two(admitted, w', id, Done(Created), pc1, keys)
    decreases if pc.Clearing? then 4 else if pc.Recording? then 3 else if pc.ReleasingClaims? then 2
              else if pc.ReleasingKey? then 1 else 0
  {
    w' := w;
    if !pc.Done? {
      w' := Finish(admitted, w, id, pc, pc1, keys);
      w' := FinishAll(admitted, w', id, Finishing(pc), pc1, keys);
    }
  }

  /** Request 0 overwrites the reservation with its record and finishes. */
  lemma TakenOver(admitted: iset<string>, id: UploadId) returns (w: World)
    requires id != "" && RecordKey(id) in admitted
    ensures Two(admitted, w, id, Done(Created), Checking, map[RecordKey(id) := 0])
  {
    w := KeyReserved(admitted, id);
    var keys := map[RecordKey(id) := 1];
    w := Finish(admitted, w, id, Recording(0), Checking, keys);
    assert keys[RecordKey(id) := 0] == map[RecordKey(id) := 0];
    w := FinishAll(admitted, w, id, Clearing(0), Checking, map[RecordKey(id) := 0]);
  }

  /** Request 1 fails. */
  lemma Refused(admitted: iset<string>, id: UploadId) returns (w: World)
    requires id != "" && RecordKey(id) in admitted
    ensures Two(admitted, w, id, Done(Created), ReleasingKey(Rejected), map[RecordKey(id) := 0])
  {
    w := TakenOver(admitted, id);
    w := Call(admitted, w, 1, Keyed(RecordKey(id), 1, Checking), false);
  }

  /** Its deferred DEL removes the record of the cleared upload. */
  lemma RecordDeleted(admitted: iset<string>, id: UploadId) returns (w: World)
    requires id != "" && RecordKey(id) in admitted
    ensures ReachableOn(admitted, w) && 0 in w.requests && w.requests[0].pc == Done(Created)
    ensures w.keys == map[] && w.lapsed == {} && 0 in w.jobs && w.dispatched == [Event(0, 0, [id], ["o"])]
  {
    w := Refused(admitted, id);
    w := Call(admitted, w, 1, Keyed(RecordKey(id), 1, ReleasingKey(Rejected)), true);
  }

  lemma KeyedAccepted(admitted: iset<string>, id: UploadId) returns (w: World)
    requires id != "" && RecordKey(id) in admitted
    ensures Two(admitted, w, id, Recording(0), Committing(["x"]), map[RecordKey(id) := 1])
  {
    w := KeyReserved(admitted, id);
    w := Call(admitted, w, 1, Keyed(RecordKey(id), 1, Checking), true);
  }

  lemma KeyedCommits(admitted: iset<string>, id: UploadId) returns (w: World)
    requires id != "" && RecordKey(id) in admitted
    ensures Two(admitted, w, id, Recording(0), Publishing(["x"]), map[RecordKey(id) := 1])
  {
    w := KeyedAccepted(admitted, id);
    w := Call(admitted, w, 1, Keyed(RecordKey(id), 1, Committing(["x"])), true);
  }

  /** Request 1 has committed its job, and request 0's record takes over the reservation. */
  lemma Overwritten(admitted: iset<string>, id: UploadId) returns (w: World)
    requires id != "" && RecordKey(id) in admitted
    ensures Two(admitted, w, id, Clearing(0), Publishing(["x"]), map[RecordKey(id) := 0])
  {
    w := KeyedCommits(admitted, id);
    var keys := map[RecordKey(id) := 1];
    w := Finish(admitted, w, id, Recording(0), Publishing(["x"]), keys);
    assert keys[RecordKey(id) := 0] == map[RecordKey(id) := 0];
  }

  // ------------------------------------------------------------ A stranger's job

  /** Request 0, alone, under this key. */
  ghost predicate First(admitted: iset<string>, w: World, key: string, pc: Pc) {
    && ReachableOn(admitted, w) && w.requests == map[0 := Keyed(key, 0, pc)] && w.issued == {0} && w.lapsed == {}
    && w.keys == (if pc.Arrived? then map[] else map[key := 0])
    && (pc.Publishing? ==> 0 in w.jobs)
  }

  /** The calls of a multipart submission up to its commit. */
  function Submitting(pc: Pc): Pc {
    if pc.Arrived? then Checking else if pc.Checking? then Committing(["x"]) else Publishing(["x"])
  }

  lemma FirstMoves(admitted: iset<string>, w: World, key: string, pc: Pc) returns (w': World)
    requires First(admitted, w, key, pc) && pc in {Arrived, Checking, Committing(["x"])}
    ensures First(admitted, w', key, Submitting(pc))
  {
    w' := Call(admitted, w, 0, Keyed(key, 0, pc), true);
  }

  lemma KeyCommitted(admitted: iset<string>, key: string) returns (w: World)
    requires key in admitted
    ensures First(admitted, w, key, Publishing(["x"]))
  {
    Start(admitted);
    w := Then(admitted, Empty, Arrive(0, Some(key), Multipart(["x"]), 0));
    w := FirstMoves(admitted, w, key, Arrived);
    w := FirstMoves(admitted, w, key, Checking);
    w := FirstMoves(admitted, w, key, Committing(["x"]));
  }

  /** Request 1, keyless and for upload id. */
  function Asker(id: UploadId, pc: Pc): Request {
    Request(None, Json([id]), 1, false, false, pc)
  }

  ghost predicate Asked(admitted: iset<string>, w: World, id: UploadId, pc: Pc) {
    && ReachableOn(admitted, w)
    && w.requests == map[0 := Keyed(RecordKey(id), 0, Publishing(["x"])), 1 := Asker(id, pc)]
    && w.keys == map[RecordKey(id) := 0] && 0 in w.jobs
  }

  function Looking(pc: Pc): Pc {
    match pc
    case Arrived => Checking
    case Checking => Finding(0, None, false)
    case Finding(i, _, _) => if i == 0 then Finding(1, Some(0), false) else ReleasingKey(Existing(0))
    case _ => Done(Existing(0))
  }

  lemma AskerMoves(admitted: iset<string>, w: World, id: UploadId, pc: Pc) returns (w': World)
    requires id != "" && Asked(admitted, w, id, pc)
    requires pc in {Arrived, Checking, Finding(0, None, false), Finding(1, Some(0), false), ReleasingKey(Existing(0))}
    ensures Asked(admitted, w', id, Looking(pc))
  {
    w' := Call(admitted, w, 1, Asker(id, pc), true);
  }

  lemma {:induction false} AskOn(admitted: iset<string>, w: World, id: UploadId, pc: Pc) returns (w': World)
    requires id != "" && Asked(admitted, w, id, pc)
    requires pc in {Arrived, Checking, Finding(0, None, false), Finding(1, Some(0), false), ReleasingKey(Existing(0)),
                    Done(Existing(0))}
    ensures Asked(admitted, w', id, Done(Existing(0)))
    decreases if pc.Arrived? then 5 else if pc.Checking? then 4 else if pc.Finding? && pc.i == 0 then 3
              else if pc.Finding? then 2 else if pc.ReleasingKey? then 1 else 0
  {
    w' := w;
    if !pc.Done? {
      w' := AskerMoves(admitted, w, id, pc);
      w' := AskOn(admitted, w', id, Looking(pc));
    }
  }

  /** A keyless request for upload id is answered with the job of a request that never had it. */
  lemma StrangersJob(admitted: iset<string>, id: UploadId) returns (w: World)
    requires id != "" && RecordKey(id) in admitted
    ensures Asked(admitted, w, id, Done(Existing(0)))
  {
    w := KeyCommitted(admitted, RecordKey(id));
    w := Then(admitted, w, Arrive(1, None, Json([id]), 1));
    w := AskOn(admitted, w, id, Arrived);
  }

  // ------------------------------------------------------------ A key lapses

  /** Request 0 has committed under the key, which has lapsed, and request 1 has the same one. */
  ghost predicate Second(admitted: iset<string>, w: World, key: string, pc: Pc) {
    && ReachableOn(admitted, w) && w.requests == map[0 := Keyed(key, 0, Publishing(["x"])), 1 := Keyed(key, 1, pc)]
    && w.lapsed == {key} && w.keys == (if pc.Arrived? then map[] else map[key := 1])
  }

  lemma SecondMoves(admitted: iset<string>, w: World, key: string, pc: Pc) returns (w': World)
    requires Second(admitted, w, key, pc) && pc in {Arrived, Checking, Committing(["x"])}
    ensures Second(admitted, w', key, Submitting(pc))
  {
    w' := Call(admitted, w, 1, Keyed(key, 1, pc), true);
  }

  /** After the ten minutes of a reservation its key can commit again. */
  lemma CommittedAgain(admitted: iset<string>, key: string) returns (w: World)
    requires key in admitted
    ensures Second(admitted, w, key, Publishing(["x"]))
  {
    w := KeyCommitted(admitted, key);
    w := Then(admitted, w, LapseKey(key));
    w := Then(admitted, w, Arrive(1, Some(key), Multipart(["x"]), 1));
    w := SecondMoves(admitted, w, key, Arrived);
    w := SecondMoves(admitted, w, key, Checking);
    w := SecondMoves(admitted, w, key, Committing(["x"]));
  }
}
