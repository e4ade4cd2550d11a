/** A threatened job can be taken out of `completed`, however careful all redrives are from now on: the exact condition
    under which completion is final, as a state and as what a redrive may fetch. */
module DeliveryUndone {
  import opened Wrappers
  import opened Delivery
  import opened DeliveryInvariant
  import opened DeliveryThreat

  /** This step takes job j out of `completed`. */
  ghost predicate Undoes(w: World, step: Step, j: JobId) {
    && Enabled(w, step) && CarefulStep(w, step)
    && j in w.jobs && w.jobs[j] == Completed && j in Apply(w, step).jobs && Apply(w, step).jobs[j] != Completed
  }

  /** From here some run in which redrives are careful takes job j out of `completed`. */
  ghost predicate CanBeUndone(w: World, j: JobId) {
    exists steps, step :: Legal(w, steps) && Careful(w, steps) && Undoes(Exec(w, steps), step, j)
  }

  lemma UndoneNow(w: World, step: Step, j: JobId)
    requires Undoes(w, step, j)
    ensures CanBeUndone(w, j)
  {
    assert Legal(w, []) && Careful(w, []) && Exec(w, []) == w;
  }

  lemma UndoneAfter(w: World, step: Step, j: JobId)
    requires Enabled(w, step) && CarefulStep(w, step) && CanBeUndone(Apply(w, step), j)
    ensures CanBeUndone(w, j)
  {
    var w' := Apply(w, step);
    var steps, last :| Legal(w', steps) && Careful(w', steps) && Undoes(Exec(w', steps), last, j);
    var all := [step] + steps;
    assert all[1..] == steps && all[0] == step;
    assert Legal(w, all) && Careful(w, all) && Exec(w, all) == Exec(w', steps);
  }

  /** One careful step further. */
  lemma Ahead(w: World, step: Step, j: JobId) returns (w': World)
    requires Inv(w) && Enabled(w, step) && CarefulStep(w, step)
    ensures w' == Apply(w, step) && Inv(w') && (CanBeUndone(w', j) ==> CanBeUndone(w, j))
  {
    w' := Apply(w, step);
    assert Inv(w') by { StepKeepsInv(w, step); }
    if CanBeUndone(w', j) {
      UndoneAfter(w, step, j);
    }
  }

  lemma Move(w: World, m: MsgId, act: Act, j: JobId) returns (w': World)
    requires Inv(w) && Enabled(w, Handle(m, act))
    ensures Inv(w') && (CanBeUndone(w', j) ==> CanBeUndone(w, j))
    ensures w'.msgs == w.msgs[m := NextMessage(w.jobs, w.msgs[m], act)]
    ensures w'.jobs == NextJobs(w.jobs, w.msgs[m].place.pc, w.msgs[m].deliveries, act)
    ensures w'.dlq == NextDlq(w.dlq, w.msgs[m].place.pc, act, w.nextSeq)
    ensures w'.republished == w.republished && w'.redrives == w.redrives && w'.nextMsg == w.nextMsg
  {
    w' := Ahead(w, Handle(m, act), j);
  }

  // ------------------------------------------------------------ Driving handlers

  predicate At(msgs: map<MsgId, Message>, m: MsgId, j: JobId) {
    m in msgs && LiveMessage(msgs[m], j)
  }

  predicate HotAt(msgs: map<MsgId, Message>, m: MsgId, j: JobId) {
    At(msgs, m, j) && Hot(msgs, OfMessage(m))
  }

  predicate Waits(jobs: map<JobId, Status>, j: JobId) {
    j in jobs && (jobs[j] == Queued || jobs[j] == Failed)
  }

  /** How many statements a hot handler is from writing the status. */
  function Writes(pc: Pc): nat {
    match pc
    case Recording(_, _, _) => 2
    case Inserting(_, _, _) => 1
    case _ => 0
  }

  lemma UndoneByHandler(w: World, m: MsgId, act: Act, j: JobId)
    requires Enabled(w, Handle(m, act)) && j in w.jobs && w.jobs[j] == Completed
    requires var msg := w.msgs[m]; NextJobs(w.jobs, msg.place.pc, msg.deliveries, act)[j] != Completed
    ensures CanBeUndone(w, j)
  {
    UndoneNow(w, Handle(m, act), j);
  }

  /** A handler between writing rows gets to a status update without touching the status. */
  lemma HotGoesOn(jobs: map<JobId, Status>, msg: Message, act: Act, j: JobId)
    requires LiveMessage(msg, j) && msg.place.InFlight? && PcOk(msg.payload, msg.place.pc)
    requires (msg.place.pc.Recording? && act == Go) || (msg.place.pc.Inserting? && act == Refused)
    ensures NextJobs(jobs, msg.place.pc, msg.deliveries, act) == jobs
    ensures var msg' := NextMessage(jobs, msg, act);
            LiveMessage(msg', j) && msg'.place.InFlight? && HotPc(msg'.place.pc)
            && Writes(msg'.place.pc) < Writes(msg.place.pc)
  {
  }

  /** A handler past the status check undoes a completion. */
  lemma {:induction false} HotUndoes(w: World, m: MsgId, j: JobId)
    requires Inv(w) && HotAt(w.msgs, m, j) && j in w.jobs && w.jobs[j] == Completed
    ensures CanBeUndone(w, j)
    decreases Writes(w.msgs[m].place.pc)
  {
    var msg := w.msgs[m];
    assert MessageOk(msg);
    if msg.place.pc.Recording? || msg.place.pc.Inserting? {
      var act := if msg.place.pc.Recording? then Go else Refused;
      HotGoesOn(w.jobs, msg, act, j);
      var w' := Move(w, m, act, j);
      HotUndoes(w', m, j);
    } else {
      UndoneByHandler(w, m, if msg.place.pc.Working? then Progress else Go, j);
    }
  }

  lemma Delivers(w: World, m: MsgId, j: JobId) returns (w': World)
    requires Inv(w) && m in w.msgs && w.msgs[m].place.Pending?
    ensures Inv(w') && (CanBeUndone(w', j) ==> CanBeUndone(w, j)) && w'.jobs == w.jobs
    ensures w'.msgs == w.msgs[m := w.msgs[m].(deliveries := w.msgs[m].deliveries + 1, place := InFlight(Received))]
  {
    assert MessageOk(w.msgs[m]);
    w' := Ahead(w, Deliver(m), j);
  }

  lemma Fresh(used: set<nat>) returns (r: nat)
    ensures r !in used
  {
    r := 0;
    var below := {};
    while r in used
      invariant below <= used && |below| == r && forall k :: k in below <==> k < r && k in used
      invariant forall k :: 0 <= k < r ==> k in below
      decreases used - below
    {
      below := below + {r};
      r := r + 1;
    }
  }

  /** A redrive request of one entry that nobody has fetched. */
  lemma Fetches(w: World, s: Seq, j: JobId) returns (w': World, r: nat)
    requires Inv(w) && Has(w, OfEntry(s), j)
    ensures Inv(w') && (CanBeUndone(w', j) ==> CanBeUndone(w, j))
    ensures r !in w.redrives && w' == w.(redrives := w.redrives[r := Redrive([(s, w.dlq[s])], 0, false)])
  {
    r := Fresh(w.redrives.Keys);
    w' := Ahead(w, StartRedrive(r, [(s, w.dlq[s])]), j);
  }

  lemma Republishes(w: World, r: nat, j: JobId) returns (w': World)
    requires Inv(w) && Enabled(w, Republish(r, true))
    ensures Inv(w') && (CanBeUndone(w', j) ==> CanBeUndone(w, j)) && w'.jobs == w.jobs && w'.dlq == w.dlq
    ensures var v := w.redrives[r];
            && w'.msgs == w.msgs[w.nextMsg := Message(Payload(Some(v.batch[v.i].1.job), true), 0, Pending, [])]
            && w'.republished == w.republished + {v.batch[v.i].0}
            && w'.redrives == w.redrives[r := v.(published := true)]
    ensures w.nextMsg !in w.msgs
  {
    w' := Ahead(w, Republish(r, true), j);
  }

  lemma NotHeldYet(w: World, s: Seq)
    requires Inv(w) && w.nextSeq <= s
    ensures !Held(w.redrives, s) && s !in w.republished
  {
    forall r | r in w.redrives
      ensures !Holds(w.redrives[r], s)
    {
      assert BatchOk(w.dlq, w.nextSeq, w.dispatched, w.redrives[r]);
    }
  }

  lemma DeadLetters(w: World, m: MsgId, j: JobId) returns (w': World)
    requires Inv(w) && At(w.msgs, m, j) && w.msgs[m].place == InFlight(DeadLettering(j))
    ensures Inv(w') && (CanBeUndone(w', j) ==> CanBeUndone(w, j)) && w'.jobs == w.jobs && w'.nextMsg == w.nextMsg
    ensures w.nextMsg !in w'.msgs && Has(w', OfEntry(w.nextSeq), j)
    ensures forall n :: n in w.msgs && n != m ==> n in w'.msgs && w'.msgs[n] == w.msgs[n]
  {
    NotHeldYet(w, w.nextSeq);
    w' := Move(w, m, Go, j);
  }

  /** A redrive brings an entry back as a new message. */
  lemma Requeues(w: World, s: Seq, j: JobId) returns (w': World)
    requires Inv(w) && Has(w, OfEntry(s), j)
    ensures Inv(w') && (CanBeUndone(w', j) ==> CanBeUndone(w, j)) && w'.jobs == w.jobs && w.nextMsg !in w.msgs
    ensures w'.msgs == w.msgs[w.nextMsg := Message(Payload(Some(j), true), 0, Pending, [])]
  {
    var r;
    w', r := Fetches(w, s, j);
    w' := Republishes(w', r, j);
  }

  /** A dead letter that is published and redriven comes back as a new message. */
  lemma Returns(w: World, m: MsgId, j: JobId) returns (w': World)
    requires Inv(w) && At(w.msgs, m, j) && w.msgs[m].place == InFlight(DeadLettering(j))
    ensures Inv(w') && (CanBeUndone(w', j) ==> CanBeUndone(w, j)) && w'.jobs == w.jobs
    ensures At(w'.msgs, w.nextMsg, j) && w'.msgs[w.nextMsg].place == Pending && w.nextMsg !in w.msgs
    ensures forall n :: n in w.msgs && n != m ==> n in w'.msgs && w'.msgs[n] == w.msgs[n]
  {
    w' := DeadLetters(w, m, j);
    w' := Requeues(w', w.nextSeq, j);
  }

  /** How many statements a handler is from completing its job, if all goes well from here. */
  function Left(place: Place): nat
  {
    match place
    case Pending => 10
    case Settled => 0
    case InFlight(pc) =>
      match pc
      case Failing(_, _) => 12
      case Naking(_) => 11
      case DeadLettering(_) => 11
      case Received => 9
      case Guarding(_) => 8
      case Starting(_) => 7
      case Working(_) => 6
      case Recording(_, _, _) => 5
      case Inserting(_, _, _) => 4
      case _ => 3
  }

  /** The statement a live message goes through next on its way to completion. */
  function Onward(pc: Pc): Act {
    if pc.Working? then Converted("out") else Go
  }

  /** A statement on the way to completion: of a waiting job, or by a handler past the status check. */
  predicate Gets(jobs: map<JobId, Status>, msg: Message, j: JobId) {
    Waits(jobs, j) || (msg.place.InFlight? && (HotPc(msg.place.pc) || msg.place.pc.Completing?))
  }

  lemma HandlerGetsOn(jobs: map<JobId, Status>, msg: Message, j: JobId)
    requires MessageOk(msg) && LiveMessage(msg, j) && msg.place.InFlight? && j in jobs && Gets(jobs, msg, j)
    requires !msg.place.pc.DeadLettering?
    ensures var act := Onward(msg.place.pc);
            var jobs', msg' := NextJobs(jobs, msg.place.pc, msg.deliveries, act), NextMessage(jobs, msg, act);
            && j in jobs'
            && (msg.place.pc.Completing? ==> jobs'[j] == Completed)
            && (!msg.place.pc.Completing? ==>
                  LiveMessage(msg', j) && Gets(jobs', msg', j) && Left(msg'.place) < Left(msg.place))
            && (!msg.place.pc.Completing? && !HotPc(msg.place.pc) ==>
                  jobs' == jobs && !(msg'.place.InFlight? && msg'.place.pc.Completing?))
  {
  }

  /** What one statement, or a redrive, on that way leads to; n' is where the message is now. */
  lemma GetsOn(w: World, n: MsgId, j: JobId) returns (w': World, n': MsgId)
    requires Inv(w) && At(w.msgs, n, j) && j in w.jobs && Gets(w.jobs, w.msgs[n], j)
    ensures Inv(w') && (CanBeUndone(w', j) ==> CanBeUndone(w, j))
    ensures forall m :: m in w.msgs && m != n ==> m in w'.msgs && w'.msgs[m] == w.msgs[m] && m != n'
    ensures j in w'.jobs && (Finishing(w.msgs, OfMessage(n)) ==> w'.jobs[j] == Completed)
    ensures !Finishing(w.msgs, OfMessage(n)) ==>
              At(w'.msgs, n', j) && Gets(w'.jobs, w'.msgs[n'], j) && Left(w'.msgs[n'].place) < Left(w.msgs[n].place)
    ensures !Finishing(w.msgs, OfMessage(n)) && !Hot(w.msgs, OfMessage(n)) ==>
              w'.jobs == w.jobs && !Finishing(w'.msgs, OfMessage(n'))
  {
    n' := n;
    if w.msgs[n].place == Pending {
      w' := Delivers(w, n, j);
    } else if w.msgs[n].place == InFlight(DeadLettering(j)) {
      w' := Returns(w, n, j);
      n' := w.nextMsg;
    } else {
      assert MessageOk(w.msgs[n]);
      HandlerGetsOn(w.jobs, w.msgs[n], j);
      w' := Move(w, n, Onward(w.msgs[n].place.pc), j);
    }
  }

  /** Any live message of a waiting job gets through to completion, and so does any handler past the status check. */
  lemma {:induction false} OtherCompletes(w: World, m: MsgId, n: MsgId, j: JobId)
    requires Inv(w) && HotAt(w.msgs, m, j) && At(w.msgs, n, j) && m != n && j in w.jobs && Gets(w.jobs, w.msgs[n], j)
    ensures CanBeUndone(w, j)
    decreases Left(w.msgs[n].place)
  {
    var w', n' := GetsOn(w, n, j);
    if Finishing(w.msgs, OfMessage(n)) {
      HotUndoes(w', m, j);
    } else {
      OtherCompletes(w', m, n', j);
    }
  }

  /** Two live messages of a waiting job: one passes the status check and waits while the other completes. */
  lemma {:induction false} BothHandled(w: World, m: MsgId, n: MsgId, j: JobId)
    requires Inv(w) && At(w.msgs, m, j) && At(w.msgs, n, j) && m != n && Waits(w.jobs, j)
    requires !Finishing(w.msgs, OfMessage(m))
    ensures CanBeUndone(w, j)
    decreases Left(w.msgs[m].place)
  {
    if Hot(w.msgs, OfMessage(m)) {
      OtherCompletes(w, m, n, j);
    } else {
      var w', m' := GetsOn(w, m, j);
      BothHandled(w', m', n, j);
    }
  }

  // ------------------------------------------------------------ From any chance to a message

  /** How many redrive steps a chance is from being a message. */
  function Steps(redrives: map<nat, Redrive>, c: Chance): nat {
    match c
    case OfMessage(_) => 0
    case OfCopy(r, k) =>
      if r in redrives && Copy(redrives[r], k)
      then 2 * (k - redrives[r].i) + if redrives[r].published then 0 else 1 else 0
    case OfEntry(_) => 2
  }

  lemma UnheldByOthers(redrives: map<nat, Redrive>, r: nat, v: Redrive, s: Seq)
    requires !Held(redrives, s) && !Holds(v, s)
    ensures !Held(redrives[r := v], s)
  {
    var redrives' := redrives[r := v];
    forall q | q in redrives'
      ensures !Holds(redrives'[q], s)
    {
      if q != r {
        assert !Holds(redrives[q], s);
      }
    }
  }

  lemma UnheldAfter(redrives: map<nat, Redrive>, r: nat, s: Seq)
    requires r in redrives && !Held(redrives, s)
    ensures !Held(redrives[r := redrives[r].(published := true)], s) && !Held(Advance(redrives, r), s)
  {
    var v := redrives[r];
    assert forall k :: v.i <= k < |v.batch| ==> v.batch[k].0 != s by {
      assert !Holds(v, s);
    }
    UnheldByOthers(redrives, r, v.(published := true), s);
    UnheldByOthers(redrives, r, Redrive(v.batch, v.i + 1, false), s);
    var others := redrives - {r};
    forall q | q in others
      ensures !Holds(others[q], s)
    {
      assert !Holds(redrives[q], s);
    }
  }

  /** One careful redrive step brings chance c nearer to the queue and leaves chance d one. */
  ghost predicate Nearer(w: World, c: Chance, d: Chance, w': World, c': Chance, d': Chance, j: JobId) {
    && Inv(w') && (CanBeUndone(w', j) ==> CanBeUndone(w, j)) && w'.jobs == w.jobs
    && (forall m :: m in w.msgs ==> m in w'.msgs && w'.msgs[m] == w.msgs[m])
    && Has(w', c', j) && Has(w', d', j) && c' != d' && Steps(w'.redrives, c') < Steps(w.redrives, c)
    && (c'.OfMessage? ==> w'.msgs[c'.m].place == Pending)
    && (d.OfMessage? ==> d' == d)
  }

  /** An entry fetched by itself becomes a copy, and other chances stay. */
  lemma EntryMoves(w: World, r: nat, s: Seq, d: Chance, j: JobId)
    requires r !in w.redrives && Has(w, OfEntry(s), j) && Has(w, d, j) && d != OfEntry(s)
    ensures var w' := w.(redrives := w.redrives[r := Redrive([(s, w.dlq[s])], 0, false)]);
            Has(w', OfCopy(r, 0), j) && Has(w', d, j) && d != OfCopy(r, 0) && Steps(w'.redrives, OfCopy(r, 0)) == 1
  {
    if d.OfEntry? {
      UnheldByOthers(w.redrives, r, Redrive([(s, w.dlq[s])], 0, false), d.s);
    }
  }

  lemma EntryComesNearer(w: World, s: Seq, d: Chance, j: JobId) returns (w': World, c': Chance)
    requires Inv(w) && Has(w, OfEntry(s), j) && Has(w, d, j) && d != OfEntry(s)
    ensures Nearer(w, OfEntry(s), d, w', c', d, j)
  {
    var r;
    w', r := Fetches(w, s, j);
    c' := OfCopy(r, 0);
    EntryMoves(w, r, s, d, j);
  }

  /** A redrive that has republished its entry moves on to the next. */
  lemma CopyMovesOn(w: World, r: nat, k: nat, d: Chance, j: JobId)
    requires Has(w, OfCopy(r, k), j) && Has(w, d, j) && d != OfCopy(r, k) && w.redrives[r].published
    ensures var w' := w.(redrives := Advance(w.redrives, r));
            && Has(w', OfCopy(r, k), j) && Has(w', d, j)
            && Steps(w'.redrives, OfCopy(r, k)) < Steps(w.redrives, OfCopy(r, k))
  {
    if d.OfEntry? {
      UnheldAfter(w.redrives, r, d.s);
    }
  }

  lemma PublishedComesNearer(w: World, r: nat, k: nat, d: Chance, j: JobId) returns (w': World)
    requires Inv(w) && Has(w, OfCopy(r, k), j) && Has(w, d, j) && d != OfCopy(r, k) && w.redrives[r].published
    ensures Nearer(w, OfCopy(r, k), d, w', OfCopy(r, k), d, j)
  {
    CopyMovesOn(w, r, k, d, j);
    w' := Ahead(w, DeleteEntry(r, false), j);
  }

  function Republished(w: World, r: nat, c: Chance): Chance {
    if r in w.redrives && c == OfCopy(r, w.redrives[r].i) then OfMessage(w.nextMsg) else c
  }

  /** A redrive republishes its current entry, whichever it is: a chance of that copy becomes one of the message. */
  lemma CopyRepublished(w: World, w': World, r: nat, c: Chance, j: JobId)
    requires Has(w, c, j) && r in w.redrives && Copy(w.redrives[r], w.redrives[r].i) && w.nextMsg !in w.msgs
    requires w'.dlq == w.dlq && w'.republished == w.republished + {w.redrives[r].batch[w.redrives[r].i].0}
    requires w'.redrives == w.redrives[r := w.redrives[r].(published := true)]
    requires w'.msgs == w.msgs[w.nextMsg := Message(
               Payload(Some(w.redrives[r].batch[w.redrives[r].i].1.job), true), 0, Pending, [])]
    ensures Has(w', Republished(w, r, c), j)
    ensures c.OfCopy? && c.r == r ==> Steps(w'.redrives, Republished(w, r, c)) < Steps(w.redrives, c)
  {
    if c.OfEntry? {
      UnheldAfter(w.redrives, r, c.s);
      assert Holds(w.redrives[r], w.redrives[r].batch[w.redrives[r].i].0);
    }
  }

  lemma CopyComesNearer(w: World, r: nat, k: nat, d: Chance, j: JobId) returns (w': World, c': Chance, d': Chance)
    requires Inv(w) && Has(w, OfCopy(r, k), j) && Has(w, d, j) && d != OfCopy(r, k) && !w.redrives[r].published
    ensures Nearer(w, OfCopy(r, k), d, w', c', d', j)
  {
    w' := Republishes(w, r, j);
    c', d' := Republished(w, r, OfCopy(r, k)), Republished(w, r, d);
    CopyRepublished(w, w', r, OfCopy(r, k), j);
    CopyRepublished(w, w', r, d, j);
  }

  lemma ComesNearer(w: World, c: Chance, d: Chance, j: JobId) returns (w': World, c': Chance, d': Chance)
    requires Inv(w) && Has(w, c, j) && Has(w, d, j) && c != d && !c.OfMessage?
    ensures Nearer(w, c, d, w', c', d', j)
  {
    c', d' := c, d;
    match c
    case OfEntry(s) => w', c' := EntryComesNearer(w, s, d, j);
    case OfCopy(r, k) =>
      if w.redrives[r].published {
        w' := PublishedComesNearer(w, r, k, d, j);
      } else {
        w', c', d' := CopyComesNearer(w, r, k, d, j);
      }
  }

  /** Two chances of a waiting job, one of them not about to complete it. */
  lemma {:induction false} BothArrive(w: World, c: Chance, d: Chance, j: JobId)
    requires Inv(w) && Has(w, c, j) && Has(w, d, j) && c != d && Waits(w.jobs, j) && !Finishing(w.msgs, c)
    ensures CanBeUndone(w, j)
    decreases !c.OfMessage?, Steps(w.redrives, c), !d.OfMessage?, Steps(w.redrives, d)
  {
    if !c.OfMessage? {
      var w', c', d' := ComesNearer(w, c, d, j);
      BothArrive(w', c', d', j);
    } else if !d.OfMessage? {
      var w', d', c' := ComesNearer(w, d, c, j);
      BothArrive(w', c, d', j);
    } else {
      BothHandled(w, c.m, d.m, j);
    }
  }

  // ------------------------------------------------------------ Exactly the threatened jobs

  function Faults(place: Place): nat {
    match place
    case InFlight(pc) =>
      (match pc
       case Starting(_) => 5
       case Recording(_, _, _) => 4
       case Inserting(_, _, _) => 3
       case Working(_) => 2
       case _ => 1)
    case _ => 0
  }

  function Downward(pc: Pc): Act {
    if pc.Working? then Fault(true) else if pc.Inserting? then Refused else Go
  }

  lemma HandlerFaults(jobs: map<JobId, Status>, msg: Message, j: JobId)
    requires MessageOk(msg) && LiveMessage(msg, j) && msg.place.InFlight? && HotPc(msg.place.pc) && j in jobs
    ensures var act := Downward(msg.place.pc);
            var jobs', msg' := NextJobs(jobs, msg.place.pc, msg.deliveries, act), NextMessage(jobs, msg, act);
            && LiveMessage(msg', j) && msg'.place.InFlight? && !msg'.place.pc.Completing? && j in jobs'
            && (msg.place.pc.Failing? ==> Waits(jobs', j))
            && (!msg.place.pc.Failing? ==> HotPc(msg'.place.pc) && Faults(msg'.place) < Faults(msg.place))
  {
  }

  /** A handler past the status check may fail, and its job waits again beside its second chance. */
  lemma {:induction false} HotFails(w: World, m: MsgId, d: Chance, j: JobId)
    requires Inv(w) && HotAt(w.msgs, m, j) && Has(w, d, j) && d != OfMessage(m) && j in w.jobs
    ensures CanBeUndone(w, j)
    decreases Faults(w.msgs[m].place)
  {
    assert MessageOk(w.msgs[m]);
    HandlerFaults(w.jobs, w.msgs[m], j);
    var w' := Move(w, m, Downward(w.msgs[m].place.pc), j);
    if w.msgs[m].place.pc.Failing? {
      BothArrive(w', OfMessage(m), d, j);
    } else {
      HotFails(w', m, d, j);
    }
  }

  lemma ThreatenedIsUndone(w: World, j: JobId)
    requires Inv(w) && Threatened(w, j)
    ensures CanBeUndone(w, j)
  {
    match w.jobs[j]
    case Completed =>
      var c :| Has(w, c, j) && Hot(w.msgs, c);
      HotUndoes(w, c.m, j);
    case Processing =>
      var c, d :| Has(w, c, j) && Has(w, d, j) && c != d && Hot(w.msgs, c);
      HotFails(w, c.m, d, j);
    case _ =>
      var c, d :| Has(w, c, j) && Has(w, d, j) && c != d && !Finishing(w.msgs, c);
      BothArrive(w, c, d, j);
  }

  lemma {:induction false} CalmRuns(w: World, steps: seq<Step>, j: JobId)
    requires Inv(w) && Legal(w, steps) && Careful(w, steps) && !Threatened(w, j)
    ensures Inv(Exec(w, steps)) && !Threatened(Exec(w, steps), j)
    decreases |steps|
  {
    if steps != [] {
      StepKeepsInv(w, steps[0]);
      CarefulStepIsCalm(w, steps[0], j);
      CalmRuns(Apply(w, steps[0]), steps[1..], j);
    }
  }

  /** Whatever has happened before: with careful redrives from now on, job j can be taken out of `completed` exactly if
      it is threatened now. */
  lemma UndoneIffThreatened(w: World, j: JobId)
    requires Reachable(w)
    ensures CanBeUndone(w, j) <==> Threatened(w, j)
  {
    InvHolds(w);
    if Threatened(w, j) {
      ThreatenedIsUndone(w, j);
    } else if CanBeUndone(w, j) {
      var steps, step :| Legal(w, steps) && Careful(w, steps) && Undoes(Exec(w, steps), step, j);
      CalmRuns(w, steps, j);
      CompletedUnlessThreatened(Exec(w, steps), step, j);
    }
  }

  /** So careful redrives never threaten a job: completion is final. */
  lemma CarefulRunsThreatenNobody(w: World, j: JobId)
    requires CarefullyReachable(w)
    ensures !Threatened(w, j) && !CanBeUndone(w, j)
  {
    var steps :| Legal(Empty, steps) && Careful(Empty, steps) && Exec(Empty, steps) == w;
    CalmRuns(Empty, steps, j);
    UndoneIffThreatened(w, j);
  }
}
