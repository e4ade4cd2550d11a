/** A whole redrive, and a whole download, with nothing else in between. */
module DeliveryWhole {
  import opened Wrappers
  import opened Delivery

  /** Republish and delete, for n entries. */
  function RedriveSteps(r: nat, n: nat): seq<Step> {
    if n == 0 then [] else [Republish(r, true), DeleteEntry(r, true)] + RedriveSteps(r, n - 1)
  }

  type Batch = seq<(Seq, Entry)>

  /** The message of a job that waits for its first delivery. */
  function Waiting(j: JobId): Message {
    Message(Payload(Some(j), true), 0, Pending, [])
  }

  /** From the old messages on, one message waits for each entry from number i on, in order. */
  ghost predicate Posted(msgs: map<MsgId, Message>, next: MsgId, msgs': map<MsgId, Message>, next': MsgId, batch: Batch,
                         i: nat)
    requires i <= |batch|
  {
    && next' == next + |batch| - i
    && (forall m :: m in msgs' <==> m in msgs || next <= m < next')
    && (forall m :: m in msgs && m < next ==> msgs'[m] == msgs[m])
    && (forall m :: next <= m < next' ==> m in msgs' && msgs'[m] == Waiting(batch[m - next + i].1.job))
  }

  predicate Has(batch: Batch, i: nat, s: Seq) {
    exists k :: i <= k < |batch| && batch[k].0 == s
  }

  /** The entries from number i on are gone from the stream, and no others. */
  ghost predicate Emptied(dlq: map<Seq, Entry>, dlq': map<Seq, Entry>, batch: Batch, i: nat) {
    forall s :: (s in dlq' <==> s in dlq && !Has(batch, i, s)) && (s in dlq' ==> dlq'[s] == dlq[s])
  }

  lemma PostedMore(msgs: map<MsgId, Message>, next: MsgId, msgs': map<MsgId, Message>, next': MsgId, batch: Batch,
                   i: nat)
    requires i < |batch|
    requires Posted(msgs[next := Waiting(batch[i].1.job)], next + 1, msgs', next', batch, i + 1)
    ensures Posted(msgs, next, msgs', next', batch, i)
  {
  }

  lemma EmptiedMore(dlq: map<Seq, Entry>, dlq': map<Seq, Entry>, batch: Batch, i: nat)
    requires i < |batch| && Emptied(dlq - {batch[i].0}, dlq', batch, i + 1)
    ensures Emptied(dlq, dlq', batch, i)
  {
    forall s
      ensures Has(batch, i, s) <==> batch[i].0 == s || Has(batch, i + 1, s)
    {
      if Has(batch, i, s) {
        var k :| i <= k < |batch| && batch[k].0 == s;
      }
    }
  }

  /** Nothing else has changed. */
  predicate OnlyMoves(w: World, w': World, r: nat) {
    w' == w.(msgs := w'.msgs, nextMsg := w'.nextMsg, dlq := w'.dlq, redrives := w.redrives - {r},
             republished := w'.republished)
  }

  /** One entry of the batch, republished and deleted. */
  function AfterEntry(w: World, r: nat): World
    requires r in w.redrives && w.redrives[r].i < |w.redrives[r].batch|
  {
    var v := w.redrives[r];
    Post(w, Payload(Some(v.batch[v.i].1.job), true)).(redrives := Advance(w.redrives, r),
                                                      republished := w.republished + {v.batch[v.i].0},
                                                      dlq := w.dlq - {v.batch[v.i].0})
  }

  lemma EntrySteps(w: World, r: nat)
    requires r in w.redrives && !w.redrives[r].published && w.redrives[r].i < |w.redrives[r].batch|
    ensures Enabled(w, Republish(r, true))
    ensures var w1 := Apply(w, Republish(r, true));
            Enabled(w1, DeleteEntry(r, true)) && Apply(w1, DeleteEntry(r, true)) == AfterEntry(w, r)
  {
    var v := w.redrives[r];
    var w1 := Apply(w, Republish(r, true));
    assert w1.redrives[r] == v.(published := true);
    assert Advance(w1.redrives, r) == Advance(w.redrives, r);
  }

  /** The entries from number i on have moved, the redrive is over, and nothing else has changed. */
  ghost predicate Moved(w: World, w': World, r: nat, batch: Batch, i: nat)
    requires i <= |batch|
  {
    && Posted(w.msgs, w.nextMsg, w'.msgs, w'.nextMsg, batch, i)
    && Emptied(w.dlq, w'.dlq, batch, i)
    && OnlyMoves(w, w', r)
  }

  /** The redrive is at entry i, or has ended with the batch. */
  predicate AtEntry(w: World, r: nat, batch: Batch, i: nat) {
    if i < |batch| then r in w.redrives && w.redrives[r] == Redrive(batch, i, false)
    else i == |batch| && r !in w.redrives
  }

  lemma NextEntry(w: World, r: nat, batch: Batch, i: nat)
    requires i < |batch| && AtEntry(w, r, batch, i)
    ensures AtEntry(AfterEntry(w, r), r, batch, i + 1)
  {
  }

  lemma EntryMoved(w: World, w': World, r: nat, batch: Batch, i: nat)
    requires i < |batch| && AtEntry(w, r, batch, i) && Moved(AfterEntry(w, r), w', r, batch, i + 1)
    ensures Moved(w, w', r, batch, i)
  {
    PostedMore(w.msgs, w.nextMsg, w'.msgs, w'.nextMsg, batch, i);
    EmptiedMore(w.dlq, w'.dlq, batch, i);
    assert Advance(w.redrives, r) - {r} == w.redrives - {r};
  }

  lemma {:induction false} RedriveRuns(w: World, r: nat, batch: Batch, i: nat)
    requires i <= |batch| && AtEntry(w, r, batch, i)
    ensures var steps := RedriveSteps(r, |batch| - i); Legal(w, steps) && Moved(w, Exec(w, steps), r, batch, i)
    decreases |batch| - i
  {
    if i == |batch| {
      assert w.redrives - {r} == w.redrives;
    } else {
      EntrySteps(w, r);
      NextEntry(w, r, batch, i);
      var w1, rest := AfterEntry(w, r), RedriveSteps(r, |batch| - i - 1);
      TwoSteps(w, Republish(r, true), DeleteEntry(r, true), rest);
      RedriveRuns(w1, r, batch, i + 1);
      EntryMoved(w, Exec(w1, rest), r, batch, i);
    }
  }

  lemma TwoSteps(w: World, a: Step, b: Step, rest: seq<Step>)
    requires Enabled(w, a) && Enabled(Apply(w, a), b)
    ensures var w1 := Apply(Apply(w, a), b);
            && (Legal(w, [a, b] + rest) <==> Legal(w1, rest))
            && (Legal(w1, rest) ==> Exec(w, [a, b] + rest) == Exec(w1, rest))
  {
    var steps := [a, b] + rest;
    assert steps[1..] == [b] + rest && steps[1..][1..] == rest;
  }

  /** A redrive alone, whose calls all go well, moves the batch it has fetched from the dead-letter stream to the
      dispatch queue, entry by entry, each as a fresh message of its job, and leaves everything else. */
  lemma RedriveMovesBatch(w: World, r: nat, batch: Batch)
    requires Enabled(w, StartRedrive(r, batch))
    ensures var steps := [StartRedrive(r, batch)] + RedriveSteps(r, |batch|);
            && Legal(w, steps)
            && var w' := Exec(w, steps);
               && Posted(w.msgs, w.nextMsg, w'.msgs, w'.nextMsg, batch, 0) && Emptied(w.dlq, w'.dlq, batch, 0)
               && w' == w.(msgs := w'.msgs, nextMsg := w'.nextMsg, dlq := w'.dlq, republished := w'.republished)
  {
    var w1 := Apply(w, StartRedrive(r, batch));
    var rest := RedriveSteps(r, |batch|);
    assert w1 == w.(redrives := w.redrives[r := Redrive(batch, 0, false)]);
    RedriveRuns(w1, r, batch, 0);
    assert ([StartRedrive(r, batch)] + rest)[1..] == rest;
    assert w1.redrives - {r} == w.redrives;
  }

  /** A download alone of a completed job that is not cached leaves the job's first output row in the cache, and nothing
      else changed. */
  lemma DownloadCachesRow(w: World, d: nat, j: JobId)
    requires Enabled(w, CheckDownload(d, j)) && j !in w.outputFileCache && Rows(w.outputs, j) != []
    ensures var steps := [CheckDownload(d, j), ReadOutput(d), StoreOutput(d)];
            Legal(w, steps) && Exec(w, steps) == w.(outputFileCache := w.outputFileCache[j := Rows(w.outputs, j)[0]])
  {
    var w1 := Apply(w, CheckDownload(d, j));
    assert w1.downloads[d] == Checked(j);
    var w2 := Apply(w1, ReadOutput(d));
    assert w2.downloads == w1.downloads[d := Read(j, Rows(w.outputs, j)[0])];
    var w3 := Apply(w2, StoreOutput(d));
    assert w3.downloads == w.downloads;
    TwoSteps(w, CheckDownload(d, j), ReadOutput(d), [StoreOutput(d)]);
    assert [CheckDownload(d, j), ReadOutput(d)] + [StoreOutput(d)]
        == [CheckDownload(d, j), ReadOutput(d), StoreOutput(d)];
    assert [StoreOutput(d)][1..] == [];
  }
}
