/** Two more handlers of job-service: the redrive loop of handlers/dlq.go, and DownloadJobFile of
    handlers/jobs.go with its in-process outputFileCache. */
module JobService {
  import opened Wrappers
  import opened Delivery

  datatype DeadLetter = DeadLetter(service: string, data: string)

  /** The services whose dead letters are redriven. */
  const REDRIVABLE: set<string> := {"convert-from-pdf", "convert-to-pdf", "organize-pdf", "optimize-pdf"}

  /** The dead-letter stream by sequence number, and what has been published for dispatch. */
  class Streams {
    var dlq: map<Seq, DeadLetter>
    var dispatch: seq<DeadLetter>

    constructor (dlq: map<Seq, DeadLetter>)
      ensures this.dlq == dlq && dispatch == []
    {
      this.dlq, dispatch := dlq, [];
    }

    /** Republish one entry, then delete it, where either call may fail; another service's entry is left in place. */
    method RedriveOne(s: Seq, publishes: bool, deletes: bool) returns (worker: bool, published: bool)
      requires s in dlq
      modifies this
      ensures worker == (old(dlq)[s].service in REDRIVABLE) && published == (worker && publishes)
      ensures dispatch == old(dispatch) + if published then [old(dlq)[s]] else []
      ensures dlq == if published && deletes then old(dlq) - {s} else old(dlq)
    {
      worker, published := dlq[s].service in REDRIVABLE, false;
      if !worker {
        return;
      }
      if !publishes {
        return;
      }
      published := true;
      dispatch := dispatch + [dlq[s]];
      if deletes {
        dlq := dlq - {s};
      }
    }

    /** One redrive of a fetched batch; publishes and deletes say which publish and which delete succeeds, and took
        marks what is republished. */
    method RedriveDLQ(batch: seq<Seq>, publishes: nat -> bool, deletes: nat -> bool)
      returns (redriven: nat, skipped: nat, failed: nat, ghost took: seq<bool>)
      requires forall i :: 0 <= i < |batch| ==> batch[i] in dlq
      requires forall i, j :: 0 <= i < j < |batch| ==> batch[i] != batch[j]
      modifies this
      ensures redriven + skipped + failed == |batch|
      ensures Chosen(old(dlq), dlq, batch, took, publishes, deletes)
      ensures Redriven(old(dlq), dlq, old(dispatch), dispatch, batch, took, redriven, skipped)
    {
      redriven, skipped, failed, took := 0, 0, 0, [];
      assert batch[..0] == [];
      for i := 0 to |batch|
        invariant redriven + skipped + failed == i
        invariant Chosen(old(dlq), dlq, batch[..i], took, publishes, deletes)
        invariant Redriven(old(dlq), dlq, old(dispatch), dispatch, batch[..i], took, redriven, skipped)
        invariant forall k :: i <= k < |batch| ==> batch[k] in dlq
      {
        ghost var stream, queue := dlq, dispatch;
        var worker, published := RedriveOne(batch[i], publishes(i), deletes(i));
        RedrivenMore(old(dlq), stream, dlq, old(dispatch), queue, dispatch, batch, i, took, redriven, skipped,
                     published);
        ChosenMore(old(dlq), stream, dlq, batch, i, took, publishes, deletes);
        if !worker {
          skipped := skipped + 1;
        } else if !published {
          failed := failed + 1;
        } else {
          redriven := redriven + 1;
        }
        took := took + [published];
      }
      assert batch[..|batch|] == batch;
    }
  }

  /** The entries taken are those of the four workers whose publish succeeds, and of these go the ones whose delete does
      too. */
  ghost predicate Chosen(dlq: map<Seq, DeadLetter>, dlq': map<Seq, DeadLetter>, batch: seq<Seq>, took: seq<bool>,
                         publishes: nat -> bool, deletes: nat -> bool)
  {
    && |took| == |batch|
    && forall i :: 0 <= i < |batch| ==>
         && batch[i] in dlq
         && took[i] == (publishes(i) && dlq[batch[i]].service
                          in {"convert-from-pdf", "convert-to-pdf", "organize-pdf", "optimize-pdf"})
         && (batch[i] in dlq' <==> !(took[i] && deletes(i)))
  }

  lemma ChosenMore(dlq: map<Seq, DeadLetter>, dlq1: map<Seq, DeadLetter>, dlq2: map<Seq, DeadLetter>, batch: seq<Seq>,
                   i: nat, took: seq<bool>, publishes: nat -> bool, deletes: nat -> bool)
    requires i < |batch| && forall a, b :: 0 <= a < b < |batch| ==> batch[a] != batch[b]
    requires Chosen(dlq, dlq1, batch[..i], took, publishes, deletes)
    requires batch[i] in dlq && batch[i] in dlq1
    requires var taken := publishes(i) && dlq[batch[i]].service in REDRIVABLE;
             dlq2 == if taken && deletes(i) then dlq1 - {batch[i]} else dlq1
    ensures Chosen(dlq, dlq2, batch[..i + 1], took + [publishes(i) && dlq[batch[i]].service in REDRIVABLE],
                   publishes, deletes)
  {
    assert batch[..i + 1] == batch[..i] + [batch[i]];
  }

  /** After redriving this batch: everything in it is still in the stream or has been republished, in order, and
      nothing else is touched. */
  ghost predicate Redriven(dlq: map<Seq, DeadLetter>, dlq': map<Seq, DeadLetter>, dispatch: seq<DeadLetter>,
                           dispatch': seq<DeadLetter>, batch: seq<Seq>, took: seq<bool>, redriven: nat, skipped: nat)
  {
    && |took| == |batch| && Kept(dlq, dlq', batch, took)
    && dispatch' == dispatch + Republished(dlq, batch, took)
    && redriven == |Republished(dlq, batch, took)| && skipped == Foreign(dlq, batch)
  }

  lemma RedrivenMore(dlq: map<Seq, DeadLetter>, dlq1: map<Seq, DeadLetter>, dlq2: map<Seq, DeadLetter>,
                     dispatch: seq<DeadLetter>, dispatch1: seq<DeadLetter>, dispatch2: seq<DeadLetter>,
                     batch: seq<Seq>, i: nat, took: seq<bool>, redriven: nat, skipped: nat, published: bool)
    requires i < |batch| && forall a, b :: 0 <= a < b < |batch| ==> batch[a] != batch[b]
    requires forall a :: 0 <= a < |batch| ==> batch[a] in dlq
    requires Redriven(dlq, dlq1, dispatch, dispatch1, batch[..i], took, redriven, skipped) && batch[i] in dlq1
    requires dlq2 == dlq1 || (published && dlq2 == dlq1 - {batch[i]})
    requires dispatch2 == dispatch1 + if published then [dlq1[batch[i]]] else []
    requires published ==> dlq1[batch[i]].service in REDRIVABLE
    ensures var worker := dlq1[batch[i]].service in REDRIVABLE;
            Redriven(dlq, dlq2, dispatch, dispatch2, batch[..i + 1], took + [published],
                     if published then redriven + 1 else redriven, if worker then skipped else skipped + 1)
    ensures forall k :: i < k < |batch| && batch[k] in dlq1 ==> batch[k] in dlq2
  {
    OneMoreEntry(dlq, batch, i, took, published);
    KeptMore(dlq, dlq1, dlq2, batch, i, took, published);
  }

  /** Entries of the batch that belong to no worker. */
  function Foreign(dlq: map<Seq, DeadLetter>, batch: seq<Seq>): nat
    requires forall i :: 0 <= i < |batch| ==> batch[i] in dlq
  {
    if batch == [] then 0
    else Foreign(dlq, batch[..|batch| - 1]) + if dlq[batch[|batch| - 1]].service in REDRIVABLE then 0 else 1
  }

  /** The marked entries of the batch, in order. */
  function Republished(dlq: map<Seq, DeadLetter>, batch: seq<Seq>, took: seq<bool>): seq<DeadLetter>
    requires |took| == |batch| && forall i :: 0 <= i < |batch| ==> batch[i] in dlq
  {
    if batch == [] then []
    else
      Republished(dlq, batch[..|batch| - 1], took[..|took| - 1])
      + if took[|took| - 1] then [dlq[batch[|batch| - 1]]] else []
  }

  lemma OneMoreEntry(dlq: map<Seq, DeadLetter>, batch: seq<Seq>, i: nat, took: seq<bool>, published: bool)
    requires |took| == i < |batch| && forall k :: 0 <= k < |batch| ==> batch[k] in dlq
    ensures Foreign(dlq, batch[..i + 1])
            == Foreign(dlq, batch[..i]) + if dlq[batch[i]].service in REDRIVABLE then 0 else 1
    ensures Republished(dlq, batch[..i + 1], took + [published])
            == Republished(dlq, batch[..i], took) + if published then [dlq[batch[i]]] else []
  {
    assert batch[..i + 1][..i] == batch[..i] && (took + [published])[..i] == took;
  }

  /** Only marked entries may be gone, and only workers' entries are marked. */
  ghost predicate Kept(dlq: map<Seq, DeadLetter>, dlq': map<Seq, DeadLetter>, batch: seq<Seq>, took: seq<bool>)
    requires |took| == |batch|
  {
    && dlq'.Keys <= dlq.Keys && (forall s :: s in dlq' ==> dlq'[s] == dlq[s])
    && (forall s :: s in dlq && s !in batch ==> s in dlq')
    && (forall i :: 0 <= i < |batch| ==> batch[i] in dlq)
    && (forall i :: 0 <= i < |batch| && !took[i] ==> batch[i] in dlq')
    && (forall i :: 0 <= i < |batch| && took[i] ==> dlq[batch[i]].service in REDRIVABLE)
  }

  lemma KeptMore(dlq: map<Seq, DeadLetter>, dlq1: map<Seq, DeadLetter>, dlq2: map<Seq, DeadLetter>, batch: seq<Seq>,
                 i: nat, took: seq<bool>, published: bool)
    requires |took| == i < |batch| && forall a, b :: 0 <= a < b < |batch| ==> batch[a] != batch[b]
    requires Kept(dlq, dlq1, batch[..i], took) && batch[i] in dlq1
    requires dlq2 == dlq1 || (published && dlq2 == dlq1 - {batch[i]})
    requires published ==> dlq[batch[i]].service in REDRIVABLE
    ensures Kept(dlq, dlq2, batch[..i + 1], took + [published])
    ensures forall k :: i < k < |batch| && batch[k] in dlq1 ==> batch[k] in dlq2
  {
    assert batch[..i + 1] == batch[..i] + [batch[i]];
  }

  // ------------------------------------------------------------ Downloads

  /** Every cached row of a completed job is its only output row. */
  ghost predicate Current(jobs: map<JobId, Status>, outputs: map<JobId, seq<OutputRow>>, cache: map<JobId, OutputRow>) {
    forall j :: j in cache && j in jobs && jobs[j] == Completed ==> Rows(outputs, j) == [cache[j]]
  }

  class Downloads {
    var outputFileCache: map<JobId, OutputRow>

    constructor ()
      ensures outputFileCache == map[]
    {
      outputFileCache := map[];
    }

    /** The output a caller is redirected to.  With a current cache it is the database's one row, cached or not,
        and the cache stays current. */
    method DownloadJobFile(jobs: map<JobId, Status>, outputs: map<JobId, seq<OutputRow>>, j: JobId)
      returns (file: Option<OutputRow>)
      modifies this
      ensures var rows := Rows(outputs, j);
              file == if j !in jobs || jobs[j] != Completed then None
                      else if j in old(outputFileCache) then Some(old(outputFileCache)[j])
                      else if rows == [] then None else Some(rows[0])
      ensures outputFileCache == if file.Some? then old(outputFileCache)[j := file.value] else old(outputFileCache)
      ensures Current(jobs, outputs, old(outputFileCache)) && |Rows(outputs, j)| <= 1 ==>
                && Current(jobs, outputs, outputFileCache)
                && (file.Some? ==> Rows(outputs, j) == [file.value])
    {
      if j !in jobs || jobs[j] != Completed {
        return None;
      }
      if j in outputFileCache {
        return Some(outputFileCache[j]);
      }
      var rows := Rows(outputs, j);
      if |rows| == 0 {
        return None;
      }
      outputFileCache := outputFileCache[j := rows[0]];
      return Some(rows[0]);
    }
  }
}
