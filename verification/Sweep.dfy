/** The expiry sweep of job-service/internal/cleanup/cleanup.go: what one pass removes. */
module Sweep {
  import opened Wrappers

  type JobId = nat
  type RowId = nat

  datatype Bucket = Uploads | Outputs

  /** A file_metadata row. */
  datatype File = File(job: JobId, kind: string, path: string)

  datatype Object = Object(bucket: Bucket, key: string)

  function BucketFor(kind: string): Bucket {
    if kind == "input" then Uploads else Outputs
  }

  /** A path from before object storage. */
  predicate Legacy(path: string) {
    "/" <= path
  }

  const BATCH := 100

  predicate IsExpired(jobs: map<JobId, Option<int>>, now: int, j: JobId) {
    j in jobs && jobs[j].Some? && jobs[j].value <= now
  }

  function Expired(jobs: map<JobId, Option<int>>, now: int): set<JobId> {
    set j | j in jobs && IsExpired(jobs, now, j)
  }

  function FilesOf(files: map<RowId, File>, ids: set<JobId>): set<RowId> {
    set r | r in files && files[r].job in ids
  }

  /** At most 100 distinct ids, and all of them when fewer. */
  ghost predicate IsBatch(all: set<JobId>, ids: seq<JobId>) {
    && |ids| <= BATCH
    && (forall i, j :: 0 <= i < j < |ids| ==> ids[i] != ids[j])
    && (forall i :: 0 <= i < |ids| ==> ids[i] in all)
    && (|ids| < BATCH ==> forall j :: j in all ==> j in ids)
  }

  function Ids(ids: seq<JobId>): set<JobId> {
    set j | j in ids
  }

  /** The objects these rows name, legacy paths aside. */
  function Named(files: map<RowId, File>, rows: set<RowId>): set<Object> {
    set r | r in rows && r in files && !Legacy(files[r].path) :: Object(BucketFor(files[r].kind), files[r].path)
  }

  /** The database tables and buckets job-service owns. */
  class Store {
    var jobs: map<JobId, Option<int>>
    var files: map<RowId, File>
    var objects: set<Object>

    constructor (jobs: map<JobId, Option<int>>, files: map<RowId, File>, objects: set<Object>)
      ensures this.jobs == jobs && this.files == files && this.objects == objects
    {
      this.jobs, this.files, this.objects := jobs, files, objects;
    }

    /** SELECT ... WHERE expires_at <= now LIMIT 100, in no particular order. */
    method FindExpired(now: int) returns (ids: seq<JobId>)
      ensures IsBatch(Expired(jobs, now), ids)
      ensures |ids| <= 100 && forall i, j :: 0 <= i < j < |ids| ==> ids[i] != ids[j]
      ensures forall i :: 0 <= i < |ids| ==>
                ids[i] in jobs && jobs[ids[i]].Some? && jobs[ids[i]].value <= now
      ensures |ids| < 100 ==> forall j :: j in jobs && jobs[j].Some? && jobs[j].value <= now ==> j in ids
    {
      ids := [];
      var left := Expired(jobs, now);
      while left != {} && |ids| < BATCH
        invariant left <= Expired(jobs, now)
        invariant |ids| <= BATCH
        invariant forall i, j :: 0 <= i < j < |ids| ==> ids[i] != ids[j]
        invariant forall i :: 0 <= i < |ids| ==> ids[i] in Expired(jobs, now) && ids[i] !in left
        invariant forall j :: j in Expired(jobs, now) ==> j in left || j in ids
        decreases |left|
      {
        var j :| j in left;
        ids := ids + [j];
        left := left - {j};
      }
    }

    /** Remove the objects these rows name; a missing object is no error. */
    method RemoveJobObjects(rows: seq<RowId>)
      requires forall i :: 0 <= i < |rows| ==> rows[i] in files
      modifies this`objects
      ensures objects == old(objects) - Named(files, set r | r in rows)
      ensures forall o :: o in objects <==>
                o in old(objects)
                && !exists i :: 0 <= i < |rows| && !("/" <= files[rows[i]].path) && o.key == files[rows[i]].path
                                && o.bucket == if files[rows[i]].kind == "input" then Uploads else Outputs
    {
      for i := 0 to |rows|
        invariant objects == old(objects) - Named(files, set r | r in rows[..i])
      {
        NamedSnoc(files, rows[..i], rows[i]);
        assert rows[..i + 1] == rows[..i] + [rows[i]];
        var file := files[rows[i]];
        if "/" <= file.path {
          continue;
        }
        objects := objects - {Object(BucketFor(file.kind), file.path)};
      }
      assert rows[..|rows|] == rows;
      forall o
        ensures o in Named(files, set r | r in rows) <==>
                exists i :: 0 <= i < |rows| && !("/" <= files[rows[i]].path) && o.key == files[rows[i]].path
                            && o.bucket == if files[rows[i]].kind == "input" then Uploads else Outputs
      {
        NamedByRow(files, rows, o);
      }
    }

    /** Remove one batch of jobs: objects, rows, jobs. */
    method SweepBatch(ids: seq<JobId>)
      modifies this
      ensures Swept(old(jobs), old(files), old(objects), Ids(ids), jobs, files, objects)
    {
      var rows := SelectFiles(ids);
      RemoveJobObjects(rows);
      files := files - set r | r in rows;
      jobs := jobs - Ids(ids);
    }

    /** The batch loop: one instant is captured, and full batches are followed by another. */
    method CleanupExpiredJobs(now: int)
      modifies this
      ensures Swept(old(jobs), old(files), old(objects), Expired(old(jobs), now), jobs, files, objects)
    {
      ghost var gone: set<JobId> := {};
      NothingSwept(jobs, files, objects, now);
      while true
        invariant SweptSoFar(old(jobs), old(files), old(objects), now, gone, jobs, files, objects)
        decreases |Expired(jobs, now)|
      {
        var ids := FindExpired(now);
        if |ids| == 0 {
          LastBatch(old(jobs), old(files), old(objects), now, gone, jobs, files, objects, ids);
          return;
        }
        ghost var jobs1, files1, objects1 := jobs, files, objects;
        SweepBatch(ids);
        BatchSwept(old(jobs), old(files), old(objects), now, gone, jobs1, files1, objects1, ids, jobs, files, objects);
        gone := gone + Ids(ids);
        if |ids| < BATCH {
          return;
        }
      }
    }

    /** SELECT ... FROM file_metadata WHERE job_id IN ids. */
    method SelectFiles(ids: seq<JobId>) returns (rows: seq<RowId>)
      ensures forall i :: 0 <= i < |rows| ==> rows[i] in files
      ensures (set r | r in rows) == FilesOf(files, Ids(ids))
    {
      rows := [];
      var left := set r | r in files && files[r].job in ids;
      ghost var all := left;
      while left != {}
        invariant left <= all
        invariant forall r :: r in rows <==> r in all && r !in left
        decreases |left|
      {
        var r :| r in left;
        rows := rows + [r];
        left := left - {r};
      }
      assert all == FilesOf(files, Ids(ids));
      assert forall i :: 0 <= i < |rows| ==> rows[i] in all;
    }
  }

  /** An object is named exactly if some row has its key, not a legacy path, and its bucket: an input is among the
      uploads, anything else among the outputs. */
  lemma NamedByRow(files: map<RowId, File>, rows: seq<RowId>, o: Object)
    requires forall i :: 0 <= i < |rows| ==> rows[i] in files
    ensures o in Named(files, set r | r in rows) <==>
            exists i :: 0 <= i < |rows| && !("/" <= files[rows[i]].path) && o.key == files[rows[i]].path
                        && o.bucket == if files[rows[i]].kind == "input" then Uploads else Outputs
  {
    if o in Named(files, set r | r in rows) {
      var r :| r in rows && !Legacy(files[r].path) && o == Object(BucketFor(files[r].kind), files[r].path);
      var i :| 0 <= i < |rows| && rows[i] == r;
    }
    if i :| 0 <= i < |rows| && !("/" <= files[rows[i]].path) && o.key == files[rows[i]].path
            && o.bucket == if files[rows[i]].kind == "input" then Uploads else Outputs {
      assert rows[i] in rows && o == Object(BucketFor(files[rows[i]].kind), files[rows[i]].path);
    }
  }

  lemma NamedSnoc(files: map<RowId, File>, rows: seq<RowId>, row: RowId)
    requires row in files
    ensures Named(files, set r | r in rows + [row])
            == Named(files, set r | r in rows)
               + if Legacy(files[row].path) then {} else {Object(BucketFor(files[row].kind), files[row].path)}
  {
    assert (set r | r in rows + [row]) == (set r | r in rows) + {row};
    NamedSplits(files, set r | r in rows, {row});
  }

  lemma NamedSplits(files: map<RowId, File>, a: set<RowId>, b: set<RowId>)
    ensures Named(files, a + b) == Named(files, a) + Named(files, b)
  {
  }

  lemma Smaller(a: set<JobId>, b: set<JobId>, x: JobId)
    requires x in b && a <= b - {x}
    ensures |a| < |b|
  {
    assert |a| <= |b - {x}| by {
      Subset(a, b - {x});
    }
  }

  lemma Subset(a: set<JobId>, b: set<JobId>)
    requires a <= b
    ensures |a| <= |b|
  {
    assert b == a + (b - a);
  }

  /** The tables after the jobs in gone have been swept. */
  ghost predicate Swept(jobs0: map<JobId, Option<int>>, files0: map<RowId, File>, objects0: set<Object>,
                        gone: set<JobId>,
                        jobs: map<JobId, Option<int>>, files: map<RowId, File>, objects: set<Object>)
  {
    && jobs == jobs0 - gone
    && files == files0 - FilesOf(files0, gone)
    && objects == objects0 - Named(files0, FilesOf(files0, gone))
  }

  /** Part of the expired jobs swept, and the tables to match. */
  ghost predicate SweptSoFar(jobs0: map<JobId, Option<int>>, files0: map<RowId, File>, objects0: set<Object>, now: int,
                             gone: set<JobId>, jobs: map<JobId, Option<int>>, files: map<RowId, File>,
                             objects: set<Object>)
  {
    gone <= Expired(jobs0, now) && Swept(jobs0, files0, objects0, gone, jobs, files, objects)
  }

  lemma NothingSwept(jobs: map<JobId, Option<int>>, files: map<RowId, File>, objects: set<Object>, now: int)
    ensures SweptSoFar(jobs, files, objects, now, {}, jobs, files, objects)
  {
    assert FilesOf(files, {}) == {};
    assert Named(files, {}) == {};
  }

  lemma StillExpired(jobs0: map<JobId, Option<int>>, jobs: map<JobId, Option<int>>, now: int, gone: set<JobId>)
    requires jobs == jobs0 - gone
    ensures Expired(jobs, now) == Expired(jobs0, now) - gone
  {
  }

  lemma BatchIds(all: set<JobId>, ids: seq<JobId>)
    requires IsBatch(all, ids)
    ensures Ids(ids) <= all && (|ids| < BATCH ==> Ids(ids) == all) && (ids != [] ==> ids[0] in Ids(ids))
  {
  }

  lemma LastBatch(jobs0: map<JobId, Option<int>>, files0: map<RowId, File>, objects0: set<Object>, now: int,
                  gone: set<JobId>, jobs: map<JobId, Option<int>>, files: map<RowId, File>, objects: set<Object>,
                  ids: seq<JobId>)
    requires SweptSoFar(jobs0, files0, objects0, now, gone, jobs, files, objects)
    requires IsBatch(Expired(jobs, now), ids) && ids == []
    ensures gone == Expired(jobs0, now)
  {
    StillExpired(jobs0, jobs, now, gone);
    BatchIds(Expired(jobs, now), ids);
    assert Ids(ids) == {};
    forall j | j in Expired(jobs0, now)
      ensures j in gone
    {
      assert j in gone || j in Expired(jobs, now);
    }
  }

  /** Sweeping twice is sweeping both. */
  lemma SweptMore(jobs0: map<JobId, Option<int>>, files0: map<RowId, File>, objects0: set<Object>, gone: set<JobId>,
                  batch: set<JobId>, jobs1: map<JobId, Option<int>>, files1: map<RowId, File>, objects1: set<Object>,
                  jobs: map<JobId, Option<int>>, files: map<RowId, File>, objects: set<Object>)
    requires Swept(jobs0, files0, objects0, gone, jobs1, files1, objects1)
    requires Swept(jobs1, files1, objects1, batch, jobs, files, objects) && batch !! gone
    ensures Swept(jobs0, files0, objects0, gone + batch, jobs, files, objects)
  {
    assert FilesOf(files0, gone + batch) == FilesOf(files0, gone) + FilesOf(files0, batch);
    assert FilesOf(files1, batch) == FilesOf(files0, batch);
    NamedSplits(files0, FilesOf(files0, gone), FilesOf(files0, batch));
    assert Named(files1, FilesOf(files0, batch)) == Named(files0, FilesOf(files0, batch));
  }

  /** One batch more: the measure shrinks, and a short batch was the last. */
  lemma BatchSwept(jobs0: map<JobId, Option<int>>, files0: map<RowId, File>, objects0: set<Object>, now: int,
                   gone: set<JobId>, jobs1: map<JobId, Option<int>>, files1: map<RowId, File>, objects1: set<Object>,
                   ids: seq<JobId>, jobs: map<JobId, Option<int>>, files: map<RowId, File>, objects: set<Object>)
    requires SweptSoFar(jobs0, files0, objects0, now, gone, jobs1, files1, objects1)
    requires IsBatch(Expired(jobs1, now), ids) && ids != []
    requires Swept(jobs1, files1, objects1, Ids(ids), jobs, files, objects)
    ensures SweptSoFar(jobs0, files0, objects0, now, gone + Ids(ids), jobs, files, objects)
    ensures |Expired(jobs, now)| < |Expired(jobs1, now)|
    ensures |ids| < BATCH ==> gone + Ids(ids) == Expired(jobs0, now)
  {
    StillExpired(jobs0, jobs1, now, gone);
    StillExpired(jobs1, jobs, now, Ids(ids));
    BatchIds(Expired(jobs1, now), ids);
    SweptMore(jobs0, files0, objects0, gone, Ids(ids), jobs1, files1, objects1, jobs, files, objects);
    Smaller(Expired(jobs, now), Expired(jobs1, now), ids[0]);
  }

  // ------------------------------------------------------------ What a sweep means

  /** A job survives exactly when it had no expiry or a later one; a row survives exactly with its job; an object is
      removed exactly when a row of an expired job names it, other than by a path that begins with a slash, in the
      bucket of its kind. */
  lemma SweepIsExact(jobs0: map<JobId, Option<int>>, files0: map<RowId, File>, objects0: set<Object>, now: int,
                     jobs: map<JobId, Option<int>>, files: map<RowId, File>, objects: set<Object>,
                     j: JobId, r: RowId, o: Object)
    requires Swept(jobs0, files0, objects0, Expired(jobs0, now), jobs, files, objects)
    ensures j in jobs <==> j in jobs0 && (jobs0[j].None? || jobs0[j].value > now)
    ensures j in jobs ==> jobs[j] == jobs0[j]
    ensures r in files <==>
            r in files0 && (files0[r].job in jobs0 ==>
              jobs0[files0[r].job].None? || jobs0[files0[r].job].value > now)
    ensures o in objects <==>
            o in objects0 && !exists x ::
              && x in files0 && files0[x].job in jobs0 && jobs0[files0[x].job].Some?
              && jobs0[files0[x].job].value <= now && !("/" <= files0[x].path) && o.key == files0[x].path
              && o.bucket == if files0[x].kind == "input" then Uploads else Outputs
  {
    if o in Named(files0, FilesOf(files0, Expired(jobs0, now))) {
      var x :| x in FilesOf(files0, Expired(jobs0, now)) && x in files0 && !Legacy(files0[x].path)
               && o == Object(BucketFor(files0[x].kind), files0[x].path);
      assert files0[x].job in Expired(jobs0, now);
    }
    if x :| x in files0 && files0[x].job in jobs0 && jobs0[files0[x].job].Some?
            && jobs0[files0[x].job].value <= now && !("/" <= files0[x].path) && o.key == files0[x].path
            && o.bucket == if files0[x].kind == "input" then Uploads else Outputs {
      assert files0[x].job in Expired(jobs0, now) && x in FilesOf(files0, Expired(jobs0, now));
      assert o == Object(BucketFor(files0[x].kind), files0[x].path);
    }
  }

  /** A second sweep at the same instant, or an earlier one, finds nothing to do. */
  lemma SweepIsIdempotent(jobs0: map<JobId, Option<int>>, files0: map<RowId, File>, objects0: set<Object>, now: int,
                          earlier: int, jobs: map<JobId, Option<int>>, files: map<RowId, File>, objects: set<Object>)
    requires Swept(jobs0, files0, objects0, Expired(jobs0, now), jobs, files, objects) && earlier <= now
    ensures Expired(jobs, earlier) == {} && Swept(jobs, files, objects, Expired(jobs, earlier), jobs, files, objects)
  {
    NothingSwept(jobs, files, objects, earlier);
  }
}
