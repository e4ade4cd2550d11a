/** Runs of workers that share the result cache: lookups, copies, conversions, output deletions
    and cache expiry, interleaved. */
module CacheRuns {
  import opened Wrappers
  import opened Encoding
  import opened ResultCache

  /** An object under jobs/{job}/{name} of the outputs bucket. */
  datatype OutKey = OutKey(job: JobId, name: string)

  datatype Job = Job(tool: string, options: string, keys: seq<string>)

  /** A handler: past its status update, at the next storage, Redis or database call. */
  datatype Handler =
    | StatInputs(job: JobId)                                         // inputETags
    | GetCache(job: JobId, key: string)                              // cache.get
    | StatOutput(job: JobId, key: string, from: OutKey)              // StatObject of the cached output
    | CopyOutput(job: JobId, key: string, from: OutKey)              // CopyObject to the job's own key
    | RecordCopy(job: JobId, key: string, out: OutKey)               // recordOutput, then completed
    | Fetch(job: JobId, slot: Option<string>)                         // fetchInputs
    | Store(job: JobId, slot: Option<string>, inputs: seq<Input>)     // Process, then storeOutput
    | Record(job: JobId, slot: Option<string>, out: OutKey)           // recordOutput
    | SetCache(job: JobId, slot: Option<string>, out: OutKey)         // cache.set, then completed

  /** uploaded is the content each upload key was ever given; keys hold a fresh UUID. */
  datatype World = World(
    uploaded: map<string, string>,
    uploads: set<string>,
    outputs: map<OutKey, string>,
    cache: map<string, OutKey>,
    jobs: map<JobId, Job>,
    handlers: map<nat, Handler>,
    recorded: map<JobId, OutKey>)

  const Empty: World := World(map[], {}, map[], map[], map[], map[], map[])

  datatype Step =
    | Upload(key: string, content: string)
    | DropUpload(key: string)
    | AddJob(job: JobId, spec: Job)
    | Start(h: nat, job: JobId)
    | Run(h: nat, name: string, ok: bool)      // ok = false: the call fails where it may
    | DropOutput(out: OutKey)
    | ExpireCache(key: string)

  predicate InputsKnown(w: World, job: Job) {
    forall k :: k in job.keys ==> k in w.uploaded
  }

  /** What a job asks for, given what its input keys hold. */
  function PayloadOf(p: Platform, uploaded: map<string, string>, job: Job): Payload
    requires forall k :: k in job.keys ==> k in uploaded
  {
    Payload(job.tool, job.options, InputsOf(p, uploaded, job.keys))
  }

  predicate InputsPresent(w: World, j: JobId)
    requires j in w.jobs
  {
    forall k :: k in w.jobs[j].keys ==> k in w.uploads
  }

  predicate Enabled(w: World, step: Step) {
    match step
    case Upload(k, _) => k !in w.uploaded
    case AddJob(j, spec) => j !in w.jobs && InputsKnown(w, spec)
    case Start(h, j) => h !in w.handlers && j in w.jobs && InputsKnown(w, w.jobs[j])
    case Run(h, _, _) => h in w.handlers && w.handlers[h].job in w.jobs && InputsKnown(w, w.jobs[w.handlers[h].job])
    case _ => true
  }

  function Apply(p: Platform, w: World, step: Step): World
    requires Enabled(w, step)
  {
    match step
    case Upload(k, c) => w.(uploaded := w.uploaded[k := c], uploads := w.uploads + {k})
    case DropUpload(k) => w.(uploads := w.uploads - {k})
    case AddJob(j, spec) => w.(jobs := w.jobs[j := spec])
    case Start(h, j) => w.(handlers := w.handlers[h := StatInputs(j)])
    case Run(h, name, ok) => RunHandler(p, w, h, name, ok)
    case DropOutput(out) => w.(outputs := w.outputs - {out})
    case ExpireCache(k) => w.(cache := w.cache - {k})
  }

  /** Where a handler goes; None when it ends. */
  function NextHandler(p: Platform, w: World, v: Handler, name: string, ok: bool): Option<Handler>
    requires v.job in w.jobs && InputsKnown(w, w.jobs[v.job])
  {
    match v
    case StatInputs(j) =>
      if ok && InputsPresent(w, j) then
        Some(GetCache(j, KeyOf(p, PayloadOf(p, w.uploaded, w.jobs[j]))))
      else Some(Fetch(j, None))
    case GetCache(j, key) =>
      if ok && key in w.cache then Some(StatOutput(j, key, w.cache[key])) else Some(Fetch(j, Some(key)))
    case StatOutput(j, key, from) =>
      if ok && from in w.outputs then Some(CopyOutput(j, key, from)) else Some(Fetch(j, Some(key)))
    case CopyOutput(j, key, from) =>
      if ok && from in w.outputs then Some(RecordCopy(j, key, OutKey(j, from.name))) else Some(Fetch(j, Some(key)))
    case RecordCopy(j, key, _) => if ok then None else Some(Fetch(j, Some(key)))
    case Fetch(j, slot) =>
      if ok && InputsPresent(w, j) then Some(Store(j, slot, Staged(InputsOf(p, w.uploaded, w.jobs[j].keys)))) else None
    case Store(j, slot, inputs) =>
      if ok && Converts(p, w, j, inputs).Some? then Some(Record(j, slot, OutKey(j, name))) else None
    case Record(j, slot, out) => if ok then Some(SetCache(j, slot, out)) else None
    case SetCache(_, _, _) => None
  }

  /** The converter, run on what was fetched. */
  function Converts(p: Platform, w: World, j: JobId, inputs: seq<Input>): Option<string>
    requires j in w.jobs
  {
    p.convert(w.jobs[j].tool, UsedOptions(p, w.jobs[j].options), inputs)
  }

  function NextOutputs(p: Platform, w: World, v: Handler, name: string, ok: bool): map<OutKey, string>
    requires v.job in w.jobs
  {
    match v
    case CopyOutput(j, _, from) =>
      if ok && from in w.outputs then w.outputs[OutKey(j, from.name) := w.outputs[from]] else w.outputs
    case Store(j, _, inputs) =>
      if ok && Converts(p, w, j, inputs).Some? then w.outputs[OutKey(j, name) := Converts(p, w, j, inputs).value]
      else w.outputs
    case _ => w.outputs
  }

  function NextCache(cache: map<string, OutKey>, v: Handler, ok: bool): map<string, OutKey> {
    if v.SetCache? && v.slot.Some? && ok then cache[v.slot.value := v.out] else cache
  }

  function RunHandler(p: Platform, w: World, h: nat, name: string, ok: bool): World
    requires h in w.handlers && w.handlers[h].job in w.jobs && InputsKnown(w, w.jobs[w.handlers[h].job])
  {
    var v := w.handlers[h];
    var next := NextHandler(p, w, v, name, ok);
    w.(handlers := if next.Some? then w.handlers[h := next.value] else w.handlers - {h},
       outputs := NextOutputs(p, w, v, name, ok),
       cache := NextCache(w.cache, v, ok),
       recorded := if (v.RecordCopy? || v.Record?) && ok then w.recorded[v.job := v.out] else w.recorded)
  }

  predicate Legal(p: Platform, w: World, steps: seq<Step>)
    decreases |steps|
  {
    steps == [] || (Enabled(w, steps[0]) && Legal(p, Apply(p, w, steps[0]), steps[1..]))
  }

  function Exec(p: Platform, w: World, steps: seq<Step>): World
    requires Legal(p, w, steps)
    decreases |steps|
  {
    if steps == [] then w else Exec(p, Apply(p, w, steps[0]), steps[1..])
  }

  /** Runs over a set of jobs whose input keys are only ever given these contents. */
  ghost predicate From(store: map<string, string>, specs: iset<Job>, steps: seq<Step>) {
    forall i :: 0 <= i < |steps| ==>
      && (steps[i].Upload? ==> steps[i].key in store && steps[i].content == store[steps[i].key])
      && (steps[i].AddJob? ==> steps[i].spec in specs)
  }

  ghost predicate Reachable(p: Platform, store: map<string, string>, specs: iset<Job>, w: World) {
    exists steps :: Legal(p, Empty, steps) && From(store, specs, steps) && Exec(p, Empty, steps) == w
  }

  ghost predicate Keyed(store: map<string, string>, specs: iset<Job>) {
    forall a, k :: a in specs && k in a.keys ==> k in store
  }

  /** Jobs with one cache key have one result, if one of them has any. */
  ghost predicate Compatible(p: Platform, store: map<string, string>, specs: iset<Job>)
    requires Keyed(store, specs)
  {
    forall a, b :: a in specs && b in specs ==>
      var x, y := PayloadOf(p, store, a), PayloadOf(p, store, b);
      KeyOf(p, x) == KeyOf(p, y) && Result(p, x).Some? ==> Result(p, y) == Result(p, x)
  }

  // ------------------------------------------------------------ Invariant

  type Jobs = map<JobId, Job>

  ghost predicate Known(store: map<string, string>, specs: iset<Job>, jobs: Jobs, j: JobId) {
    Keyed(store, specs) && j in jobs && jobs[j] in specs
  }

  ghost predicate KeyIs(p: Platform, store: map<string, string>, specs: iset<Job>, jobs: Jobs, j: JobId, key: string) {
    Known(store, specs, jobs, j) && key == KeyOf(p, PayloadOf(p, store, jobs[j]))
  }

  ghost predicate HandlerOk(p: Platform, store: map<string, string>, specs: iset<Job>, jobs: Jobs, v: Handler) {
    Known(store, specs, jobs, v.job) &&
    match v
    case GetCache(j, key) => KeyIs(p, store, specs, jobs, j, key)
    case StatOutput(j, key, from) => KeyIs(p, store, specs, jobs, j, key) && KeyIs(p, store, specs, jobs, from.job, key)
    case CopyOutput(j, key, from) => KeyIs(p, store, specs, jobs, j, key) && KeyIs(p, store, specs, jobs, from.job, key)
    case RecordCopy(j, key, out) => KeyIs(p, store, specs, jobs, j, key) && out.job == j
    case Fetch(j, slot) => slot.Some? ==> KeyIs(p, store, specs, jobs, j, slot.value)
    case Store(j, slot, inputs) =>
      && (slot.Some? ==> KeyIs(p, store, specs, jobs, j, slot.value))
      && inputs == Staged(PayloadOf(p, store, jobs[j]).inputs)
    case Record(j, slot, out) => (slot.Some? ==> KeyIs(p, store, specs, jobs, j, slot.value)) && out.job == j
    case SetCache(j, slot, out) => (slot.Some? ==> KeyIs(p, store, specs, jobs, j, slot.value)) && out.job == j
    case _ => true
  }

  ghost predicate OutputsOk(p: Platform, store: map<string, string>, specs: iset<Job>, jobs: Jobs,
                            outputs: map<OutKey, string>)
  {
    forall out :: out in outputs ==>
      Known(store, specs, jobs, out.job) && Result(p, PayloadOf(p, store, jobs[out.job])) == Some(outputs[out])
  }

  ghost predicate CacheOk(p: Platform, store: map<string, string>, specs: iset<Job>, jobs: Jobs,
                          cache: map<string, OutKey>)
  {
    forall key :: key in cache ==> KeyIs(p, store, specs, jobs, cache[key].job, key)
  }

  /** What has been uploaded is what the store says. */
  ghost predicate UploadsOk(store: map<string, string>, uploaded: map<string, string>, jobs: Jobs) {
    && (forall k :: k in uploaded ==> k in store && uploaded[k] == store[k])
    && (forall j, k :: j in jobs && k in jobs[j].keys ==> k in uploaded)
  }

  ghost predicate JobsOk(store: map<string, string>, specs: iset<Job>, jobs: Jobs, recorded: map<JobId, OutKey>) {
    && (forall j :: j in jobs ==> Known(store, specs, jobs, j))
    && (forall j :: j in recorded ==> recorded[j].job == j)
  }

  ghost predicate HandlersOk(p: Platform, store: map<string, string>, specs: iset<Job>, jobs: Jobs,
                             handlers: map<nat, Handler>)
  {
    forall h :: h in handlers ==> HandlerOk(p, store, specs, jobs, handlers[h])
  }

  ghost predicate Inv(p: Platform, store: map<string, string>, specs: iset<Job>, w: World) {
    && UploadsOk(store, w.uploaded, w.jobs)
    && JobsOk(store, specs, w.jobs, w.recorded)
    && OutputsOk(p, store, specs, w.jobs, w.outputs)
    && CacheOk(p, store, specs, w.jobs, w.cache)
    && HandlersOk(p, store, specs, w.jobs, w.handlers)
  }

  lemma SamePayload(p: Platform, store: map<string, string>, w: World, j: JobId)
    requires UploadsOk(store, w.uploaded, w.jobs) && j in w.jobs
    ensures PayloadOf(p, w.uploaded, w.jobs[j]) == PayloadOf(p, store, w.jobs[j])
  {
    assert InputsKnown(w, w.jobs[j]);
    assert InputsOf(p, w.uploaded, w.jobs[j].keys) == InputsOf(p, store, w.jobs[j].keys);
  }

  lemma RunKeepsOutputs(p: Platform, store: map<string, string>, specs: iset<Job>, w: World, v: Handler, name: string,
                        ok: bool)
    requires Keyed(store, specs) && Compatible(p, store, specs) && OutputsOk(p, store, specs, w.jobs, w.outputs)
    requires HandlerOk(p, store, specs, w.jobs, v)
    ensures OutputsOk(p, store, specs, w.jobs, NextOutputs(p, w, v, name, ok))
  {
  }

  lemma RunKeepsHandler(p: Platform, store: map<string, string>, specs: iset<Job>, w: World, v: Handler, name: string,
                        ok: bool)
    requires UploadsOk(store, w.uploaded, w.jobs) && CacheOk(p, store, specs, w.jobs, w.cache)
    requires HandlerOk(p, store, specs, w.jobs, v)
    ensures var next := NextHandler(p, w, v, name, ok);
            next.Some? ==> HandlerOk(p, store, specs, w.jobs, next.value)
  {
    SamePayload(p, store, w, v.job);
  }

  lemma RunKeepsCache(p: Platform, store: map<string, string>, specs: iset<Job>, jobs: Jobs, cache: map<string, OutKey>,
                      v: Handler, ok: bool)
    requires CacheOk(p, store, specs, jobs, cache) && HandlerOk(p, store, specs, jobs, v)
    ensures CacheOk(p, store, specs, jobs, NextCache(cache, v, ok))
  {
  }

  lemma RunKeepsInv(p: Platform, store: map<string, string>, specs: iset<Job>, w: World, h: nat, name: string, ok: bool)
    requires Keyed(store, specs) && Compatible(p, store, specs) && Inv(p, store, specs, w)
    requires Enabled(w, Run(h, name, ok))
    ensures Inv(p, store, specs, RunHandler(p, w, h, name, ok))
  {
    var w' := RunHandler(p, w, h, name, ok);
    assert HandlerOk(p, store, specs, w.jobs, w.handlers[h]);
    RunKeepsOutputs(p, store, specs, w, w.handlers[h], name, ok);
    RunKeepsCache(p, store, specs, w.jobs, w.cache, w.handlers[h], ok);
    RunKeepsHandler(p, store, specs, w, w.handlers[h], name, ok);
    assert HandlersOk(p, store, specs, w'.jobs, w'.handlers);
  }

  lemma MoreJobs(p: Platform, store: map<string, string>, specs: iset<Job>, jobs: Jobs, j: JobId, spec: Job,
                 outputs: map<OutKey, string>, cache: map<string, OutKey>)
    requires j !in jobs && OutputsOk(p, store, specs, jobs, outputs) && CacheOk(p, store, specs, jobs, cache)
    ensures OutputsOk(p, store, specs, jobs[j := spec], outputs) && CacheOk(p, store, specs, jobs[j := spec], cache)
  {
  }

  lemma MoreJobsForHandler(p: Platform, store: map<string, string>, specs: iset<Job>, jobs: Jobs, j: JobId, spec: Job,
                           v: Handler)
    requires j !in jobs && HandlerOk(p, store, specs, jobs, v)
    ensures HandlerOk(p, store, specs, jobs[j := spec], v)
  {
  }

  lemma AddJobKeepsInv(p: Platform, store: map<string, string>, specs: iset<Job>, w: World, j: JobId, spec: Job)
    requires Keyed(store, specs) && Inv(p, store, specs, w) && Enabled(w, AddJob(j, spec)) && spec in specs
    ensures Inv(p, store, specs, w.(jobs := w.jobs[j := spec]))
  {
    MoreJobs(p, store, specs, w.jobs, j, spec, w.outputs, w.cache);
    assert HandlersOk(p, store, specs, w.jobs[j := spec], w.handlers) by {
      forall h | h in w.handlers
        ensures HandlerOk(p, store, specs, w.jobs[j := spec], w.handlers[h])
      {
        MoreJobsForHandler(p, store, specs, w.jobs, j, spec, w.handlers[h]);
      }
    }
  }

  lemma UploadsGrow(store: map<string, string>, uploaded: map<string, string>, jobs: Jobs, k: string)
    requires UploadsOk(store, uploaded, jobs) && k in store
    ensures UploadsOk(store, uploaded[k := store[k]], jobs)
  {
  }

  lemma UploadKeepsInv(p: Platform, store: map<string, string>, specs: iset<Job>, w: World, k: string)
    requires Inv(p, store, specs, w) && k in store && k !in w.uploaded
    ensures Inv(p, store, specs, w.(uploaded := w.uploaded[k := store[k]], uploads := w.uploads + {k}))
  {
    UploadsGrow(store, w.uploaded, w.jobs, k);
  }

  /** Deletions and expiry. */
  lemma DropsKeepInv(p: Platform, store: map<string, string>, specs: iset<Job>, w: World, uploads: set<string>,
                     outputs: map<OutKey, string>, cache: map<string, OutKey>)
    requires Inv(p, store, specs, w)
    requires forall out :: out in outputs ==> out in w.outputs && w.outputs[out] == outputs[out]
    requires forall key :: key in cache ==> key in w.cache && w.cache[key] == cache[key]
    ensures Inv(p, store, specs, w.(uploads := uploads, outputs := outputs, cache := cache))
  {
  }

  lemma StartKeepsInv(p: Platform, store: map<string, string>, specs: iset<Job>, w: World, h: nat, j: JobId)
    requires Inv(p, store, specs, w) && Enabled(w, Start(h, j))
    ensures Inv(p, store, specs, w.(handlers := w.handlers[h := StatInputs(j)]))
  {
  }

  lemma StepKeepsInv(p: Platform, store: map<string, string>, specs: iset<Job>, w: World, step: Step)
    requires Keyed(store, specs) && Compatible(p, store, specs) && Inv(p, store, specs, w) && Enabled(w, step)
    requires From(store, specs, [step])
    ensures Inv(p, store, specs, Apply(p, w, step))
  {
    assert [step][0] == step;
    match step
    case Run(h, name, ok) => RunKeepsInv(p, store, specs, w, h, name, ok);
    case AddJob(j, spec) => AddJobKeepsInv(p, store, specs, w, j, spec);
    case Start(h, j) => StartKeepsInv(p, store, specs, w, h, j);
    case Upload(k, _) => UploadKeepsInv(p, store, specs, w, k);
    case DropUpload(k) => DropsKeepInv(p, store, specs, w, w.uploads - {k}, w.outputs, w.cache);
    case DropOutput(out) => DropsKeepInv(p, store, specs, w, w.uploads, w.outputs - {out}, w.cache);
    case ExpireCache(k) => DropsKeepInv(p, store, specs, w, w.uploads, w.outputs, w.cache - {k});
  }

  lemma {:induction false} RunsKeepInv(p: Platform, store: map<string, string>, specs: iset<Job>, w: World,
                                       steps: seq<Step>)
    requires Keyed(store, specs) && Compatible(p, store, specs) && Inv(p, store, specs, w)
    requires Legal(p, w, steps) && From(store, specs, steps)
    ensures Inv(p, store, specs, Exec(p, w, steps))
    decreases |steps|
  {
    if steps != [] {
      StepKeepsInv(p, store, specs, w, steps[0]);
      RunsKeepInv(p, store, specs, Apply(p, w, steps[0]), steps[1..]);
    }
  }

  lemma InvHolds(p: Platform, store: map<string, string>, specs: iset<Job>, w: World)
    requires Keyed(store, specs) && Compatible(p, store, specs) && Reachable(p, store, specs, w)
    ensures Inv(p, store, specs, w)
  {
    var steps :| Legal(p, Empty, steps) && From(store, specs, steps) && Exec(p, Empty, steps) == w;
    RunsKeepInv(p, store, specs, Empty, steps);
  }

  // ------------------------------------------------------------ Transparency

  /** Every recorded output that exists, copied or converted, is what converting its job's inputs gives. */
  ghost predicate Transparent(p: Platform, store: map<string, string>, specs: iset<Job>, w: World)
    requires Keyed(store, specs)
  {
    forall j :: j in w.recorded && w.recorded[j] in w.outputs ==>
      && j in w.jobs && w.jobs[j] in specs
      && Result(p, PayloadOf(p, store, w.jobs[j])) == Some(w.outputs[w.recorded[j]])
  }

  /** A copy that a cache hit makes is, when it is made, the job's own result: the hit changes nothing but the time it
      takes. */
  lemma CacheHitIsTransparent(p: Platform, store: map<string, string>, specs: iset<Job>, w: World, h: nat, name: string)
    requires Keyed(store, specs) && Compatible(p, store, specs) && Reachable(p, store, specs, w)
    requires Enabled(w, Run(h, name, true)) && w.handlers[h].CopyOutput? && w.handlers[h].from in w.outputs
    ensures var v := w.handlers[h];
            var w', out := RunHandler(p, w, h, name, true), OutKey(v.job, v.from.name);
            && w'.handlers[h] == RecordCopy(v.job, v.key, out) && out in w'.outputs
            && w.jobs[v.job] in specs && Result(p, PayloadOf(p, store, w.jobs[v.job])) == Some(w'.outputs[out])
  {
    InvHolds(p, store, specs, w);
    assert HandlerOk(p, store, specs, w.jobs, w.handlers[h]);
    RunKeepsOutputs(p, store, specs, w, w.handlers[h], name, true);
  }

  // ------------------------------------------------------------ A run in which one job is served another's output

  lemma {:induction false} RunSnoc(p: Platform, w: World, steps: seq<Step>, step: Step)
    requires Legal(p, w, steps) && Enabled(Exec(p, w, steps), step)
    ensures Legal(p, w, steps + [step]) && Exec(p, w, steps + [step]) == Apply(p, Exec(p, w, steps), step)
    decreases |steps|
  {
    if steps == [] {
      assert [step][1..] == [];
    } else {
      RunSnoc(p, Apply(p, w, steps[0]), steps[1..], step);
      assert (steps + [step])[1..] == steps[1..] + [step];
    }
  }

  lemma Then(p: Platform, store: map<string, string>, specs: iset<Job>, w: World, step: Step) returns (w': World)
    requires Reachable(p, store, specs, w) && Enabled(w, step)
    requires step.Upload? ==> step.key in store && step.content == store[step.key]
    requires step.AddJob? ==> step.spec in specs
    ensures w' == Apply(p, w, step) && Reachable(p, store, specs, w')
  {
    var steps :| Legal(p, Empty, steps) && From(store, specs, steps) && Exec(p, Empty, steps) == w;
    RunSnoc(p, Empty, steps, step);
    assert From(store, specs, steps + [step]);
    w' := Apply(p, w, step);
  }

  lemma Restricted(store: map<string, string>, keys: set<string>, k: string)
    requires keys <= store.Keys && k in keys
    ensures (map x | x in keys :: store[x]) == (map x | x in keys - {k} :: store[x])[k := store[k]]
  {
  }

  /** Everything is uploaded. */
  lemma {:induction false} UploadAll(p: Platform, store: map<string, string>, specs: iset<Job>, keys: set<string>)
    ensures keys <= store.Keys ==>
              var some := map k | k in keys :: store[k];
              Reachable(p, store, specs, World(some, keys, map[], map[], map[], map[], map[]))
    decreases keys
  {
    if keys == {} {
      assert Legal(p, Empty, []) && From(store, specs, []) && Exec(p, Empty, []) == Empty;
    } else if keys <= store.Keys {
      var k :| k in keys;
      UploadAll(p, store, specs, keys - {k});
      var some := map x | x in keys - {k} :: store[x];
      Restricted(store, keys, k);
      var w' := Then(p, store, specs, World(some, keys - {k}, map[], map[], map[], map[], map[]), Upload(k, store[k]));
      assert keys - {k} + {k} == keys;
    }
  }

  /** Two jobs wait, with all their inputs. */
  ghost predicate Both(p: Platform, store: map<string, string>, specs: iset<Job>, a: Job, b: Job, w: World) {
    && Reachable(p, store, specs, w) && Keyed(store, specs) && a in specs && b in specs
    && w.uploaded == store && w.uploads == store.Keys && w.jobs == map[0 := a, 1 := b]
  }

  lemma BothWait(p: Platform, store: map<string, string>, specs: iset<Job>, a: Job, b: Job) returns (w: World)
    requires Keyed(store, specs) && a in specs && b in specs
    ensures Both(p, store, specs, a, b, w)
    ensures w.outputs == map[] && w.cache == map[] && w.handlers == map[] && w.recorded == map[]
  {
    UploadAll(p, store, specs, store.Keys);
    assert (map k | k in store.Keys :: store[k]) == store;
    w := Then(p, store, specs, World(store, store.Keys, map[], map[], map[], map[], map[]), AddJob(0, a));
    w := Then(p, store, specs, w, AddJob(1, b));
  }

  /** One call of the only handler, h, that goes well. */
  lemma Call(p: Platform, store: map<string, string>, specs: iset<Job>, a: Job, b: Job, w: World, h: nat, v: Handler)
    returns (w': World)
    requires Both(p, store, specs, a, b, w) && w.handlers == map[h := v] && v.job in w.jobs
    ensures Both(p, store, specs, a, b, w')
    ensures InputsKnown(w, w.jobs[v.job])
    ensures var next := NextHandler(p, w, v, "out", true);
            w'.handlers == if next.Some? then map[h := next.value] else map[]
    ensures w'.outputs == NextOutputs(p, w, v, "out", true) && w'.cache == NextCache(w.cache, v, true)
    ensures w'.recorded == if v.RecordCopy? || v.Record? then w.recorded[v.job := v.out] else w.recorded
  {
    w' := Then(p, store, specs, w, Run(h, "out", true));
    assert w' == RunHandler(p, w, h, "out", true);
    OneHandler(h, v, NextHandler(p, w, v, "out", true));
  }

  lemma OneHandler(h: nat, v: Handler, next: Option<Handler>)
    ensures (if next.Some? then map[h := v][h := next.value] else map[h := v] - {h})
            == if next.Some? then map[h := next.value] else map[]
  {
  }

  /** The first job looks in vain for its key and gets as far as its conversion. */
  lemma FirstFetches(p: Platform, store: map<string, string>, specs: iset<Job>, a: Job, b: Job, w: World)
    returns (w': World)
    requires Both(p, store, specs, a, b, w)
    requires w.outputs == map[] && w.cache == map[] && w.handlers == map[] && w.recorded == map[]
    ensures Both(p, store, specs, a, b, w') && w'.outputs == map[] && w'.cache == map[] && w'.recorded == map[]
    ensures var x := PayloadOf(p, store, a); w'.handlers == map[0 := Store(0, Some(KeyOf(p, x)), Staged(x.inputs))]
  {
    var key := KeyOf(p, PayloadOf(p, store, a));
    w' := Then(p, store, specs, w, Start(0, 0));
    w' := Call(p, store, specs, a, b, w', 0, StatInputs(0));
    w' := Call(p, store, specs, a, b, w', 0, GetCache(0, key));
    w' := Call(p, store, specs, a, b, w', 0, Fetch(0, Some(key)));
  }

  /** It converts, and its output is cached. */
  lemma FirstConverts(p: Platform, store: map<string, string>, specs: iset<Job>, a: Job, b: Job) returns (w: World)
    requires Keyed(store, specs) && a in specs && b in specs && Result(p, PayloadOf(p, store, a)).Some?
    ensures Both(p, store, specs, a, b, w) && w.handlers == map[]
    ensures w.outputs == map[OutKey(0, "out") := Result(p, PayloadOf(p, store, a)).value]
    ensures w.cache == map[KeyOf(p, PayloadOf(p, store, a)) := OutKey(0, "out")]
  {
    var x := PayloadOf(p, store, a);
    var key, out := KeyOf(p, x), OutKey(0, "out");
    w := BothWait(p, store, specs, a, b);
    w := FirstFetches(p, store, specs, a, b, w);
    w := Call(p, store, specs, a, b, w, 0, Store(0, Some(key), Staged(x.inputs)));
    w := Call(p, store, specs, a, b, w, 0, Record(0, Some(key), out));
    w := Call(p, store, specs, a, b, w, 0, SetCache(0, Some(key), out));
  }

  /** The second has the same key and is given the first one's output. */
  lemma SecondIsServed(p: Platform, store: map<string, string>, specs: iset<Job>, a: Job, b: Job) returns (w: World)
    requires Keyed(store, specs) && a in specs && b in specs && Result(p, PayloadOf(p, store, a)).Some?
    requires KeyOf(p, PayloadOf(p, store, a)) == KeyOf(p, PayloadOf(p, store, b))
    ensures Both(p, store, specs, a, b, w) && 1 in w.recorded && w.recorded[1] == OutKey(1, "out")
    ensures OutKey(1, "out") in w.outputs
    ensures w.outputs[OutKey(1, "out")] == Result(p, PayloadOf(p, store, a)).value
  {
    var key, from := KeyOf(p, PayloadOf(p, store, a)), OutKey(0, "out");
    w := FirstConverts(p, store, specs, a, b);
    w := Then(p, store, specs, w, Start(1, 1));
    w := Call(p, store, specs, a, b, w, 1, StatInputs(1));
    w := Call(p, store, specs, a, b, w, 1, GetCache(1, key));
    w := Call(p, store, specs, a, b, w, 1, StatOutput(1, key, from));
    w := Call(p, store, specs, a, b, w, 1, CopyOutput(1, key, from));
    w := Call(p, store, specs, a, b, w, 1, RecordCopy(1, key, OutKey(1, "out")));
  }

  /** In every run over these jobs, with conversions, copies, deletions and expiry interleaved, every recorded output is
      its job's own result, exactly if jobs with one cache key have one result. */
  lemma RecordedOutputIsResultIff(p: Platform, store: map<string, string>, specs: iset<Job>)
    requires Keyed(store, specs)
    ensures (forall w :: Reachable(p, store, specs, w) ==> Transparent(p, store, specs, w))
            <==> Compatible(p, store, specs)
  {
    if Compatible(p, store, specs) {
      forall w | Reachable(p, store, specs, w)
        ensures Transparent(p, store, specs, w)
      {
        InvHolds(p, store, specs, w);
      }
    } else {
      var a, b :| a in specs && b in specs && KeyOf(p, PayloadOf(p, store, a)) == KeyOf(p, PayloadOf(p, store, b))
                  && Result(p, PayloadOf(p, store, a)).Some?
                  && Result(p, PayloadOf(p, store, b)) != Result(p, PayloadOf(p, store, a));
      var w := SecondIsServed(p, store, specs, a, b);
      assert w.jobs[1] == b;
    }
  }

  /** So it is for tools that mind neither the order nor the names of their inputs, if inputs can be told apart. */
  lemma BlindToolsAreCompatible(p: Platform, store: map<string, string>, specs: iset<Job>)
    requires Faithful(p) && Keyed(store, specs)
    requires forall a :: a in specs ==>
               var x := PayloadOf(p, store, a); Sound(x) && Apart(x.inputs) && Blind(p, x.tool, |x.inputs|)
    ensures Compatible(p, store, specs)
  {
    forall a, b | a in specs && b in specs && KeyOf(p, PayloadOf(p, store, a)) == KeyOf(p, PayloadOf(p, store, b))
      ensures Result(p, PayloadOf(p, store, b)) == Result(p, PayloadOf(p, store, a))
    {
      var x, y := PayloadOf(p, store, a), PayloadOf(p, store, b);
      KeysAgree(p, x, y);
      assert |multiset(Contents(x.inputs))| == |x.inputs| && |multiset(Contents(y.inputs))| == |y.inputs|;
      BlindIsEnough(p, x.tool, |x.inputs|, x, y);
    }
  }
}
