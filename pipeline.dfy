/**
 * The pipeline builder: a configuration document becomes an ordered list of
 * stages, each an ordered list of jobs, each job bound to a module.
 *
 * The document keeps the order in which stages, job specs and entries are
 * listed; every result below is stated relative to that order. The module
 * registry is a parameter that maps a module name to its `Bind` function; the
 * callable it produces is the opaque type parameter `C`.
 */
module Pipelines {
  import opened Wrappers

  /** A module's free-form parameters, opaque to the builder. */
  type Params = map<string, string>

  /** The value of a job-spec entry: a string or a parameter mapping. */
  datatype Value = Text(text: string) | Table(params: Params)

  datatype Entry = Entry(key: string, value: Value)

  /** One job spec: its entries in document order. */
  type JobSpec = seq<Entry>

  datatype StageSpec = StageSpec(name: string, jobs: seq<JobSpec>)

  /** The configuration document: stage names with their job specs, in order. */
  type Document = seq<StageSpec>

  /** The module registry: a known module name maps to that module's `Bind`. */
  type Registry<C> = map<string, Params -> Result<C, Error>>

  /** A job; `callable` (Go's `module` field) is `None` while no module entry has been bound (Go's nil). */
  datatype Job<C> = Job(name: string, callable: Option<C>)

  datatype Stage<C> = Stage(name: string, jobs: seq<Job<C>>)

  datatype Pipeline<C> = Pipeline(stages: seq<Stage<C>>)

  /**
   * Why a build stops: a known module's `Bind` failed (the error is returned),
   * or a type assertion on an entry's value failed (a Go panic).
   */
  datatype Failure = BindFailed(err: Error) | Panicked(key: string)

  /** Where the binding of one job spec stands. */
  datatype JobState<C> = Binding(job: Job<C>) | Dropped | Aborted(failure: Failure)

  /** The reserved key that sets a job's display name. */
  const NameKey: string := "name"

  // ---------------------------------------------------------------------------
  // Specification: the builder as folds over prefixes, entry by entry.
  // ---------------------------------------------------------------------------

  /** The effect of one entry on the job being built (the body of the `switch`). */
  function Apply<C>(job: Job<C>, e: Entry, reg: Registry<C>): JobState<C>
  {
    if e.key == NameKey then
      if e.value.Text? then Binding(job.(name := e.value.text)) else Aborted(Panicked(e.key))
    else if e.key !in reg then Dropped
    else if !e.value.Table? then Aborted(Panicked(e.key))
    else match reg[e.key](e.value.params)
      case Ok(c) => Binding(job.(callable := Some(c)))
      case Err(err) => Aborted(BindFailed(err))
  }

  /** Binding a whole job spec: a fresh job, then each entry in turn until one stops it. */
  function BindJob<C>(spec: JobSpec, reg: Registry<C>): JobState<C>
    decreases |spec|
  {
    if spec == [] then Binding(Job("", None))
    else match BindJob(spec[..|spec| - 1], reg)
      case Binding(job) => Apply(job, spec[|spec| - 1], reg)
      case stopped => stopped
  }

  /** The jobs of one stage; kept jobs are appended, dropped ones skipped. */
  function BuildJobs<C>(specs: seq<JobSpec>, reg: Registry<C>): Result<seq<Job<C>>, Failure>
    decreases |specs|
  {
    if specs == [] then Ok([])
    else match BuildJobs(specs[..|specs| - 1], reg)
      case Err(f) => Err(f)
      case Ok(jobs) =>
        match BindJob(specs[|specs| - 1], reg)
        case Binding(job) => Ok(jobs + [job])
        case Dropped => Ok(jobs)
        case Aborted(f) => Err(f)
  }

  /** The stages of the document, one per stage spec. */
  function BuildStages<C>(doc: Document, reg: Registry<C>): Result<seq<Stage<C>>, Failure>
    decreases |doc|
  {
    if doc == [] then Ok([])
    else match BuildStages(doc[..|doc| - 1], reg)
      case Err(f) => Err(f)
      case Ok(stages) =>
        match BuildJobs(doc[|doc| - 1].jobs, reg)
        case Err(f) => Err(f)
        case Ok(jobs) => Ok(stages + [Stage(doc[|doc| - 1].name, jobs)])
  }

  function Build<C>(doc: Document, reg: Registry<C>): Result<Pipeline<C>, Failure>
  {
    match BuildStages(doc, reg)
    case Ok(stages) => Ok(Pipeline(stages))
    case Err(f) => Err(f)
  }

  // ---------------------------------------------------------------------------
  // The builder itself: three nested loops, as in the source.
  // ---------------------------------------------------------------------------

  /**
   * Builds the pipeline of `doc`. A failed `Bind` returns that error and no
   * pipeline; a failed type assertion is reported as `Panicked`.
   */
  method NewPipeline<C>(doc: Document, reg: Registry<C>) returns (r: Result<Pipeline<C>, Failure>)
    ensures r == Build(doc, reg)
  {
    var stages: seq<Stage<C>> := [];
    for s := 0 to |doc|
      invariant BuildStages(doc[..s], reg) == Ok(stages)
    {
      var specs := doc[s].jobs;
      var jobs: seq<Job<C>> := [];
      label Jobs:
      for j := 0 to |specs|
        invariant BuildJobs(specs[..j], reg) == Ok(jobs)
      {
        var spec := specs[j];
        var job: Job<C> := Job("", None);
        for k := 0 to |spec|
          invariant BindJob(spec[..k], reg) == Binding(job)
        {
          var e := spec[k];
          assert spec[..k + 1][..k] == spec[..k];
          if e.key == NameKey {
            if !e.value.Text? {
              // `v.(string)` panics
              r := Err(Panicked(e.key));
              EntryDecides(spec, k, reg);
              AbortPropagates(doc, s, j, reg);
              return;
            }
            job := job.(name := e.value.text);
          } else {
            if e.key !in reg {
              // an unknown module drops the whole job: `continue jobs`
              EntryDecides(spec, k, reg);
              assert specs[..j + 1][..j] == specs[..j];
              continue Jobs;
            }
            if !e.value.Table? {
              // `v.(map[string]interface{})` panics
              r := Err(Panicked(e.key));
              EntryDecides(spec, k, reg);
              AbortPropagates(doc, s, j, reg);
              return;
            }
            var bound := reg[e.key](e.value.params);
            if bound.Err? {
              r := Err(BindFailed(bound.error));
              EntryDecides(spec, k, reg);
              AbortPropagates(doc, s, j, reg);
              return;
            }
            job := job.(callable := Some(bound.value));
          }
        }
        assert spec[..|spec|] == spec;
        assert specs[..j + 1][..j] == specs[..j];
        jobs := jobs + [job];
      }
      assert specs[..|specs|] == specs;
      assert doc[..s + 1][..s] == doc[..s];
      stages := stages + [Stage(doc[s].name, jobs)];
    }
    assert doc[..|doc|] == doc;
    r := Ok(Pipeline(stages));
  }

  // ---------------------------------------------------------------------------
  // Proof helpers for the loops: once a job spec, a stage or the document has
  // stopped, what follows does not change the outcome.
  // ---------------------------------------------------------------------------

  /** Once binding a job spec has stopped, later entries are never looked at. */
  lemma {:induction false} BindJobStops<C>(a: JobSpec, b: JobSpec, reg: Registry<C>)
    requires !BindJob(a, reg).Binding?
    ensures BindJob(a + b, reg) == BindJob(a, reg)
    decreases |b|
  {
    if b != [] {
      var b' := b[..|b| - 1];
      assert (a + b)[..|a + b| - 1] == a + b';
      BindJobStops(a, b', reg);
    } else {
      assert a + b == a;
    }
  }

  /** Once a stage has failed, its later job specs are never looked at. */
  lemma {:induction false} BuildJobsStops<C>(a: seq<JobSpec>, b: seq<JobSpec>, reg: Registry<C>)
    requires BuildJobs(a, reg).Err?
    ensures BuildJobs(a + b, reg) == BuildJobs(a, reg)
    decreases |b|
  {
    if b != [] {
      var b' := b[..|b| - 1];
      assert (a + b)[..|a + b| - 1] == a + b';
      BuildJobsStops(a, b', reg);
    } else {
      assert a + b == a;
    }
  }

  /** Once a stage has failed, later stages are never looked at. */
  lemma {:induction false} BuildStagesStops<C>(a: Document, b: Document, reg: Registry<C>)
    requires BuildStages(a, reg).Err?
    ensures BuildStages(a + b, reg) == BuildStages(a, reg)
    decreases |b|
  {
    if b != [] {
      var b' := b[..|b| - 1];
      assert (a + b)[..|a + b| - 1] == a + b';
      BuildStagesStops(a, b', reg);
    } else {
      assert a + b == a;
    }
  }

  /** An entry that stops the binding decides the whole job spec. */
  lemma EntryDecides<C>(spec: JobSpec, k: nat, reg: Registry<C>)
    requires k < |spec| && BindJob(spec[..k], reg).Binding?
    requires !Apply(BindJob(spec[..k], reg).job, spec[k], reg).Binding?
    ensures BindJob(spec, reg) == Apply(BindJob(spec[..k], reg).job, spec[k], reg)
  {
    assert spec[..k + 1][..k] == spec[..k];
    BindJobStops(spec[..k + 1], spec[k + 1..], reg);
    assert spec[..k + 1] + spec[k + 1..] == spec;
  }

  /** A job spec that aborts aborts its stage. */
  lemma StageAborts<C>(specs: seq<JobSpec>, j: nat, reg: Registry<C>)
    requires j < |specs| && BuildJobs(specs[..j], reg).Ok? && BindJob(specs[j], reg).Aborted?
    ensures BuildJobs(specs, reg) == Err(BindJob(specs[j], reg).failure)
  {
    assert specs[..j + 1][..j] == specs[..j];
    assert specs[..j + 1] + specs[j + 1..] == specs;
    BuildJobsStops(specs[..j + 1], specs[j + 1..], reg);
  }

  /** A job spec that aborts aborts its stage and the whole build. */
  lemma AbortPropagates<C>(doc: Document, s: nat, j: nat, reg: Registry<C>)
    requires s < |doc| && j < |doc[s].jobs|
    requires BuildStages(doc[..s], reg).Ok? && BuildJobs(doc[s].jobs[..j], reg).Ok?
    requires BindJob(doc[s].jobs[j], reg).Aborted?
    ensures Build(doc, reg) == Err(BindJob(doc[s].jobs[j], reg).failure)
  {
    StageAborts(doc[s].jobs, j, reg);
    assert doc[..s + 1][..s] == doc[..s];
    assert doc[..s + 1] + doc[s + 1..] == doc;
    BuildStagesStops(doc[..s + 1], doc[s + 1..], reg);
  }

  // ---------------------------------------------------------------------------
  // What the builder promises, against reference definitions.
  // ---------------------------------------------------------------------------

  /** An entry that lets binding go on: a string `name`, or a known module that binds. */
  predicate Fine<C>(e: Entry, reg: Registry<C>)
  {
    if e.key == NameKey then e.value.Text?
    else e.key in reg && e.value.Table? && reg[e.key](e.value.params).Ok?
  }

  /** What an entry that is not fine does to its job spec, whatever came before it. */
  function Fault<C>(e: Entry, reg: Registry<C>): (st: JobState<C>)
    requires !Fine(e, reg)
    ensures !st.Binding?
  {
    if e.key == NameKey || (e.key in reg && !e.value.Table?) then Aborted(Panicked(e.key))
    else if e.key !in reg then Dropped
    else Aborted(BindFailed(reg[e.key](e.value.params).error))
  }

  /**
   * A job spec is kept exactly when every entry is fine; the first entry that
   * is not fine decides whether the job is dropped or the build aborted.
   */
  lemma {:induction false} BindJobOutcome<C>(spec: JobSpec, reg: Registry<C>)
    ensures BindJob(spec, reg).Binding? <==> forall i :: 0 <= i < |spec| ==> Fine(spec[i], reg)
    ensures forall k :: 0 <= k < |spec| && !Fine(spec[k], reg) && (forall i :: 0 <= i < k ==> Fine(spec[i], reg)) ==>
      BindJob(spec, reg) == Fault(spec[k], reg)
    decreases |spec|
  {
    if spec != [] {
      var n := |spec| - 1;
      var front := spec[..n];
      BindJobOutcome(front, reg);
      assert forall i :: 0 <= i < n ==> front[i] == spec[i];
      if !BindJob(front, reg).Binding? {
        var k :| 0 <= k < n && !Fine(front[k], reg);
        FirstFault(front, k, reg);
      }
    }
  }

  /** Some entry that is not fine has a first one. */
  lemma {:induction false} FirstFault<C>(spec: JobSpec, k: nat, reg: Registry<C>)
    requires k < |spec| && !Fine(spec[k], reg)
    ensures exists m :: 0 <= m <= k && !Fine(spec[m], reg) && forall i :: 0 <= i < m ==> Fine(spec[i], reg)
    decreases k
  {
    if exists m :: 0 <= m < k && !Fine(spec[m], reg) {
      var m :| 0 <= m < k && !Fine(spec[m], reg);
      FirstFault(spec, m, reg);
    }
  }

  /** Entry `k` is the last `name` entry of the spec. */
  predicate LastName(spec: JobSpec, k: int)
  {
    0 <= k < |spec| && spec[k].key == NameKey && forall i :: k < i < |spec| ==> spec[i].key != NameKey
  }

  /** Entry `k` is the last module entry of the spec. */
  predicate LastModule(spec: JobSpec, k: int)
  {
    0 <= k < |spec| && spec[k].key != NameKey && forall i :: k < i < |spec| ==> spec[i].key == NameKey
  }

  /** A kept job takes its name from the last `name` entry, or "" when there is none. */
  lemma {:induction false} KeptJobName<C>(spec: JobSpec, reg: Registry<C>, job: Job<C>)
    requires BindJob(spec, reg) == Binding(job)
    ensures (forall i :: 0 <= i < |spec| ==> spec[i].key != NameKey) ==> job.name == ""
    ensures forall k :: LastName(spec, k) ==> spec[k].value == Text(job.name)
    decreases |spec|
  {
    if spec != [] {
      var n := |spec| - 1;
      var front := spec[..n];
      assert forall i :: 0 <= i < n ==> front[i] == spec[i];
      match BindJob(front, reg)
      case Binding(prev) =>
        KeptJobName(front, reg, prev);
        if spec[n].key != NameKey {
          forall k | LastName(spec, k) ensures spec[k].value == Text(job.name) {
            assert LastName(front, k);
          }
        }
    }
  }

  /** A kept job has no callable exactly when its spec has only `name` entries. */
  lemma {:induction false} KeptJobUnbound<C>(spec: JobSpec, reg: Registry<C>, job: Job<C>)
    requires BindJob(spec, reg) == Binding(job)
    ensures (forall i :: 0 <= i < |spec| ==> spec[i].key == NameKey) <==> job.callable == None
    decreases |spec|
  {
    if spec != [] {
      var n := |spec| - 1;
      var front := spec[..n];
      assert forall i :: 0 <= i < n ==> front[i] == spec[i];
      match BindJob(front, reg)
      case Binding(prev) => KeptJobUnbound(front, reg, prev);
    }
  }

  /** A kept job holds the callable that its last module entry's `Bind` returned. */
  lemma {:induction false} KeptJobCallable<C>(spec: JobSpec, reg: Registry<C>, job: Job<C>)
    requires BindJob(spec, reg) == Binding(job)
    ensures forall k :: LastModule(spec, k) ==>
      spec[k].key in reg && spec[k].value.Table? && job.callable.Some? &&
      reg[spec[k].key](spec[k].value.params) == Ok(job.callable.value)
    decreases |spec|
  {
    if spec != [] {
      var n := |spec| - 1;
      var front := spec[..n];
      match BindJob(front, reg)
      case Binding(prev) =>
        var e := spec[n];
        assert Apply(prev, e, reg) == Binding(job);
        if e.key == NameKey {
          KeptJobCallable(front, reg, prev);
          assert job.callable == prev.callable;
          forall k | LastModule(spec, k) ensures LastModule(front, k) {
            assert forall i :: k < i < n ==> front[i] == spec[i];
          }
        } else {
          assert e.key in reg && e.value.Table?;
          assert job.callable == Some(reg[e.key](e.value.params).value);
          assert forall k :: LastModule(spec, k) ==> k == n;
        }
    }
  }

  /** The job a single spec contributes to its stage: one if kept, none otherwise. */
  function KeptOne<C>(spec: JobSpec, reg: Registry<C>): seq<Job<C>>
  {
    match BindJob(spec, reg)
    case Binding(job) => [job]
    case _ => []
  }

  /** Reference definition of a stage's jobs: the kept ones, front to back. */
  function Kept<C>(specs: seq<JobSpec>, reg: Registry<C>): seq<Job<C>>
    decreases |specs|
  {
    if specs == [] then [] else KeptOne(specs[0], reg) + Kept(specs[1..], reg)
  }

  /** Keeping distributes over concatenation, so kept jobs stay in spec order. */
  lemma {:induction false} KeptAppend<C>(a: seq<JobSpec>, b: seq<JobSpec>, reg: Registry<C>)
    ensures Kept(a + b, reg) == Kept(a, reg) + Kept(b, reg)
    decreases |a|
  {
    if a != [] {
      assert (a + b)[0] == a[0];
      assert (a + b)[1..] == a[1..] + b;
      KeptAppend(a[1..], b, reg);
    } else {
      assert a + b == b;
    }
  }

  /** A stage never has more jobs than job specs; with every spec dropped, it has none. */
  lemma {:induction false} KeptBounds<C>(specs: seq<JobSpec>, reg: Registry<C>)
    ensures |Kept(specs, reg)| <= |specs|
    ensures (forall j :: 0 <= j < |specs| ==> BindJob(specs[j], reg).Dropped?) ==> Kept(specs, reg) == []
    ensures (forall j :: 0 <= j < |specs| ==> BindJob(specs[j], reg).Binding?) ==> |Kept(specs, reg)| == |specs|
    decreases |specs|
  {
    if specs != [] {
      KeptBounds(specs[1..], reg);
      assert forall j :: 0 <= j < |specs| - 1 ==> specs[1..][j] == specs[j + 1];
    }
  }

  /** A job spec whose binding aborts: a bind error or a panic. */
  predicate Fails<C>(spec: JobSpec, reg: Registry<C>)
  {
    BindJob(spec, reg).Aborted?
  }

  /**
   * A stage builds exactly when none of its job specs aborts, and then its jobs
   * are the kept ones in order; otherwise the failure is that of its first
   * aborting job spec.
   */
  lemma {:induction false} BuildJobsOutcome<C>(specs: seq<JobSpec>, reg: Registry<C>)
    ensures BuildJobs(specs, reg).Ok? <==> forall j :: 0 <= j < |specs| ==> !Fails(specs[j], reg)
    ensures BuildJobs(specs, reg).Ok? ==> BuildJobs(specs, reg).value == Kept(specs, reg)
    ensures BuildJobs(specs, reg).Err? ==>
      exists j :: (0 <= j < |specs| && Fails(specs[j], reg) &&
        BindJob(specs[j], reg).failure == BuildJobs(specs, reg).error &&
        forall i :: 0 <= i < j ==> !Fails(specs[i], reg))
    decreases |specs|
  {
    if specs != [] {
      var n := |specs| - 1;
      var front := specs[..n];
      BuildJobsOutcome(front, reg);
      assert forall i :: 0 <= i < n ==> front[i] == specs[i];
      KeptAppend(front, [specs[n]], reg);
      assert front + [specs[n]] == specs;
      assert Kept([specs[n]], reg) == KeptOne(specs[n], reg);
    }
  }

  /**
   * The build succeeds exactly when no job spec anywhere aborts; the pipeline
   * then has one stage per stage spec, in document order, with the same name
   * and the kept jobs.
   */
  lemma {:induction false} BuildOutcome<C>(doc: Document, reg: Registry<C>)
    ensures Build(doc, reg).Ok? <==>
      forall s, j :: 0 <= s < |doc| && 0 <= j < |doc[s].jobs| ==> !Fails(doc[s].jobs[j], reg)
    ensures Build(doc, reg).Ok? ==>
      |Build(doc, reg).value.stages| == |doc| &&
      forall s :: 0 <= s < |doc| ==>
        Build(doc, reg).value.stages[s] == Stage(doc[s].name, Kept(doc[s].jobs, reg))
    decreases |doc|
  {
    if doc != [] {
      var n := |doc| - 1;
      var front := doc[..n];
      BuildOutcome(front, reg);
      BuildJobsOutcome(doc[n].jobs, reg);
      assert forall s :: 0 <= s < n ==> front[s] == doc[s];
    }
  }

  /**
   * A failed build reports the failure of its first failing stage, and all
   * earlier stages built; together with `BuildJobsOutcome` this is the first
   * aborting job spec in document order.
   */
  lemma {:induction false} BuildFailure<C>(doc: Document, reg: Registry<C>)
    requires Build(doc, reg).Err?
    ensures exists s :: (0 <= s < |doc| && BuildJobs(doc[s].jobs, reg) == Err(Build(doc, reg).error) &&
      forall t :: 0 <= t < s ==> BuildJobs(doc[t].jobs, reg).Ok?)
    decreases |doc|
  {
    var n := |doc| - 1;
    var front := doc[..n];
    assert forall t :: 0 <= t < n ==> front[t] == doc[t];
    if BuildStages(front, reg).Err? {
      BuildFailure(front, reg);
    } else {
      BuildOutcome(front, reg);
      forall t | 0 <= t < n ensures BuildJobs(doc[t].jobs, reg).Ok? {
        BuildJobsOutcome(front[t].jobs, reg);
      }
    }
  }
}
