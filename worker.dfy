/**
 * The worker's order lifecycle: prepare a working directory for the order's
 * (repository, branch, commit), derive the execution context, read the
 * pipeline from the checked-out configuration, and go on to the next order
 * when one fails.
 *
 * The file system is the set of existing paths; a path is the list of its
 * components. Every other external result (clone, open, set-head, checkout,
 * template parsing, file creation, rendering, configuration reading) is an
 * input `Env`, one per order, and every external call made is logged as a
 * `Call` so that the order of the steps, and which ones never ran, can be
 * stated.
 */
module Workers {
  import opened Wrappers
  import opened Pipelines

  /** `Worker` has no fields; its methods below take what they read as parameters. */
  datatype Worker = Worker

  /** Creating a worker never fails. */
  function NewWorker(): (r: Result<Worker, Error>)
    ensures r.Ok?
  {
    Ok(Worker)
  }

  /**
   * An order: the repository's name and the path of its local clone
   * (`repo.Path()`), the branch, and the commit id as a string.
   */
  datatype Order = Order(repoName: string, repoPath: string, branchName: string, commit: string)

  /** A path as the list of its components; `[]` is Go's empty path "". */
  type Path = seq<string>

  datatype Context = Context(workdir: Path, branch: string, branchDashed: string, commit: string)

  /** The outcomes of the external calls made while processing one order. */
  datatype Env = Env(
    statFault: bool,          // `os.Stat` fails for a reason other than a missing path
    clone: Option<Error>,
    open: Option<Error>,
    setHead: Option<Error>,
    checkout: Option<Error>,
    parse: Option<Error>,     // `template.ParseFiles`
    create: Option<Error>,    // `os.Create`
    execute: Option<Error>,   // `t.Execute`
    config: Result<Document, Error>)  // `ReadInConfig` on the rendered file

  datatype Call =
    | Stat(path: Path)
    | Clone(url: string, path: Path, branch: string)
    | Open(path: Path)
    | SetHeadDetached(path: Path, commit: string)
    | CheckoutHead(path: Path)
    | ParseTemplate(file: Path)
    | CreateFile(file: Path)
    | ExecuteTemplate(file: Path, context: Context)
    | ReadConfig(dir: Path, name: string)

  /** The error an external call returns in `env`. */
  function CallResult(c: Call, env: Env): Option<Error>
  {
    match c
    case Stat(_) => None
    case Clone(_, _, _) => env.clone
    case Open(_) => env.open
    case SetHeadDetached(_, _) => env.setHead
    case CheckoutHead(_) => env.checkout
    case ParseTemplate(_) => env.parse
    case CreateFile(_) => env.create
    case ExecuteTemplate(_, _) => env.execute
    case ReadConfig(_, _) => if env.config.Err? then Some(env.config.error) else None
  }

  /**
   * `calls` is what ran of `plan`: a non-empty prefix in which every call but
   * the last succeeded and the last one returned `err`; only the whole plan
   * can end without an error.
   */
  predicate StopsAtFirstFailure(calls: seq<Call>, plan: seq<Call>, env: Env, err: Option<Error>)
  {
    0 < |calls| <= |plan| && calls == plan[..|calls|] &&
    (forall i :: 0 <= i < |calls| - 1 ==> CallResult(calls[i], env).None?) &&
    err == CallResult(calls[|calls| - 1], env) &&
    (err.None? ==> |calls| == |plan|)
  }

  // ---------------------------------------------------------------------------
  // Execution context
  // ---------------------------------------------------------------------------

  /** `strings.Replace(branch, "/", "-", -1)`: every `/` becomes `-`. */
  function Dashed(branch: string): (r: string)
    ensures |r| == |branch|
    ensures forall i :: 0 <= i < |branch| ==> r[i] == (if branch[i] == '/' then '-' else branch[i])
  {
    if branch == [] then [] else [if branch[0] == '/' then '-' else branch[0]] + Dashed(branch[1..])
  }

  /** The dashed branch name is safe as a path component, and dashing twice changes nothing. */
  lemma DashedIsSafe(branch: string)
    ensures '/' !in Dashed(branch)
    ensures Dashed(Dashed(branch)) == Dashed(branch)
    ensures Dashed(branch) == branch <==> '/' !in branch
  {
  }

  function MakeContext(workdir: Path, order: Order): Context
  {
    Context(workdir, order.branchName, Dashed(order.branchName), order.commit)
  }

  // ---------------------------------------------------------------------------
  // Working directory
  // ---------------------------------------------------------------------------

  const WorkerDir: string := "worker"

  /** `path.Join(dataDir, "worker", repoName, branchName, commit)`, without cleaning. */
  function WorkdirPath(dataDir: string, order: Order): Path
  {
    [dataDir, WorkerDir, order.repoName, order.branchName, order.commit]
  }

  /** Two orders share a working directory exactly when they agree on repository name, branch and commit. */
  lemma WorkdirKey(dataDir: string, o1: Order, o2: Order)
    ensures WorkdirPath(dataDir, o1) == WorkdirPath(dataDir, o2) <==>
      o1.repoName == o2.repoName && o1.branchName == o2.branchName && o1.commit == o2.commit
  {
  }

  /** `os.IsNotExist` on the result of `os.Stat(path)`. */
  predicate Absent(path: Path, fs: set<Path>, env: Env)
  {
    path !in fs && !env.statFault
  }

  /** The calls `prepareWorkdir` makes when none fails. */
  function PreparePlan(dataDir: string, order: Order, absent: bool): seq<Call>
  {
    var p := WorkdirPath(dataDir, order);
    [Stat(p), if absent then Clone(order.repoPath, p, order.branchName) else Open(p),
     SetHeadDetached(p, order.commit), CheckoutHead(p)]
  }

  /** The result of `prepareWorkdir`: the path ([] on error), the error, the file system after, the calls made. */
  datatype Prepared = Prepared(workdir: Path, err: Option<Error>, fs: set<Path>, calls: seq<Call>)

  /** The specification of `PrepareWorkdir`. */
  function Prepare(dataDir: string, order: Order, fs: set<Path>, env: Env): Prepared
  {
    var p := WorkdirPath(dataDir, order);
    if Absent(p, fs, env) then
      var calls := [Stat(p), Clone(order.repoPath, p, order.branchName)];
      if env.clone.Some? then Prepared([], env.clone, fs, calls)
      else ResetHead(p, order, fs + {p}, env, calls)
    else
      var calls := [Stat(p), Open(p)];
      if env.open.Some? then Prepared([], env.open, fs, calls)
      else ResetHead(p, order, fs, env, calls)
  }

  /** Detach the head at the order's commit, then force the checkout. */
  function ResetHead(p: Path, order: Order, fs: set<Path>, env: Env, calls: seq<Call>): Prepared
  {
    if env.setHead.Some? then Prepared([], env.setHead, fs, calls + [SetHeadDetached(p, order.commit)])
    else if env.checkout.Some? then
      Prepared([], env.checkout, fs, calls + [SetHeadDetached(p, order.commit), CheckoutHead(p)])
    else Prepared(p, None, fs, calls + [SetHeadDetached(p, order.commit), CheckoutHead(p)])
  }

  /**
   * The working directory is cloned when it does not exist and opened
   * otherwise; the steps stop at the first failure; the path is returned only
   * when the detached set-head and the forced checkout both succeeded; and a
   * successful clone is the only thing that creates the directory.
   */
  lemma PrepareStopsAtFirstFailure(dataDir: string, order: Order, fs: set<Path>, env: Env)
    ensures var p := WorkdirPath(dataDir, order);
      var r := Prepare(dataDir, order, fs, env);
      StopsAtFirstFailure(r.calls, PreparePlan(dataDir, order, Absent(p, fs, env)), env, r.err) &&
      r.workdir == (if r.err.None? then p else []) &&
      r.fs == (if Absent(p, fs, env) && env.clone.None? then fs + {p} else fs)
  {
  }

  /** The plan clones exactly when the directory is absent, and opens it exactly otherwise. */
  lemma PlanClonesOnlyWhenAbsent(dataDir: string, order: Order, absent: bool)
    ensures (exists c :: c in PreparePlan(dataDir, order, absent) && c.Clone?) <==> absent
    ensures Open(WorkdirPath(dataDir, order)) in PreparePlan(dataDir, order, absent) <==> !absent
  {
    var plan := PreparePlan(dataDir, order, absent);
    if absent {
      assert plan[1].Clone?;
    }
  }

  /**
   * After a successful preparation, preparing any order with the same
   * repository, branch and commit reuses the directory: it is opened, not
   * cloned again.
   */
  lemma ReuseAfterSuccess(dataDir: string, order: Order, again: Order, fs: set<Path>, env: Env, env2: Env)
    requires !env.statFault && Prepare(dataDir, order, fs, env).err.None?
    requires again.repoName == order.repoName && again.branchName == order.branchName
    requires again.commit == order.commit
    ensures var r := Prepare(dataDir, again, Prepare(dataDir, order, fs, env).fs, env2);
      r.calls[1] == Open(WorkdirPath(dataDir, order)) && forall c :: c in r.calls ==> !c.Clone?
  {
  }

  /** `prepareWorkdir`: straight-line steps with an early return on each error. */
  method PrepareWorkdir(dataDir: string, order: Order, fs: set<Path>, env: Env)
    returns (workdir: Path, err: Option<Error>, fs': set<Path>, calls: seq<Call>)
    ensures Prepared(workdir, err, fs', calls) == Prepare(dataDir, order, fs, env)
  {
    var p := WorkdirPath(dataDir, order);
    calls := [Stat(p)];
    fs' := fs;
    if Absent(p, fs, env) {
      calls := calls + [Clone(order.repoPath, p, order.branchName)];
      if env.clone.Some? {
        return [], env.clone, fs', calls;
      }
      fs' := fs' + {p};
    } else {
      calls := calls + [Open(p)];
      if env.open.Some? {
        return [], env.open, fs', calls;
      }
    }
    calls := calls + [SetHeadDetached(p, order.commit)];
    if env.setHead.Some? {
      return [], env.setHead, fs', calls;
    }
    calls := calls + [CheckoutHead(p)];
    if env.checkout.Some? {
      return [], env.checkout, fs', calls;
    }
    return p, None, fs', calls;
  }

  // ---------------------------------------------------------------------------
  // Reading the pipeline
  // ---------------------------------------------------------------------------

  const ConfigName: string := "distonic"
  const ConfigFile: string := "distonic.yml"

  /** What `readPipeline` ends with; a panic in the builder is `LoadPanicked`. */
  datatype Loaded<C> = Loaded(pipeline: Pipeline<C>) | LoadFailed(err: Error) | LoadPanicked(key: string)

  datatype Read<C> = Read(result: Loaded<C>, calls: seq<Call>)

  /** The calls `readPipeline` makes when none fails. */
  function ReadPlan(ctx: Context): seq<Call>
  {
    var file := ctx.workdir + [ConfigFile];
    [ParseTemplate(file), CreateFile(file), ExecuteTemplate(file, ctx), ReadConfig(ctx.workdir, ConfigName)]
  }

  /** The specification of `ReadPipeline`. */
  function ReadSpec<C>(ctx: Context, env: Env, reg: Registry<C>): Read<C>
  {
    var file := ctx.workdir + [ConfigFile];
    if env.parse.Some? then Read(LoadFailed(env.parse.value), [ParseTemplate(file)])
    else if env.create.Some? then Read(LoadFailed(env.create.value), [ParseTemplate(file), CreateFile(file)])
    else if env.execute.Some? then
      Read(LoadFailed(env.execute.value), [ParseTemplate(file), CreateFile(file), ExecuteTemplate(file, ctx)])
    else if env.config.Err? then Read(LoadFailed(env.config.error), ReadPlan(ctx))
    else match Build(env.config.value, reg)
      case Ok(p) => Read(Loaded(p), ReadPlan(ctx))
      case Err(BindFailed(e)) => Read(LoadFailed(e), ReadPlan(ctx))
      case Err(Panicked(k)) => Read(LoadPanicked(k), ReadPlan(ctx))
  }

  /**
   * Reading stops at the first failing step with its error; the builder runs
   * only once the rendered file was read, and its result is the result.
   */
  lemma ReadStopsAtFirstFailure<C>(ctx: Context, env: Env, reg: Registry<C>)
    ensures var r := ReadSpec(ctx, env, reg);
      exists stepErr :: StopsAtFirstFailure(r.calls, ReadPlan(ctx), env, stepErr) &&
        (stepErr.Some? ==> r.result == LoadFailed(stepErr.value)) &&
        (stepErr.None? ==>
          env.config.Ok? && match Build(env.config.value, reg)
            case Ok(p) => r.result == Loaded(p)
            case Err(BindFailed(e)) => r.result == LoadFailed(e)
            case Err(Panicked(k)) => r.result == LoadPanicked(k))
  {
    var r := ReadSpec(ctx, env, reg);
    var stepErr := CallResult(r.calls[|r.calls| - 1], env);
    assert StopsAtFirstFailure(r.calls, ReadPlan(ctx), env, stepErr);
  }

  /** `readPipeline`: render the template into the working directory, read it, build the pipeline. */
  method ReadPipeline<C>(ctx: Context, env: Env, reg: Registry<C>) returns (result: Loaded<C>, calls: seq<Call>)
    ensures Read(result, calls) == ReadSpec(ctx, env, reg)
  {
    var file := ctx.workdir + [ConfigFile];
    calls := [ParseTemplate(file)];
    if env.parse.Some? {
      return LoadFailed(env.parse.value), calls;
    }
    calls := calls + [CreateFile(file)];
    if env.create.Some? {
      return LoadFailed(env.create.value), calls;
    }
    calls := calls + [ExecuteTemplate(file, ctx)];
    if env.execute.Some? {
      return LoadFailed(env.execute.value), calls;
    }
    calls := calls + [ReadConfig(ctx.workdir, ConfigName)];
    if env.config.Err? {
      return LoadFailed(env.config.error), calls;
    }
    var built := NewPipeline(env.config.value, reg);
    match built
    case Ok(p) => result := Loaded(p);
    case Err(BindFailed(e)) => result := LoadFailed(e);
    case Err(Panicked(k)) => result := LoadPanicked(k);
  }

  // ---------------------------------------------------------------------------
  // Processing one order
  // ---------------------------------------------------------------------------

  /**
   * How processing an order ends: an error is returned; the builder panicked;
   * or the pipeline was built and `log.Fatal(pipeline)` stopped the process.
   */
  datatype Outcome<C> = Failed(err: Error) | Crashed(key: string) | Halted(pipeline: Pipeline<C>)

  datatype Processed<C> = Processed(outcome: Outcome<C>, context: Option<Context>, fs: set<Path>, calls: seq<Call>)

  /** The specification of `ProcessOrder`. */
  function ProcessSpec<C>(order: Order, env: Env, dataDir: string, fs: set<Path>, reg: Registry<C>): Processed<C>
  {
    var w := Prepare(dataDir, order, fs, env);
    if w.err.Some? then Processed(Failed(w.err.value), None, w.fs, w.calls)
    else
      var ctx := MakeContext(w.workdir, order);
      var rd := ReadSpec(ctx, env, reg);
      var outcome := match rd.result
        case Loaded(p) => Halted(p)
        case LoadFailed(e) => Failed(e)
        case LoadPanicked(k) => Crashed(k);
      Processed(outcome, Some(ctx), w.fs, w.calls + rd.calls)
  }

  /**
   * A failed working directory is returned as the order's error, with no
   * context built and no pipeline read; otherwise the context is the
   * prepared path with the order's branch, dashed branch and commit, the
   * pipeline is read from it, and its result becomes the outcome: the built
   * pipeline halts the process, the read error is the order's error, and the
   * builder's panic crashes with its key.
   */
  lemma ProcessSteps<C>(order: Order, env: Env, dataDir: string, fs: set<Path>, reg: Registry<C>)
    ensures var w := Prepare(dataDir, order, fs, env);
      var r := ProcessSpec(order, env, dataDir, fs, reg);
      r.fs == w.fs &&
      (w.err.Some? ==>
        r.outcome == Failed(w.err.value) && r.context == None && r.calls == w.calls &&
        forall c :: c in r.calls ==> !c.ParseTemplate? && !c.ReadConfig?) &&
      (w.err.None? ==>
        var ctx := Context(WorkdirPath(dataDir, order), order.branchName, Dashed(order.branchName), order.commit);
        var rd := ReadSpec(ctx, env, reg);
        r.context == Some(ctx) && r.calls == w.calls + rd.calls &&
        (rd.result.Loaded? ==> r.outcome == Halted(rd.result.pipeline)) &&
        (rd.result.LoadFailed? ==> r.outcome == Failed(rd.result.err)) &&
        (rd.result.LoadPanicked? ==> r.outcome == Crashed(rd.result.key)))
  {
  }

  /** `processOrder`: prepare the working directory, build the context, read the pipeline. */
  method ProcessOrder<C>(order: Order, env: Env, dataDir: string, fs: set<Path>, reg: Registry<C>)
    returns (outcome: Outcome<C>, context: Option<Context>, fs': set<Path>, calls: seq<Call>)
    ensures Processed(outcome, context, fs', calls) == ProcessSpec(order, env, dataDir, fs, reg)
  {
    var workdir, err;
    workdir, err, fs', calls := PrepareWorkdir(dataDir, order, fs, env);
    if err.Some? {
      return Failed(err.value), None, fs', calls;
    }
    var ctx := MakeContext(workdir, order);
    context := Some(ctx);
    var result, readCalls := ReadPipeline(ctx, env, reg);
    calls := calls + readCalls;
    match result
    case Loaded(p) => outcome := Halted(p);
    case LoadFailed(e) => outcome := Failed(e);
    case LoadPanicked(k) => outcome := Crashed(k);
  }

  // ---------------------------------------------------------------------------
  // The order loop
  // ---------------------------------------------------------------------------

  datatype Ran<C> = Ran(outcomes: seq<Outcome<C>>, fs: set<Path>)

  /** The specification of `Run`: orders are processed in turn; a failed order is logged and the next one taken. */
  function RunSpec<C>(orders: seq<Order>, envs: seq<Env>, dataDir: string, fs: set<Path>, reg: Registry<C>): Ran<C>
    requires |envs| == |orders|
    decreases |orders|
  {
    if orders == [] then Ran([], fs)
    else
      var p := ProcessSpec(orders[0], envs[0], dataDir, fs, reg);
      if p.outcome.Failed? then
        var rest := RunSpec(orders[1..], envs[1..], dataDir, p.fs, reg);
        Ran([p.outcome] + rest.outcomes, rest.fs)
      else Ran([p.outcome], p.fs)
  }

  /**
   * Every order is processed, in the order received, each on the file system
   * left by the ones before it; an error on one order does not stop the
   * later ones, and only a process exit (the builder's panic or `log.Fatal`)
   * ends the loop early.
   */
  lemma {:induction false} RunProcessesInOrder<C>(orders: seq<Order>, envs: seq<Env>, dataDir: string, fs: set<Path>,
                                                  reg: Registry<C>)
    requires |envs| == |orders|
    ensures var r := RunSpec(orders, envs, dataDir, fs, reg);
      |r.outcomes| <= |orders| &&
      (forall i :: 0 <= i < |r.outcomes| - 1 ==> r.outcomes[i].Failed?) &&
      (|r.outcomes| < |orders| ==> r.outcomes != [] && !r.outcomes[|r.outcomes| - 1].Failed?) &&
      (forall i {:trigger r.outcomes[i]} :: 0 <= i < |r.outcomes| ==>
        r.outcomes[i] == ProcessSpec(orders[i], envs[i], dataDir,
                                     RunSpec(orders[..i], envs[..i], dataDir, fs, reg).fs, reg).outcome)
    decreases |orders|
  {
    if orders != [] {
      var p := ProcessSpec(orders[0], envs[0], dataDir, fs, reg);
      var r := RunSpec(orders, envs, dataDir, fs, reg);
      if p.outcome.Failed? {
        RunProcessesInOrder(orders[1..], envs[1..], dataDir, p.fs, reg);
        forall i | 0 < i < |r.outcomes|
          ensures r.outcomes[i] == ProcessSpec(orders[i], envs[i], dataDir,
                                               RunSpec(orders[..i], envs[..i], dataDir, fs, reg).fs, reg).outcome
        {
          assert orders[..i][1..] == orders[1..][..i - 1];
          assert envs[..i][1..] == envs[1..][..i - 1];
          assert orders[..i][0] == orders[0] && envs[..i][0] == envs[0];
        }
      }
      assert orders[..0] == [] && envs[..0] == [];
    }
  }

  /** `Worker.Run`: take each order in turn and keep going after an error. */
  method Run<C>(orders: seq<Order>, envs: seq<Env>, dataDir: string, fs: set<Path>, reg: Registry<C>)
    returns (outcomes: seq<Outcome<C>>, fs': set<Path>)
    requires |envs| == |orders|
    ensures Ran(outcomes, fs') == RunSpec(orders, envs, dataDir, fs, reg)
  {
    outcomes, fs' := [], fs;
    for i := 0 to |orders|
      invariant var rest := RunSpec(orders[i..], envs[i..], dataDir, fs', reg);
        RunSpec(orders, envs, dataDir, fs, reg) == Ran(outcomes + rest.outcomes, rest.fs)
    {
      var outcome, _, fsNext, _ := ProcessOrder(orders[i], envs[i], dataDir, fs', reg);
      assert orders[i..][1..] == orders[i + 1..] && envs[i..][1..] == envs[i + 1..];
      outcomes, fs' := outcomes + [outcome], fsNext;
      if !outcome.Failed? {
        // the process has exited
        return;
      }
    }
  }
}
