# distonic core in Dafny

A model of the core of distonic, a continuous-build orchestrator written in
Go. Watchers schedule orders (repository, branch, commit) with a supervisor;
the supervisor's drain loop hands them to workers; a worker prepares a
working directory for the order, derives an execution context, renders and
reads the repository's pipeline configuration and builds a pipeline of
stages and jobs, each job bound to a module.

Three pieces are modelled, each with its input and output replaced by plain
values:

- `pipeline.dfy`, module `Pipelines`: the pipeline builder `NewPipeline`. The
  configuration document is an ordered list of stage specs, each an ordered
  list of job specs, each an ordered list of `(key, value)` entries. The
  module registry is a parameter mapping a module name to that module's
  `Bind`, whose callable result is an opaque type parameter. The builder is a
  method with the source's three nested loops and its labelled `continue`;
  it is proved equal to a specification written as folds over prefixes, and
  that specification is proved against reference definitions: which entries
  let binding go on (`Fine`), what the first other entry does (`Fault`), and
  the kept jobs of a stage (`Kept`).
- `supervisor.dfy`, module `Supervision`: the supervisor's queue and bell. The
  bell is a count of pending signals in a channel of capacity one, and the
  worker channel is the sequence `forwarded`. `Supervisor` is a class whose
  `Schedule` and `Ring` methods update the queue and bell in place. Each is
  tied to a step function on `BellState`. Lemmas over any sequence of
  schedule and ring events then prove that no order is lost and that the
  bell invariant holds. `NewSupervisor` builds the watchers and the workers.
- `worker.dfy`, module `Workers`: the order lifecycle. The file system is the
  set of existing paths, every external call's result is an input `Env`, and
  every external call made is logged. `PrepareWorkdir`, `ReadPipeline`,
  `ProcessOrder` and `Run` are methods with the source's early returns and
  loop. Each is proved equal to a specification function, and lemmas about
  those functions state the ordering, early-abort and reuse properties.

`wrappers.dfy` holds `Option`, `Result` and `Error`.

Points where the code's behaviour is easy to misread:

- Although a job is meant to hold one module, a job spec with only `name`
  entries, or no entries at all, is still appended with no module
  (`callable == None`).
- The stages come from `AllKeys()`, whose order is not fixed, so the model
  takes the order as its input sequence.
- A successfully built pipeline is never executed: the code reaches
  `log.Fatal(pipeline)`, which ends the process, so the model ends an order
  there with the `Halted` outcome.

## Model

| member | source | states |
|---|---|---|
| `Pipelines.NewPipeline` | pipeline.go:31-61 | the nested loops return exactly the specified build: the pipeline, or the first bind error or type-assertion panic |
| `Pipelines.BindJobStops` | pipeline.go:43-53 | once a job spec is dropped or aborted, its later entries do not change the outcome |
| `Pipelines.BuildJobsStops` | pipeline.go:48-53 | once a stage has failed, its later job specs are never processed |
| `Pipelines.BuildStagesStops` | pipeline.go:48-53 | once a stage has failed, later stages are never processed |
| `Pipelines.Fault` | pipeline.go:39-53 | an entry that does not let binding go on either drops the job (unknown module) or aborts it (bind error, or a value of the wrong type) |
| `Pipelines.BindJobOutcome` | pipeline.go:38-56 | a job spec is kept if and only if every entry is a string `name` or a known module that binds; otherwise its first other entry decides drop or abort |
| `Pipelines.KeptJobName` | pipeline.go:40-41 | a kept job's name is the text of its `name` entry (the last one in input order, should several be given), or "" when there is none |
| `Pipelines.KeptJobUnbound` | pipeline.go:37-56 | a kept job has no module if and only if its spec has only `name` entries |
| `Pipelines.KeptJobCallable` | pipeline.go:48 | a kept job holds the callable returned by the `Bind` of its last module entry |
| `Pipelines.KeptAppend` | pipeline.go:36-56 | the kept jobs of two runs of specs are the kept jobs of each, in the same order |
| `Pipelines.KeptBounds` | pipeline.go:34-58 | a stage has at most as many jobs as specs; with every spec dropped it has none; with every spec kept it has one per spec |
| `Pipelines.BuildJobsOutcome` | pipeline.go:34-57 | a stage builds if and only if no job spec aborts, and then its jobs are the kept ones in spec order; otherwise its error is that of its first aborting spec |
| `Pipelines.BuildOutcome` | pipeline.go:32-60 | the build succeeds if and only if no job spec aborts; the pipeline then has one stage per stage spec, in document order, with the same name and the kept jobs (possibly none) |
| `Pipelines.BuildFailure` | pipeline.go:48-53 | a failed build returns the error of its first failing stage, and every earlier stage built |
| `Workers.NewWorker` | worker.go:17-19 | creating a worker never fails |
| `Workers.Dashed` | worker.go:41 | the dashed branch has the same length, and each `/` is replaced by `-` with every other character unchanged |
| `Workers.DashedIsSafe` | worker.go:41 | no `/` is left; dashing is idempotent; it changes nothing if and only if the branch has no `/` |
| `Workers.WorkdirKey` | worker.go:59-65 | two orders get the same working directory if and only if they agree on repository name, branch and commit |
| `Workers.PrepareStopsAtFirstFailure` | worker.go:67-106 | stat, then clone or open, then set-head, then checkout, stopping at the first error; the path is returned only when all succeeded, and "" otherwise; only a successful clone creates the directory |
| `Workers.PlanClonesOnlyWhenAbsent` | worker.go:67-89 | a clone is planned if and only if the directory does not exist; otherwise it is opened |
| `Workers.ReuseAfterSuccess` | worker.go:59-89 | after a successful preparation, preparing an order with the same key opens the existing directory and never clones again |
| `Workers.PrepareWorkdir` | worker.go:55-107 | the step-by-step method returns what the preparation specification gives: path, error, file system and calls |
| `Workers.ReadStopsAtFirstFailure` | worker.go:109-144 | parse, create, render, read run in order and stop at the first error, which is returned; only after all four does the builder run, its error returned and its panic propagated |
| `Workers.ReadPipeline` | worker.go:109-144 | the step-by-step method returns what the read specification gives, using `NewPipeline` |
| `Workers.ProcessSteps` | worker.go:31-53 | a failed working directory is returned as the error, with no context built and no pipeline read; otherwise the context holds that path, the branch, the dashed branch and the commit, and the read result becomes the outcome: a built pipeline halts, a read error is the order's error, a builder panic crashes with its key |
| `Workers.ProcessOrder` | worker.go:31-53 | the method returns what the processing specification gives |
| `Workers.RunProcessesInOrder` | worker.go:21-29 | every order is processed in turn on the file system left by earlier ones; an error does not stop later orders; only a process exit ends the loop early |
| `Workers.Run` | worker.go:21-29 | the loop's outcomes and final file system are those of the run specification |
| `Supervision.ScheduleStep` | supervisor.go:144-156 | the order is appended at the tail, earlier entries and the forwarded orders unchanged, and exactly one signal is pending afterwards |
| `Supervision.Next` | supervisor.go:130-156 | every schedule or ring step keeps the bell at no more than one signal, with a signal pending whenever the queue is non-empty |
| `Supervision.Execute` | supervisor.go:130-156 | the invariant holds after any sequence of steps |
| `Supervision.NoLostOrders` | supervisor.go:130-156 | after any sequence of steps, forwarded followed by queued is the old contents followed by every scheduled order, and forwarded only grows |
| `Supervision.FromStart` | supervisor.go:31-35 | from a new supervisor, forwarded followed by queued is exactly the scheduled orders, and the bell holds one signal whenever an order is queued |
| `Supervision.RingForwardsAll` | supervisor.go:130-135 | a ring after any steps leaves the queue empty with every scheduled order forwarded |
| `Supervision.Supervisor.constructor` | supervisor.go:31-35 | a new supervisor has an empty queue, no pending signal, no watchers and no workers |
| `Supervision.Supervisor.Schedule` | supervisor.go:144-156 | updates the state as `ScheduleStep` does, records the order as scheduled, and returns no error |
| `Supervision.Supervisor.Ring` | supervisor.go:130-136 | drains the queue front first into the worker channel, as `RingStep` does, keeping the invariant |
| `Supervision.NewSupervisor` | supervisor.go:26-60 | succeeds if and only if every watcher is created, else returns no supervisor and the first watcher's error; on success one watcher per repository and `num_workers` workers (none when negative) |

## Left out

- Git and file-system calls (`git.Clone`, `git.OpenRepository`, `SetHeadDetached`, `CheckoutHead`, `os.Stat`, `os.Create`): each is only a success or failure in `Env`. A failed clone is assumed to leave no directory behind.
- `path.Join` cleaning: a path is the list of its components, so the working-directory path is injective in its components.
- Reading configuration with viper (`ReadInConfig`, `AllKeys`, `Get`, `GetStringMap`, `Sub`) and rendering with `text/template`: replaced by an ordered document value. The rendered document is the `config` input; the context given to the template is only recorded in the `ExecuteTemplate` call.
- `Order` is declared outside the three modelled files; its fields are taken from how `worker.go` uses them, with the repository handle reduced to its path and the commit to its id string.
- The entries of a job spec: pipeline.go:38 ranges over a Go map, whose keys are distinct (so a spec holds at most one `name` entry) and whose iteration order is random. The model takes the entries in their input order, which it treats as that iteration order. `Pipelines.BindJobOutcome`'s first entry that is not fine, and the last entries of `Pipelines.KeptJobName` and `Pipelines.KeptJobCallable`, are relative to that order. So a spec with both an unknown module and a known module whose `Bind` fails is dropped in one order and aborts the build in the other; the model proves each order's outcome but does not state that Go may pick either.
- Type assertions on the document's shape (`.([]interface{})`, `.(map[interface{}]interface{})`, `k.(string)`) are not modelled: the document's types rule out those panics. The assertions on an entry's value (`v.(string)`, `v.(map[string]interface{})`) are modelled as the `Panicked` failure.
- `getModule` and the concrete modules' `Bind` and `Call`: the registry is a parameter. No job is ever called, because the source never executes a pipeline.
- `log.Fatal(pipeline)` is modelled only as the terminal `Halted` outcome.
- Goroutines, `sync.WaitGroup`, the racy `errorCount` counters, unsynchronised queue access, `Supervisor.Run`, `runWatchers` and `Watcher`: these are concurrency and goroutine orchestration. The queue and bell are modelled sequentially, and a watcher is only the settings it is created from.
- Supervision.Supervisor.Ring: the worker channel is unbounded in the model. The blocking send into the channel of capacity `len(s.workers)`, which is the back-pressure point, is not modelled.
- Supervision.NewSupervisor: the repository names are distinct because they are the keys of a configuration map. The map's iteration order is the input order. After `NewWorker`, the error check is left out because `NewWorker` cannot fail.
- Logging.
