/**
 * The tuner: the settings `Tuner.__init__` normalises, the size of the
 * initial design, the run limit, and the driver loop of `run`, which after
 * every optimizer step asks the worker's resource manager whether to go on.
 *
 * `parse_n_jobs`, the configuration-space samplers and the optimizer are
 * not part of this model: the parsed job count is an argument, a design is
 * described by the request it makes, and the optimizer step is left out.
 */
module Tuning {
  import opened Wrappers
  import opened Coordination
  import Manager
  import Trials

  /** The evaluator classes a name can select, or a class given directly. */
  datatype EvaluatorClass = TrainEvaluatorClass | EnsembleEvaluatorClass | UserClass(name: string)

  /** The `evaluator` argument: a class name, a class, a plain function, or
      something that is not callable at all. */
  datatype EvaluatorArg =
    | ByName(name: string)
    | Klass(klass: EvaluatorClass)
    | Function(fid: string)
    | NotCallable

  /** The evaluator the tuner calls: an instance of the class, or the
      function itself; both carry the `debug` attribute the tuner sets. */
  datatype Evaluator =
    | Instance(klass: EvaluatorClass, debug: bool)
    | Fn(fid: string, debug: bool)

  datatype TunerError = NotImplementedError | AssertionError

  /** The fields of a constructed `Tuner`. */
  datatype Tuner = Tuner(
    debug: bool,
    perRunMemoryLimit: real,
    timeLeftForThisTask: Option<real>,
    perRunTimeLimit: real,
    limitResource: bool,
    evaluatorPrototype: EvaluatorArg,
    evaluator: Evaluator,
    searchMethodParams: map<string, string>,
    initialRuns: int,
    runLimit: int,
    searchMethod: string,
    randomState: int,
    nJobs: int,
    exitProcesses: int)

  predicate KnownSearchMethod(m: string) {
    m == "smac" || m == "grid" || m == "random"
  }

  /** The evaluator a name selects; unknown names raise NotImplementedError. */
  predicate KnownEvaluatorName(name: string) {
    name == "TrainEvaluator" || name == "EnsembleEvaluator"
  }

  function Max(a: int, b: int): int { if a >= b then a else b }

  /** `Tuner.__init__`. `nJobs` is what `parse_n_jobs` made of the `n_jobs`
      argument. The checks raise in source order: the evaluator name, then
      `callable(evaluator)`, then the search method. */
  method NewTuner(evaluator: EvaluatorArg, searchMethod: string, runLimit: int, initialRuns: int,
                  searchMethodParams: map<string, string>, nJobs: int, exitProcesses: Option<int>,
                  limitResource: bool, perRunTimeLimit: real, perRunMemoryLimit: real,
                  timeLeftForThisTask: Option<real>, debug: bool)
    returns (r: Result<Tuner, TunerError>)
    ensures r == Err(NotImplementedError) <==> evaluator.ByName? && !KnownEvaluatorName(evaluator.name)
    ensures r.Ok? <==> (evaluator.ByName? ==> KnownEvaluatorName(evaluator.name))
                       && !evaluator.NotCallable? && KnownSearchMethod(searchMethod)
    ensures r.Ok? ==> var t := r.value;
      && !(t.debug && t.limitResource)
      && t.limitResource == (limitResource && !debug)
      && t.debug == debug
      && t.searchMethod == searchMethod && t.runLimit == runLimit && t.nJobs == nJobs
      && (searchMethod == "smac" ==> t.initialRuns == initialRuns)
      && (searchMethod != "smac" ==> t.initialRuns == 0)
      && (exitProcesses.Some? ==> t.exitProcesses == exitProcesses.value)
      && (exitProcesses.None? ==> t.exitProcesses == Max(nJobs / 3, 1) && t.exitProcesses >= 1)
      && t.evaluator.debug == debug
      && (evaluator == ByName("TrainEvaluator") ==> t.evaluator == Instance(TrainEvaluatorClass, debug))
      && (evaluator == ByName("EnsembleEvaluator") ==> t.evaluator == Instance(EnsembleEvaluatorClass, debug))
      && (evaluator.Klass? ==> t.evaluator == Instance(evaluator.klass, debug))
      && (evaluator.Function? ==> t.evaluator == Fn(evaluator.fid, debug))
      && t.randomState == 0
  {
    var limit := limitResource;
    if debug && limit {
      limit := false;
    }
    var prototype := evaluator;
    if prototype.ByName? {
      if prototype.name == "TrainEvaluator" {
        prototype := Klass(TrainEvaluatorClass);
      } else if prototype.name == "EnsembleEvaluator" {
        prototype := Klass(EnsembleEvaluatorClass);
      } else {
        return Err(NotImplementedError);
      }
    }
    if prototype.NotCallable? {
      return Err(AssertionError);
    }
    var instance := if prototype.Function? then Fn(prototype.fid, false) else Instance(prototype.klass, false);
    instance := instance.(debug := debug);
    if !KnownSearchMethod(searchMethod) {
      return Err(AssertionError);
    }
    var runs := initialRuns;
    if searchMethod == "grid" || searchMethod == "random" {
      runs := 0;
    }
    var exits := if exitProcesses.None? then Max(nJobs / 3, 1) else exitProcesses.value;
    return Ok(Tuner(debug, perRunMemoryLimit, timeLeftForThisTask, perRunTimeLimit, limit, prototype, instance,
                    searchMethodParams, runs, runLimit, searchMethod, 0, nJobs, exits));
  }

  /** What `get_random_initial_configs` / `get_grid_initial_configs` are asked for. */
  datatype DesignRequest = RandomConfigs(count: int, seed: int) | GridConfigs(count: int, seed: int)

  /** `design_initial_configs`: smac samples `max(initial_runs, n_jobs)`
      random configurations, grid and random draw `run_limit` of their kind. */
  function DesignInitialConfigs(t: Tuner, nJobs: int): (r: Result<DesignRequest, TunerError>)
    ensures r.Ok? <==> KnownSearchMethod(t.searchMethod)
    ensures r.Ok? ==> r.value.seed == t.randomState
    ensures t.searchMethod == "smac" ==>
              && r.Ok? && r.value.RandomConfigs?
              && r.value.count >= t.initialRuns && r.value.count >= nJobs
              && (r.value.count == t.initialRuns || r.value.count == nJobs)
    ensures t.searchMethod == "grid" ==> r == Ok(GridConfigs(t.runLimit, t.randomState))
    ensures t.searchMethod == "random" ==> r == Ok(RandomConfigs(t.runLimit, t.randomState))
  {
    if t.searchMethod == "smac" then Ok(RandomConfigs(Max(t.initialRuns, nJobs), t.randomState))
    else if t.searchMethod == "grid" then Ok(GridConfigs(t.runLimit, t.randomState))
    else if t.searchMethod == "random" then Ok(RandomConfigs(t.runLimit, t.randomState))
    else Err(NotImplementedError)
  }

  /** `get_run_limit`: only smac runs the optimizer loop. */
  function GetRunLimit(t: Tuner): (r: int)
    ensures t.searchMethod == "smac" ==> r == t.runLimit
    ensures r != 0 ==> t.searchMethod == "smac"
  {
    if t.searchMethod == "smac" then t.runLimit else 0
  }

  /** How many iterations `run`'s loop makes from iteration `i` on, when
      iteration `j` sees the shared-dictionary snapshot `syncAt(j)`: it
      stops after the first iteration whose snapshot says stop, or at `limit`. */
  function LoopCount(syncAt: nat -> Option<SyncDict>, i: nat, limit: int): nat
    decreases limit - i
  {
    if i >= limit then i
    else if ShouldStop(syncAt(i)) then i + 1
    else LoopCount(syncAt, i + 1, limit)
  }

  /** The loop makes at most `limit` iterations; every iteration but the last
      was told to continue; and a loop that ends early ends on a stop. */
  lemma {:induction false} LoopCountStops(syncAt: nat -> Option<SyncDict>, i: nat, limit: int)
    requires i <= Max(limit, 0)
    ensures var n := LoopCount(syncAt, i, limit);
            && i <= n <= Max(limit, 0)
            && (forall j: nat :: i <= j < n - 1 ==> !ShouldStop(syncAt(j)))
            && (n < limit ==> n > i && ShouldStop(syncAt(n - 1)))
    decreases limit - i
  {
    if i < limit && !ShouldStop(syncAt(i)) {
      LoopCountStops(syncAt, i + 1, limit);
    }
  }

  /** With no stop in sight the loop runs to the limit. */
  lemma {:induction false} LoopCountFull(syncAt: nat -> Option<SyncDict>, i: nat, limit: int)
    requires i <= limit
    requires forall j: nat :: i <= j < limit ==> !ShouldStop(syncAt(j))
    ensures LoopCount(syncAt, i, limit) == limit
    decreases limit - i
  {
    if i < limit {
      LoopCountFull(syncAt, i + 1, limit);
    }
  }

  /** Grid and random search never enter the loop, so they never call
      `delete_models`. */
  lemma NonSmacRunsNoIteration(t: Tuner, syncAt: nat -> Option<SyncDict>)
    requires t.searchMethod != "smac"
    ensures LoopCount(syncAt, 0, GetRunLimit(t)) == 0
  {
  }

  /** What `run` did: returned before the optimizer was set up, or made some
      iterations of the loop. */
  datatype RunOutcome = NoInitialConfigs | Ran(iterations: nat)

  /** `run`. An empty `initial_configs` returns at once. Otherwise the loop
      makes at most `get_run_limit()` iterations; each one calls
      `delete_models` on the evaluator's resource manager `rm` with the
      snapshot `syncAt(i)` and ends the loop when it says not to continue.
      An exception from `delete_models` ends `run`. */
  method Run<C>(t: Tuner, initialConfigs: seq<C>, rm: Manager.ResourceManager, syncAt: nat -> Option<SyncDict>)
    returns (r: Result<RunOutcome, Manager.RmError>)
    requires rm.Valid()
    modifies rm`isInitDb, rm`db, rm`model, rm`trials, rm`files
    ensures rm.Valid()
    ensures initialConfigs == [] ==> unchanged(rm)
    ensures Trials.Submap(rm.trials, old(rm.trials)) && Trials.Submap(rm.files, old(rm.files))
    ensures initialConfigs == [] <==> r == Ok(NoInitialConfigs)
    ensures r.Ok? && initialConfigs != [] ==> r.value == Ran(LoopCount(syncAt, 0, GetRunLimit(t)))
    ensures r.Err? ==> rm.isMaster && !old(rm.TableReachable())
  {
    if initialConfigs == [] {
      return Ok(NoInitialConfigs);
    }
    var runLimit := GetRunLimit(t);
    var i := 0;
    while i < runLimit
      invariant rm.Valid()
      invariant Trials.Submap(rm.trials, old(rm.trials)) && Trials.Submap(rm.files, old(rm.files))
      invariant old(rm.TableReachable()) ==> rm.TableReachable()
      invariant 0 <= i <= Max(runLimit, 0)
      invariant LoopCount(syncAt, i, runLimit) == LoopCount(syncAt, 0, runLimit)
      decreases runLimit - i
    {
      var shouldContinue := rm.DeleteModels(syncAt(i));
      if shouldContinue.Err? {
        return Err(shouldContinue.error);
      }
      i := i + 1;
      if !shouldContinue.value {
        break;
      }
    }
    return Ok(Ran(i));
  }
}
