# HyperFlow core in Dafny

This project models the sequential core of HyperFlow, a hyper-parameter search
package, and proves properties of that model:

- **The resource manager** (`ResourceManager`) of one search worker. It opens
  the trial database and Redis lazily, lays out a dataset's directories, and
  stores one evaluated trial as a table row plus a model bundle. The bundle is
  either a `.bz2` file under the trials directory or inline in the row.
  `delete_models` is the worker's stop/continue decision. It adds up the
  per-worker completion counters of the shared `sync_dict` and compares the
  sum with `exit_processes`. On the master worker it then runs the retention
  pass: every estimator keeps its 50 best trials by (loss, cost_time), and the
  others lose their model files and rows. The trial table is a map from
  trial id to row. The file system is a map from each file path to the
  bundle dumped into it, and a set of directories.
- **The cross-validation evaluator** (`TrainEvaluator`). `loss` turns a score
  into `optimum - score`. `evaluate` runs the folds, keeps one entry per fold
  in each of its parallel lists, and averages the losses and every named
  metric. It ensembles the test predictions by voting for classification and
  by averaging otherwise. `__call__` completes the record of a trial for the
  trial store.
- **The tuner** (`Tuner`): the settings `__init__` normalises, the size of the
  initial design, the run limit, and the driver loop of `run`. That loop stops
  early when `delete_models` says to stop.
- **The build script** (`setup.py`): the loop that turns the lines of
  `requirements.txt` into `install_requires`, including the GitHub-source
  regular expression, and `get_package_data`'s suffix filter.

The modules are:

- `Wrappers`: `Option`, `Result` and `Outcome`.
- `Trials`: the row schema, the rank order and the retention facts.
- `Coordination`: the `sync_dict` counters.
- `Manager`: the class `ResourceManager`.
- `Evaluation`, `Tuning` and `Packaging`.

Where the code has a loop or updates state in place, the model is imperative:
a class with `modifies` clauses, or methods with loops. Each such method is
proved against a specification function, and the properties are proved about
that function.

Other code the core calls is not modelled; it enters the model as parameters:

- the splitter, the pipeline's `procedure`, `calculate_score`,
  `vote_predicts`/`mean_predicts` and `shp2model`;
- `parse_n_jobs`, whose result is an argument;
- `os.walk` and the file reads, whose results are arguments.

## Model

| member | source | states |
|---|---|---|
| Manager.ResourceManager.constructor | hyperflow/manager/resource_manager.py:23-50 | the settings are stored, a missing project path or redis_params falls back to its default, the project directory is created, and every connection flag starts false |
| Manager.ResourceManager.SetIsMaster | hyperflow/manager/resource_manager.py:154-155 | the master flag takes the given value |
| Manager.ResourceManager.InitDatasetPath | hyperflow/manager/resource_manager.py:69-84 | the dataset paths sit under `<project>/<dataset>`; exactly the smac_output, trials and hdl_constructor directories are created; the runhistory path is set only for sqlite |
| Manager.ResourceManager.ConnectRedis | hyperflow/manager/resource_manager.py:157-166 | already connected: returns true and changes nothing; otherwise returns true and sets the flag and client when the client can be built, else returns false with the flag unset |
| Manager.ResourceManager.CloseRedis | hyperflow/manager/resource_manager.py:168-170 | clears the client and the flag |
| Manager.ResourceManager.ConnectDb | hyperflow/manager/resource_manager.py:229-235 | idempotent once initialised; otherwise opens the database at `db_path` and builds the table over it; before `init_dataset_path` it raises AttributeError with the flag already set |
| Manager.ResourceManager.CloseDb | hyperflow/manager/resource_manager.py:237-240 | resets the flag and forgets the database and the table, so the next connect starts over |
| Manager.ResourceManager.PersistEvaluatedModel | hyperflow/manager/resource_manager.py:104-110 | the bundle is written to `<trials_dir>/<trial_id>.bz2` and that path is returned; a missing trial_id or models raises KeyError, a missing trials_dir AttributeError |
| Manager.ResourceManager.InsertToDb | hyperflow/manager/resource_manager.py:242-272 | as written: the insert succeeds iff the table is reachable, trial_id and models are given and the id is new; on success exactly that row is added, with path and 0 in "fs" mode and "" and the inline bundle in "db" mode; a duplicate id raises IntegrityError and leaves the table unchanged, but in "fs" mode the bundle file has already been overwritten |
| Manager.ResourceManager.InsertToDbChecked | hyperflow/manager/resource_manager.py:242-272 | as intended: succeeds on the same inputs and adds the same row and file; on any error neither the table nor the files change, so a duplicate id leaves the stored row's bundle intact |
| Manager.DuplicateInsertAsWritten | hyperflow/manager/resource_manager.py:104-110 | inserting the same trial id twice in "fs" mode: the second insert raises IntegrityError, yet the stored row's file now holds the rejected bundle |
| Manager.DuplicateInsertChecked | hyperflow/manager/resource_manager.py:242-272 | the same two inserts through the checked insert: the second raises IntegrityError and the stored row's file keeps the first bundle |
| Manager.EnumerateIds | hyperflow/manager/resource_manager.py:293-294 | the rows of a group are listed once each, in an order the database leaves open |
| Manager.ResourceManager.GetBestKTrials | hyperflow/manager/resource_manager.py:131-137 | returns existing trial ids, one per distinct (loss, cost_time) group, as many as the smaller of k and the number of groups; it makes no claim about order; afterwards the database is initialised and, on success, the table is set |
| Manager.ResourceManager.DeleteModelFiles | hyperflow/manager/resource_manager.py:296-300 | exactly the model files of the given rows are deleted |
| Manager.ResourceManager.DeleteRows | hyperflow/manager/resource_manager.py:301 | exactly the given rows are deleted |
| Manager.ResourceManager.DropRows | hyperflow/manager/resource_manager.py:295-301 | the files of the given rows ("fs" mode only) and then the rows themselves are deleted, and nothing else |
| Manager.ResourceManager.EvictEstimator | hyperflow/manager/resource_manager.py:293-301 | afterwards the estimator has min(50, n) rows and every kept row ranks no later than every deleted one; only its rows are deleted; in "fs" mode exactly the deleted rows' files go |
| Manager.ResourceManager.RetentionPass | hyperflow/manager/resource_manager.py:289-301 | the retention invariant holds for every estimator at once, relative to the table before the pass; the files deleted are exactly those of the deleted rows |
| Manager.ResourceManager.DeleteModels | hyperflow/manager/resource_manager.py:274-302 | returns false and changes nothing when the slots reach the threshold; a non-master returns true with nothing changed; the master returns true after the retention pass, with the table set; the result is always "not told to stop"; rows and files are only ever removed, never added or changed |
| Coordination.ExitRequested | hyperflow/manager/resource_manager.py:277-284 | the answer is "stop" iff a dictionary is present and the sum of its integer-keyed values is at least `exit_processes` (3 when absent) |
| Coordination.StopIsStable | hyperflow/manager/resource_manager.py:277-284 | once the workers are told to stop, a further completed trial never turns the answer back |
| Coordination.CompletionsReachThreshold | hyperflow/manager/resource_manager.py:278-283 | completions that close the gap to the threshold raise the slot sum by their number and make the answer "stop" |
| Coordination.IncrementCounts | hyperflow/manager/resource_manager.py:280-282 | one completion raises the slot sum by one and leaves the threshold alone |
| Trials.TrialRow | hyperflow/manager/resource_manager.py:251-272 | the row carries the given trial id, models path and inline bundle; loss, test_loss and cost_time default to the 65535 sentinel, status to "failed" and estimator to ""; the per-fold lists and hyper-parameters are passed through |
| Trials.FailedRowDefaults | hyperflow/manager/resource_manager.py:254-269 | a row without loss, cost_time and status is stored as "failed" at the 65535 sentinels and ranks after every trial below the sentinels |
| Trials.ModelsFileNameInjective | hyperflow/manager/resource_manager.py:106 | two trial ids share a model file name iff they are equal |
| Trials.FileNamesDistinct | hyperflow/manager/resource_manager.py:106 | in "fs" mode no two rows share a model file |
| Trials.RetentionKeepsBlobs | hyperflow/manager/resource_manager.py:296-301 | deleting the files of the deleted rows leaves the file of every kept row in place |
| Trials.InsertByRank | hyperflow/manager/resource_manager.py:293-294 | inserting a row into a ranked list keeps its elements, with the new one added once |
| Trials.InsertByRankSorted | hyperflow/manager/resource_manager.py:293-294 | inserting into a list sorted by (loss, cost_time) keeps it sorted |
| Trials.OrderByRank | hyperflow/manager/resource_manager.py:293-294 | ordering by (loss, cost_time) is a permutation of the rows |
| Trials.OrderByRankSorted | hyperflow/manager/resource_manager.py:293-294 | the ordered rows are sorted by (loss, cost_time) and keep their distinctness |
| Trials.EvictionRetainsTopK | hyperflow/manager/resource_manager.py:293-301 | deleting the rows past position k leaves min(k, n) of the estimator's rows, each ranked no later than any deleted one, and deletes only that estimator's rows |
| Trials.EvictionStep | hyperflow/manager/resource_manager.py:293-301 | one estimator's step deletes only its rows, establishes retention for it, and deletes exactly those rows' files |
| Trials.PassStepKeepsOthers | hyperflow/manager/resource_manager.py:292-301 | a step over one estimator keeps the retention already established for every other estimator |
| Trials.EvictedPathsCompose | hyperflow/manager/resource_manager.py:292-301 | two steps in a row delete the files of both |
| Evaluation.LossOf | hyperflow/evaluation/train_evaluator.py:63-72 | a score that is neither a number nor a dict raises TypeError; a dict without the metric's name raises KeyError; on success `all_score` is present iff the score is a dict |
| Evaluation.LossInvertsScore | hyperflow/evaluation/train_evaluator.py:52-72 | the loss is defined iff the score has a value, and `optimum - err` gives that value back; a dict score is returned as `all_score`, a number with None; any other score raises TypeError |
| Evaluation.LossAntitone | hyperflow/evaluation/train_evaluator.py:63-67 | a larger score never gives a larger loss |
| Evaluation.MeanBounds | hyperflow/evaluation/train_evaluator.py:121 | the mean of the fold losses lies between any lower and upper bound of them |
| Evaluation.MeanConstant | hyperflow/evaluation/train_evaluator.py:121 | the mean of equal fold losses is that loss |
| Evaluation.RunFoldsIndex | hyperflow/evaluation/train_evaluator.py:101-119 | a successful fold loop has one result per split, each the result of that split's fold |
| Evaluation.RunFoldsStopsAtError | hyperflow/evaluation/train_evaluator.py:101-119 | once a fold raises, the later splits are never run |
| Evaluation.ListsOfIndex | hyperflow/evaluation/train_evaluator.py:95-119 | every per-fold list has one entry per fold in fold order, every model entry is the same model, and the intermediate result is the last fold's |
| Evaluation.FoldLoop | hyperflow/evaluation/train_evaluator.py:95-119 | the loop builds exactly the per-fold lists of the folds run, or raises what the first failing fold raises |
| Evaluation.AverageScores | hyperflow/evaluation/train_evaluator.py:122-132 | the metric averaging gives each name's mean over the folds that report it when the first fold's dict is non-empty, and None otherwise; a fold without a dict fails the assert |
| Evaluation.AggregateUniform | hyperflow/evaluation/train_evaluator.py:122-129 | when every fold reports the same non-empty names, the aggregate has exactly those names, each the plain mean over all folds |
| Evaluation.KeyValuesNonEmpty | hyperflow/evaluation/train_evaluator.py:124-127 | a name collects values iff some fold reports it |
| Evaluation.Evaluate | hyperflow/evaluation/train_evaluator.py:90-158 | `evaluate` returns or raises exactly what the fold loop, the averaging and the test-set step give, and asserts that a resource manager is set |
| Evaluation.EvaluateOnePerFold | hyperflow/evaluation/train_evaluator.py:101-134 | every per-fold list has one entry per split in split order, with that split's validation indices and loss; the returned loss is `info["loss"]` and the mean of the losses |
| Evaluation.EvaluateMetricMeans | hyperflow/evaluation/train_evaluator.py:122-137 | with uniform non-empty metric names, `all_score` has exactly those names, each the mean over the folds, and `all_scores` keeps the fold dicts |
| Evaluation.EvaluateTestKeys | hyperflow/evaluation/train_evaluator.py:144-156 | the test keys are present iff `y_test` is given; the prediction is the vote of the fold predictions for classification and their mean otherwise |
| Evaluation.EvaluateNoSplits | hyperflow/evaluation/train_evaluator.py:91-141 | with no splits `intermediate_result` is unbound; without a resource manager the assert fails |
| Evaluation.FinishShape | hyperflow/evaluation/train_evaluator.py:121-158 | a finished evaluation's info holds the per-fold lists, the mean loss, the aggregated metrics, and the test part iff `y_test` is given |
| Evaluation.EstimatorName | hyperflow/evaluation/train_evaluator.py:178 | the estimator is "unk" when `dhp` has no estimator entry, and otherwise the first of its keys; no keys raises IndexError |
| Evaluation.CallRecordRow | hyperflow/evaluation/train_evaluator.py:174-180 | the stored row of a completed trial is marked "success" and carries the evaluated loss, the cost, the estimator and the per-fold lists |
| Evaluation.CallAsWritten | hyperflow/evaluation/train_evaluator.py:163-182 | as written, every call whose evaluation succeeds and whose estimator name resolves raises AttributeError at `insert_to_trials_db`; an estimator entry without keys raises IndexError first; a failed evaluation raises its own error |
| Evaluation.Call | hyperflow/evaluation/train_evaluator.py:163-182 | as intended, through the checked insert: a call whose evaluation succeeds, whose estimator name resolves, whose table is reachable and whose id is new (with a trials directory in "fs" mode) returns the loss; a successful call returns the loss and the new trial table is the old one plus exactly the completed record's row under the configuration's id, with the bundle file written in "fs" mode and inline in "db" mode; a failed call leaves the table and the files unchanged; a repeated id raises IntegrityError |
| Tuning.NewTuner | hyperflow/tuner/tuner.py:24-79 | an unknown evaluator name raises NotImplementedError; construction succeeds iff the evaluator is callable and the search method is smac, grid or random; debug turns limit_resource off; grid and random force `initial_runs` to 0; the default `exit_processes` is `max(n_jobs // 3, 1)` |
| Tuning.DesignInitialConfigs | hyperflow/tuner/tuner.py:111-119 | smac asks for at least `initial_runs` and at least `n_jobs` random configurations, and as many as one of them; grid and random ask for `run_limit` of their kind; anything else raises |
| Tuning.GetRunLimit | hyperflow/tuner/tuner.py:121-125 | the run limit is `run_limit` for smac, and a non-zero limit only happens for smac |
| Tuning.NonSmacRunsNoIteration | hyperflow/tuner/tuner.py:121-125 | with grid or random search the run limit is 0, so the loop never calls `delete_models` |
| Tuning.LoopCountStops | hyperflow/tuner/tuner.py:171-177 | the loop makes at most `get_run_limit()` iterations; every iteration before the last was told to continue; a loop that ends early ends right after a stop |
| Tuning.LoopCountFull | hyperflow/tuner/tuner.py:171-177 | when no iteration is told to stop, the loop runs to the limit |
| Tuning.Run | hyperflow/tuner/tuner.py:127-177 | empty `initial_configs` return at once and leave the resource manager unchanged; the run only removes trial rows and model files, never adds or alters one (the optimizer steps, left out, are not counted); otherwise the loop makes exactly the iterations the stop decisions allow, and an exception from `delete_models` ends the run, which happens only on the master when the table was not reachable at the start |
| Packaging.StripSlice | setup.py:37 | the stripped line is the slice of the line between its leading and trailing whitespace, and has no whitespace at either end |
| Packaging.StripIdempotent | setup.py:37 | stripping twice is stripping once |
| Packaging.StripTrimmed | setup.py:37 | a line without whitespace at its ends is its own strip |
| Packaging.GitMatch | setup.py:32 | a match starts with `git+https://github.com/` and leaves room for the owner, the '/' and the ".git" around the returned repo |
| Packaging.GitMatchSound | setup.py:32 | a match has the shape `git+https://github.com/<owner>/<repo>.git` at the start of the line, with no '/' in the owner and the first ".git" ending the repo |
| Packaging.GitMatchComplete | setup.py:32 | every line of that shape matches, with `<repo>` as the second group |
| Packaging.LineEntry | setup.py:37-47 | a comment line contributes nothing; a plain line contributes its stripped text; a GitHub line that succeeds contributes `"<package_name> @ <line>"` with the name then set |
| Packaging.Requirements | setup.py:34-47 | the requirements of a file number at most its lines |
| Packaging.ReadRequirements | setup.py:34-47 | the loop returns exactly the requirements the lines define, or raises NameError when they do |
| Packaging.RequirementsStopsAtError | setup.py:34-47 | once a line raises, the later lines are never read |
| Packaging.RequirementsNameError | setup.py:40-45 | the loop raises NameError iff some GitHub line fails to match before any line has matched; otherwise `package_name` is the group of the last matching line |
| Packaging.LineEntryName | setup.py:36-47 | a single line raises iff it is an unmatched GitHub line and no name was read yet; a matched line contributes `"<repo> @ <line>"` |
| Packaging.PlainRequirements | setup.py:36-47 | without GitHub lines the requirements are the stripped non-comment lines, empty ones included, in order |
| Packaging.RequirementsCount | setup.py:36-47 | one requirement per non-comment line |
| Packaging.DropAll | setup.py:62-63 | every kept path loses its first `len(name)+1` characters, in order |
| Packaging.GetPackageData | setup.py:50-64 | returns the walked files that end with a wanted suffix, in walk order, each once, with the package prefix removed |
| Packaging.ListWalk | setup.py:51-55 | the nested loop lists every walked file as `join(path, file)` in walk order |
| Packaging.KeepSuffixed | setup.py:56-61 | a path is kept once when it ends with some suffix; the suffix loop stops at the first match |
| Packaging.DropPrefixes | setup.py:62-63 | the comprehension drops the first `len(name)+1` characters of each kept path |
| Packaging.KeptCount | setup.py:57-61 | a path is kept as often as it is listed when it has a wanted suffix, and never otherwise |
| Packaging.KeptSubsequence | setup.py:57-61 | the kept paths are a subsequence of the listed ones, in walk order |
| Packaging.RelativeToPackage | setup.py:50-64 | for a walk of the package directory, each result is the kept path with exactly `name + "/"` removed |

## Left out

- Storage I/O is not modelled: peewee and SQLite, joblib's dump and load, pickle and JSON encoding, the Redis client calls and the `FileSystem` backends. The table is a map, the files are a map from each file path to the bundle dumped into it, and a column stores the value itself.
- Manager.ResourceManager.PersistEvaluatedModel: does not model `model.resource_manager = None` (lines 107-108), which clears a field of each of the caller's pipeline objects in place; a pipeline here has no such field.
- Trials.TrialRow: a key set explicitly to None is treated as absent and gets the `info.get` default (65535, "failed", ""), whereas the code stores NULL, which SQLite sorts before every number in the retention query. The model therefore ranks such a row last where the database ranks it first; the same holds for `cost_time`, `status` and `estimator`.
- `load_hdl`, `load_dataset_path`, `load_object`, `dump_hdl`, `dump_object`, `load_best_estimator`, `load_best_dhp`, `load_estimators_in_trials` and the Redis list helpers are not modelled. They only wrap storage or deserialise foreign objects.
- `get_model` is reduced to the table class over the open database. The column types and their defaults are folded into `Trials.TrialRow`.
- The `__main__` block of the resource manager is not modelled. It is a demonstration script.
- The `file_system` argument of the constructor is not modelled. The file system is the `files` and `dirs` state.
- The timestamped default project path is not modelled. It reads the clock and the working directory, so it is a parameter.
- The `assert` on `persistent_mode` is not modelled. The `PersistentMode` datatype admits only "fs" and "db".
- Concurrency across processes is not modelled. Coordination.Increment and Coordination.IncrementAll model the per-worker completion counting that `delete_models` assumes other code performs; no line of the modelled source increments a counter. `sync_dict` is a snapshot passed to `DeleteModels`; how other workers update it between checks is outside the model, and `hasattr(self, "sync_dict")` becomes an `Option`.
- The retention pass keeps a hard-coded 50 rows per estimator, as the code does, and not `max_persistent_model`. The field is stored but unused there.
- The "delete:" message printed for each deleted file is not modelled. Neither is the warning `connect_redis` prints.
- Manager.ResourceManager.GetBestKTrials: makes no claim about which groups come first or which member of a group is returned, because the query groups without ordering.
- Manager.ResourceManager.EvictEstimator: rows with equal (loss, cost_time) may be split between kept and deleted in any way, because SQL leaves their order open.
- In "fs" mode `insert_to_db` writes `<trials_dir>/<trial_id>.bz2` before it creates the row. A duplicate trial id names the file of the row already stored, so that row's bundle is overwritten before the insert raises IntegrityError. `InsertToDb` models this as written; see "## Findings".
- Manager.ResourceManager.EvictEstimator: assumes that both runs of the ordered `offset(50)` query, the file loop (lines 296-300) and the delete subquery (line 301), split rows with equal (loss, cost_time) at position 50 the same way. The model evaluates the query once, so the files deleted are exactly those of the rows deleted. Manager.ResourceManager.RetentionPass and Manager.ResourceManager.DeleteModels inherit this assumption.
- Floating point is modelled as real numbers. `np.mean` and the loss are exact, with no NaN or rounding.
- Scores are modelled only as a number, a dict of numbers, or anything else.
- The splitter, `procedure`, `calculate_score`, `vote_predicts` and `mean_predicts` are uninterpreted functions of the evaluator value. `procedure` and `calculate_score` return a `Result`, so their exceptions propagate through the fold loop and `__call__`. The splitter, `vote_predicts` and `mean_predicts` are total: an exception they raise is not modelled.
- `init_data`'s choice of predict function is not modelled. It is used only inside `procedure`.
- The `redirect_stderr` capture is not modelled; the captured text is a parameter.
- The wall-clock cost time is a parameter.
- `get_id_of_config` is not modelled; the configuration id is a parameter.
- Evaluation.FoldLoop: every fold appends the same `model`, as the code does, so `models` holds one object repeated per fold.
- `intermediate_result` is the last fold's list, as in the code. With no splits it is unbound, which the model reports as UnboundLocalError.
- `Tuner` is modelled as a value returned by `NewTuner`. `set_random_state`, `set_hdl`, `hdl2shps`, `set_resource_manager`, `set_task` and `set_data_manager` only store their argument and are not modelled.
- `parse_n_jobs` is not modelled; its result is an argument of `NewTuner`.
- The configuration-space samplers are not modelled. `DesignInitialConfigs` describes the request it makes instead of the sampled configurations.
- `run`'s `init_data`, scenario and SMAC set-up are not modelled, and neither is each `solver.run_()` step. These belong to the optimizer.
- `run` reaches the resource manager through the evaluator; the model passes that manager directly.
- setup.py's Python-version and OS guards, the README read and the `setup()` call are not modelled.
- The requirements file and `os.walk` are inputs: the file as its lines, the walk as its entries.
- `os.path.join` is modelled for POSIX paths only.
- Packaging.RelativeToPackage: assumes that `name` is non-empty, has no trailing '/', and that the walk stays under it, as `os.walk(name)` does.

## Findings

| source | as written | input that shows it | evidently intended | confidence | as-written member | corrected member |
|---|---|---|---|---|---|---|
| hyperflow/evaluation/train_evaluator.py:174-181 | `__call__` hands the record to `insert_to_trials_db`, which `ResourceManager` does not define, and the record has "config_id" but no "trial_id" | any configuration whose evaluation succeeds and whose `dhp` has an estimator entry with a key, or none at all | store the record through `insert_to_db`, keyed by the configuration id, and return the loss | not executed | Evaluation.CallAsWritten | Evaluation.Call |
| hyperflow/manager/resource_manager.py:242-272 | in "fs" mode `insert_to_db` dumps the bundle to `<trials_dir>/<trial_id>.bz2` before `Model.create`; for a trial id already stored this overwrites the stored row's bundle and then raises IntegrityError | the same trial id inserted twice in "fs" mode with different models | reject the duplicate before writing anything | not executed | Manager.DuplicateInsertAsWritten | Manager.ResourceManager.InsertToDbChecked |
