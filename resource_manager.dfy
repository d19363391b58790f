/**
 * The resource manager of a search worker: lazy connections to the trial
 * database and to Redis, the dataset directory layout, persistence of one
 * trial (row plus model bundle), and `delete_models`, the per-worker
 * stop/continue decision followed, on the master worker, by the per-estimator
 * retention pass.
 *
 * The database file, the file system and the directories are modelled by the
 * fields `trials`, `files` and `dirs`; they are what the connection and the
 * file-system object see, not the connection objects themselves.
 */
module Manager {
  import opened Wrappers
  import opened Trials
  import opened Coordination

  /** Where model bundles go: files under the trials directory, or inline in the row. */
  datatype PersistentMode = Fs | Db

  datatype SqliteDatabase = SqliteDatabase(path: string)

  /** The table class `get_model` builds over a database. */
  datatype TrialTable = TrialModel(database: SqliteDatabase)

  datatype RedisClient = Redis(params: map<string, string>)

  /** The paths `init_dataset_path` derives from the project path and the dataset name. */
  datatype DatasetLayout = DatasetLayout(
    datasetName: string,
    datasetPath: string,
    smacOutputDir: string,
    trialsDir: string,
    dbPath: string,
    csvPath: string,
    dataManagerPath: string,
    hdlDir: string)

  function LayoutFor(projectPath: string, datasetName: string): DatasetLayout {
    var datasetPath := projectPath + "/" + datasetName;
    DatasetLayout(
      datasetName,
      datasetPath,
      datasetPath + "/smac_output",
      datasetPath + "/trials",
      datasetPath + "/trials.db",
      datasetPath + "/trials.csv",
      datasetPath + "/data_manager.bz2",
      datasetPath + "/hdl_constructor")
  }

  /** The exceptions the modelled operations raise. */
  datatype RmError =
    | AttributeError(name: string)   // an attribute read before it was set, or read from None
    | KeyError(key: string)          // a required key missing from `info`
    | IntegrityError(trialId: string) // primary-key violation on insert

  /** The distinct values of the estimator column (`group_by(estimator)`). */
  function Estimators(table: map<string, TrialRecord>): set<string> {
    set id | id in table :: table[id].estimator
  }

  /** The (loss, cost_time) group of a row. */
  function RankKey(r: TrialRecord): (real, real) {
    (r.loss, r.costTime)
  }

  /** Lists the ids of `ids` once each, in an order the database leaves unspecified. */
  method EnumerateIds(ids: set<string>) returns (rows: seq<string>)
    ensures Distinct(rows) && Elems(rows) == ids && |rows| == |ids|
  {
    rows := [];
    var rest := ids;
    while rest != {}
      invariant Distinct(rows)
      invariant Elems(rows) + rest == ids && Elems(rows) !! rest
      invariant |rows| + |rest| == |ids|
      decreases |rest|
    {
      var id :| id in rest;
      DistinctCons(id, []);
      assert forall i :: 0 <= i < |rows| ==> rows[i] in Elems(rows);
      rows := rows + [id];
      rest := rest - {id};
    }
  }

  class ResourceManager {
    var storeIntermediate: bool
    var redisParams: map<string, string>
    var persistentMode: PersistentMode
    var dbType: string
    var maxPersistentModel: int
    var projectPath: string
    var layout: Option<DatasetLayout>
    var rhDbArgs: Option<string>
    var isInitDb: bool
    var isInitRedis: bool
    var isMaster: bool
    var db: Option<SqliteDatabase>
    var model: Option<TrialTable>
    var redisClient: Option<RedisClient>
    /** The rows of the trial table, by primary key. */
    var trials: map<string, TrialRecord>
    /** The files present in the file system, each with the bundle dumped into it. */
    var files: map<string, Bundle>
    /** The directories present in the file system. */
    var dirs: set<string>

    ghost predicate Valid()
      reads this
    {
      && KeysMatch(trials)
      && (model.Some? ==> db.Some? && model.value.database == db.value)
      && (isInitRedis ==> redisClient.Some?)
    }

    /** `ResourceManager(...)`: `defaultProjectPath` stands for the timestamped
        directory under the working directory used when no project path is given;
        `existingTrials`, `existingFiles` and `existingDirs` are the stores as found. */
    constructor (projectPath: Option<string>, defaultProjectPath: string, maxPersistentModel: int,
                 persistentMode: PersistentMode, dbType: string, storeIntermediate: bool,
                 redisParams: Option<map<string, string>>,
                 existingTrials: map<string, TrialRecord>, existingFiles: map<string, Bundle>, existingDirs: set<string>)
      requires KeysMatch(existingTrials)
      ensures Valid()
      ensures this.projectPath == if projectPath.Some? && projectPath.value != "" then projectPath.value else defaultProjectPath
      ensures this.redisParams == if redisParams.Some? then redisParams.value else map[]
      ensures this.persistentMode == persistentMode && this.dbType == dbType
      ensures this.maxPersistentModel == maxPersistentModel && this.storeIntermediate == storeIntermediate
      ensures dirs == existingDirs + {this.projectPath}
      ensures trials == existingTrials && files == existingFiles
      ensures !isInitDb && !isInitRedis && !isMaster
      ensures layout.None? && rhDbArgs.None? && db.None? && model.None? && redisClient.None?
    {
      this.storeIntermediate := storeIntermediate;
      this.redisParams := if redisParams.Some? then redisParams.value else map[];
      this.persistentMode := persistentMode;
      this.dbType := dbType;
      this.maxPersistentModel := maxPersistentModel;
      var path := if projectPath.Some? && projectPath.value != "" then projectPath.value else defaultProjectPath;
      this.projectPath := path;
      this.dirs := existingDirs + {path};
      this.trials := existingTrials;
      this.files := existingFiles;
      this.layout := None;
      this.rhDbArgs := None;
      this.isInitDb := false;
      this.isInitRedis := false;
      this.isMaster := false;
      this.db := None;
      this.model := None;
      this.redisClient := None;
    }

    method SetIsMaster(isMaster: bool)
      modifies this`isMaster
      ensures this.isMaster == isMaster
    {
      this.isMaster := isMaster;
    }

    /** `init_dataset_path`: derive the dataset's paths and create its directories. */
    method InitDatasetPath(datasetName: string)
      requires Valid()
      modifies this`layout, this`dirs, this`rhDbArgs
      ensures Valid()
      ensures layout == Some(LayoutFor(projectPath, datasetName))
      ensures layout.value.dbPath == projectPath + "/" + datasetName + "/trials.db"
      ensures layout.value.trialsDir == projectPath + "/" + datasetName + "/trials"
      ensures dirs == old(dirs) + {layout.value.smacOutputDir, layout.value.trialsDir, layout.value.hdlDir}
      ensures rhDbArgs == if dbType == "sqlite" then Some(layout.value.datasetPath + "/runhistory.db") else old(rhDbArgs)
    {
      var l := LayoutFor(projectPath, datasetName);
      layout := Some(l);
      dirs := dirs + {l.smacOutputDir};
      dirs := dirs + {l.trialsDir};
      dirs := dirs + {l.hdlDir};
      if dbType == "sqlite" {
        rhDbArgs := Some(l.datasetPath + "/runhistory.db");
      }
    }

    /** `connect_redis`: `constructs` says whether building the client succeeds. */
    method ConnectRedis(constructs: bool) returns (ok: bool)
      requires Valid()
      modifies this`isInitRedis, this`redisClient
      ensures Valid()
      ensures old(isInitRedis) ==> ok && isInitRedis && redisClient == old(redisClient)
      ensures !old(isInitRedis) && constructs ==> ok && isInitRedis && redisClient == Some(Redis(redisParams))
      ensures !old(isInitRedis) && !constructs ==> !ok && !isInitRedis && redisClient == old(redisClient)
    {
      if isInitRedis {
        return true;
      }
      if constructs {
        redisClient := Some(Redis(redisParams));
        isInitRedis := true;
        return true;
      }
      return false;
    }

    method CloseRedis()
      requires Valid()
      modifies this`isInitRedis, this`redisClient
      ensures Valid()
      ensures !isInitRedis && redisClient.None?
    {
      redisClient := None;
      isInitRedis := false;
    }

    /** `connect_db`: a no-op once initialised. The flag is raised before the
        database path is read, so a call made before `init_dataset_path` fails
        with the flag already set. */
    method ConnectDb() returns (r: Outcome<RmError>)
      requires Valid()
      modifies this`isInitDb, this`db, this`model
      ensures Valid()
      ensures isInitDb
      ensures old(isInitDb) ==> r == Pass && db == old(db) && model == old(model)
      ensures !old(isInitDb) && layout.Some? ==>
                r == Pass && db == Some(SqliteDatabase(layout.value.dbPath)) && model == Some(TrialModel(db.value))
      ensures !old(isInitDb) && layout.None? ==>
                r == Fail(AttributeError("db_path")) && db == old(db) && model == old(model)
    {
      if isInitDb {
        return Pass;
      }
      isInitDb := true;
      if layout.None? {
        return Fail(AttributeError("db_path"));
      }
      db := Some(SqliteDatabase(layout.value.dbPath));
      model := Some(TrialModel(db.value));
      return Pass;
    }

    /** `close_db`: forget the connection so that the next `connect_db` starts over. */
    method CloseDb()
      requires Valid()
      modifies this`isInitDb, this`db, this`model
      ensures Valid()
      ensures !isInitDb && db.None? && model.None?
    {
      isInitDb := false;
      db := None;
      model := None;
    }

    /** `persistent_evaluated_model`: dump the bundle to `<trials_dir>/<trial_id>.bz2`. */
    method PersistEvaluatedModel(info: TrialInfo) returns (r: Result<string, RmError>)
      modifies this`files
      ensures info.trialId.None? ==> r == Err(KeyError("trial_id"))
      ensures info.trialId.Some? && layout.None? ==> r == Err(AttributeError("trials_dir"))
      ensures info.trialId.Some? && layout.Some? && info.models.None? ==> r == Err(KeyError("models"))
      ensures r.Ok? <==> info.trialId.Some? && layout.Some? && info.models.Some?
      ensures r.Ok? ==> r.value == ModelsFileName(layout.value.trialsDir, info.trialId.value)
      ensures files == if r.Ok? then old(files)[r.value := info.models.value] else old(files)
    {
      if info.trialId.None? {
        return Err(KeyError("trial_id"));
      }
      if layout.None? {
        return Err(AttributeError("trials_dir"));
      }
      var fileName := ModelsFileName(layout.value.trialsDir, info.trialId.value);
      if info.models.None? {
        return Err(KeyError("models"));
      }
      files := files[fileName := info.models.value];
      return Ok(fileName);
    }

    /** Whether `connect_db` leaves a usable table class behind. */
    ghost predicate TableReachable()
      reads this
    {
      if isInitDb then model.Some? else layout.Some?
    }

    /** `insert_to_db`: connect, store the model bundle, then create the row.
        In "fs" mode the bundle file is written before the row is attempted.
        For a duplicate id that file is the stored row's own, so its bundle is
        overwritten before IntegrityError is raised; the table itself is only
        changed by a successful insert. */
    method InsertToDb(info: TrialInfo) returns (r: Outcome<RmError>)
      requires Valid()
      modifies this`isInitDb, this`db, this`model, this`files, this`trials
      ensures Valid()
      ensures isInitDb
      ensures r == Pass <==>
                && old(TableReachable())
                && info.trialId.Some? && info.models.Some?
                && (persistentMode == Fs ==> layout.Some?)
                && info.trialId.value !in old(trials)
      ensures r == Pass ==>
                var id := info.trialId.value;
                trials == old(trials)[id := if persistentMode == Fs
                  then TrialRow(info, id, ModelsFileName(layout.value.trialsDir, id), None)
                  else TrialRow(info, id, "", info.models)]
      ensures r == Pass ==> model.Some?
      ensures r.Fail? ==> trials == old(trials)
      ensures (&& old(TableReachable()) && info.trialId.Some? && info.models.Some?
               && (persistentMode == Fs ==> layout.Some?) && info.trialId.value in old(trials))
                ==> r == Fail(IntegrityError(info.trialId.value))
      ensures files == if old(isInitDb) || layout.Some?
                         then (if persistentMode == Fs && info.trialId.Some? && layout.Some? && info.models.Some?
                               then old(files)[ModelsFileName(layout.value.trialsDir, info.trialId.value) := info.models.value]
                               else old(files))
                         else old(files)
    {
      var c := ConnectDb();
      if c.Fail? {
        return c;
      }
      var modelsPath: string;
      var modelsBit: Option<seq<FittedPipeline>>;
      if persistentMode == Fs {
        var p := PersistEvaluatedModel(info);
        if p.Err? {
          return Fail(p.error);
        }
        modelsPath := p.value;
        modelsBit := None;
      } else {
        if info.models.None? {
          return Fail(KeyError("models"));
        }
        modelsPath := "";
        modelsBit := info.models;
      }
      if model.None? {
        return Fail(AttributeError("Model"));
      }
      if info.trialId.None? {
        return Fail(KeyError("trial_id"));
      }
      var id := info.trialId.value;
      if id in trials {
        return Fail(IntegrityError(id));
      }
      trials := trials[id := TrialRow(info, id, modelsPath, modelsBit)];
      return Pass;
    }

    /** `insert_to_db` as evidently intended: the primary key is checked
        before the bundle is dumped, so a rejected trial leaves every file,
        and the bundle of the row already stored under its id, as it was. */
    method InsertToDbChecked(info: TrialInfo) returns (r: Outcome<RmError>)
      requires Valid()
      modifies this`isInitDb, this`db, this`model, this`files, this`trials
      ensures Valid()
      ensures isInitDb
      ensures r == Pass <==>
                && old(TableReachable())
                && info.trialId.Some? && info.models.Some?
                && (persistentMode == Fs ==> layout.Some?)
                && info.trialId.value !in old(trials)
      ensures r == Pass ==> model.Some?
      ensures r == Pass ==>
                var id := info.trialId.value;
                trials == old(trials)[id := if persistentMode == Fs
                  then TrialRow(info, id, ModelsFileName(layout.value.trialsDir, id), None)
                  else TrialRow(info, id, "", info.models)]
      ensures r == Pass ==>
                files == if persistentMode == Fs
                         then old(files)[ModelsFileName(layout.value.trialsDir, info.trialId.value) := info.models.value]
                         else old(files)
      ensures r.Fail? ==> trials == old(trials) && files == old(files)
      ensures (old(TableReachable()) && info.trialId.Some? && info.trialId.value in old(trials))
                ==> r == Fail(IntegrityError(info.trialId.value))
    {
      var c := ConnectDb();
      if c.Fail? {
        return c;
      }
      if model.None? {
        return Fail(AttributeError("Model"));
      }
      if info.trialId.None? {
        return Fail(KeyError("trial_id"));
      }
      var id := info.trialId.value;
      if id in trials {
        return Fail(IntegrityError(id));
      }
      var modelsPath: string;
      var modelsBit: Option<Bundle>;
      if persistentMode == Fs {
        var p := PersistEvaluatedModel(info);
        if p.Err? {
          return Fail(p.error);
        }
        modelsPath := p.value;
        modelsBit := None;
      } else {
        if info.models.None? {
          return Fail(KeyError("models"));
        }
        modelsPath := "";
        modelsBit := info.models;
      }
      trials := trials[id := TrialRow(info, id, modelsPath, modelsBit)];
      return Pass;
    }

    /** `get_best_k_trials`: one id from each of at most `k` (loss, cost_time)
        groups (a negative `k` is no limit). Which groups and which member of a
        group come back is left to the database: the query groups but does not
        order. */
    method GetBestKTrials(k: int) returns (r: Result<seq<string>, RmError>)
      requires Valid()
      modifies this`isInitDb, this`db, this`model
      ensures Valid()
      ensures isInitDb
      ensures r.Ok? <==> old(TableReachable())
      ensures r.Ok? ==> model.Some?
      ensures r.Ok? ==> forall i :: 0 <= i < |r.value| ==> r.value[i] in trials
      ensures r.Ok? ==> forall i, j :: 0 <= i < j < |r.value| ==>
                          RankKey(trials[r.value[i]]) != RankKey(trials[r.value[j]])
      ensures r.Ok? ==> var groups := set id | id in trials :: RankKey(trials[id]);
                        |r.value| == if k < 0 then |groups| else Min(k, |groups|)
    {
      var c := ConnectDb();
      if c.Fail? {
        return Err(c.error);
      }
      if model.None? {
        return Err(AttributeError("Model"));
      }
      var groups := set id | id in trials :: RankKey(trials[id]);
      var ids: seq<string> := [];
      var rest := groups;
      while rest != {} && (k < 0 || |ids| < k)
        invariant rest <= groups
        invariant |ids| + |rest| == |groups|
        invariant forall i :: 0 <= i < |ids| ==> ids[i] in trials && RankKey(trials[ids[i]]) in groups - rest
        invariant forall i, j :: 0 <= i < j < |ids| ==> RankKey(trials[ids[i]]) != RankKey(trials[ids[j]])
        invariant k >= 0 ==> |ids| <= k
        decreases |rest|
      {
        var g :| g in rest;
        var id :| id in trials && RankKey(trials[id]) == g;
        ids := ids + [id];
        rest := rest - {g};
      }
      return Ok(ids);
    }

    /** Deletes the model file of each of the rows `ids`, one after the other. */
    method DeleteModelFiles(ids: seq<string>)
      requires AllIn(ids, trials)
      modifies this`files
      ensures files == old(files) - PathsOf(ids, trials)
    {
      for i := 0 to |ids|
        invariant files == old(files) - (set j | 0 <= j < i :: trials[ids[j]].modelsPath)
      {
        files := files - {trials[ids[i]].modelsPath};
      }
    }

    /** `Model.delete().where(trial_id in ids)`. */
    method DeleteRows(ids: set<string>)
      requires Valid()
      modifies this`trials
      ensures Valid()
      ensures trials == old(trials) - ids
    {
      trials := trials - ids;
    }

    /** One estimator's part of the retention pass: rank its rows by
        (loss, cost_time), delete the model files of the rows past the first
        `KeepPerEstimator` ("fs" mode only), then delete those rows. */
    method EvictEstimator(e: string)
      requires Valid()
      modifies this`trials, this`files
      ensures Valid()
      ensures Submap(trials, old(trials))
      ensures old(trials).Keys - trials.Keys <= EstimatorIds(old(trials), e)
      ensures Retained(old(trials), trials, e, KeepPerEstimator)
      ensures files == if persistentMode == Fs then old(files) - EvictedPaths(old(trials), trials) else old(files)
    {
      var rows := EnumerateIds(EstimatorIds(trials, e));
      EvictionStep(trials, e, rows, KeepPerEstimator);
      var shouldDelete := EvictedRows(rows, trials, KeepPerEstimator);
      if shouldDelete != [] {
        DropRows(shouldDelete);
      }
    }

    /** The deletions of one estimator's evicted rows: their model files
        first ("fs" mode only), then the rows themselves. */
    method DropRows(ids: seq<string>)
      requires Valid() && AllIn(ids, trials)
      modifies this`trials, this`files
      ensures Valid()
      ensures trials == old(trials) - Elems(ids)
      ensures files == if persistentMode == Fs then old(files) - PathsOf(ids, old(trials)) else old(files)
    {
      if persistentMode == Fs {
        DeleteModelFiles(ids);
      }
      DeleteRows(Elems(ids));
    }

    /** The master's retention pass: every estimator keeps its best
        `KeepPerEstimator` rows, the others are deleted together with their
        model files ("fs" mode). */
    method RetentionPass()
      requires Valid()
      modifies this`trials, this`files
      ensures Valid()
      ensures AllRetained(old(trials), trials, KeepPerEstimator)
      ensures files == if persistentMode == Fs then old(files) - EvictedPaths(old(trials), trials) else old(files)
    {
      var estimators := Estimators(trials);
      ghost var t0 := trials;
      ghost var f0 := files;
      forall e | e !in estimators ensures Retained(t0, t0, e, KeepPerEstimator) {
        assert EstimatorIds(t0, e) == {};
      }
      var remaining := estimators;
      while remaining != {}
        invariant Valid()
        invariant Submap(trials, t0)
        invariant forall e :: e in remaining ==> EstimatorIds(trials, e) == EstimatorIds(t0, e)
        invariant forall e :: e !in remaining ==> Retained(t0, trials, e, KeepPerEstimator)
        invariant files == if persistentMode == Fs then f0 - EvictedPaths(t0, trials) else f0
        decreases remaining
      {
        var e :| e in remaining;
        ghost var t1 := trials;
        EvictEstimator(e);
        PassStepKeepsOthers(t0, t1, trials, e, remaining, KeepPerEstimator);
        EvictedPathsCompose(t0, t1, trials);
        remaining := remaining - {e};
      }
    }

    /** `delete_models`: stop when the worker slots of `sync` reach the
        threshold; otherwise continue, and on the master first run the
        retention pass over every estimator. `sync` is the snapshot of the
        shared dictionary, None when the worker has none. */
    method DeleteModels(sync: Option<SyncDict>) returns (r: Result<bool, RmError>)
      requires Valid()
      modifies this`isInitDb, this`db, this`model, this`trials, this`files
      ensures Valid()
      ensures ShouldStop(sync) ==> r == Ok(false) && unchanged(this)
      ensures !ShouldStop(sync) && !isMaster ==> r == Ok(true) && unchanged(this)
      ensures !ShouldStop(sync) && isMaster ==> isInitDb && (r.Ok? <==> old(TableReachable()))
      ensures r.Ok? ==> r.value == !ShouldStop(sync)
      ensures r.Err? ==> trials == old(trials) && files == old(files)
      ensures Submap(trials, old(trials)) && Submap(files, old(files))
      ensures r == Ok(true) && isMaster ==> model.Some?
      ensures r == Ok(true) && isMaster ==> AllRetained(old(trials), trials, KeepPerEstimator)
      ensures r == Ok(true) && isMaster ==>
                files == if persistentMode == Fs then old(files) - EvictedPaths(old(trials), trials) else old(files)
    {
      var stop := ExitRequested(sync);
      if stop {
        return Ok(false);
      }
      if !isMaster {
        return Ok(true);
      }
      var c := ConnectDb();
      if c.Fail? {
        return Err(c.error);
      }
      if model.None? {
        return Err(AttributeError("Model"));
      }
      RetentionPass();
      return Ok(true);
    }
  }

  /** A trial whose only set fields are its id and its bundle. */
  function BareTrial(id: string, bundle: Bundle): TrialInfo {
    TrialInfo(Some(id), Some(bundle), None, None, None, None, None, None, None, None,
              None, None, None, None, None, None, None, None, None)
  }

  /** `insert_to_db` as written, given the same trial id twice in "fs" mode:
      the second insert is rejected by the primary key, but only after its
      bundle was dumped over the file of the row already stored under that id,
      so the surviving row now points to the rejected trial's models. */
  method DuplicateInsertAsWritten() returns (first: Outcome<RmError>, second: Outcome<RmError>, storedBundle: Bundle)
    ensures first == Pass && second == Fail(IntegrityError("t"))
    ensures storedBundle == [FittedPipeline("rejected")]
  {
    var rm := new ResourceManager(Some("/p"), "/d", 50, Fs, "sqlite", true, None, map[], map[], {});
    rm.InitDatasetPath("ds");
    first := rm.InsertToDb(BareTrial("t", [FittedPipeline("kept")]));
    second := rm.InsertToDb(BareTrial("t", [FittedPipeline("rejected")]));
    storedBundle := rm.files[rm.trials["t"].modelsPath];
  }

  /** The same two inserts through `InsertToDbChecked`: the surviving row's
      file still holds the row's own models. */
  method DuplicateInsertChecked() returns (first: Outcome<RmError>, second: Outcome<RmError>, storedBundle: Bundle)
    ensures first == Pass && second == Fail(IntegrityError("t"))
    ensures storedBundle == [FittedPipeline("kept")]
  {
    var rm := new ResourceManager(Some("/p"), "/d", 50, Fs, "sqlite", true, None, map[], map[], {});
    rm.InitDatasetPath("ds");
    first := rm.InsertToDbChecked(BareTrial("t", [FittedPipeline("kept")]));
    second := rm.InsertToDbChecked(BareTrial("t", [FittedPipeline("rejected")]));
    storedBundle := rm.files[rm.trials["t"].modelsPath];
  }
}
