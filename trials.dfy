/**
 * The trial table of the resource manager: the row schema with its column
 * defaults, the (loss, cost_time) ranking used by the retention pass, and the
 * facts about ranking and eviction that the pass relies on.
 *
 * Floats are modelled as reals (NaN and rounding are not part of the model);
 * JSON and pickle serialisation of a column is modelled as storing the value
 * itself, with `None` standing for both a missing key and a Python `None`.
 */
module Trials {
  import opened Wrappers

  type Prediction = seq<real>
  type IndexSet = seq<nat>
  type Metrics = map<string, real>

  /** A fitted pipeline object; only its identity matters to the store. */
  datatype FittedPipeline = FittedPipeline(configId: string)

  /** The fitted pipelines of one trial, as dumped to its model file. */
  type Bundle = seq<FittedPipeline>

  /** A point of the optimizer's configuration space (`program_hyper_param`). */
  datatype Configuration = Configuration(point: seq<real>)

  /** The human-readable configuration (`dict_hyper_param`); `estimatorKeys` lists the
      keys of its "estimator" entry in insertion order, or is None when that entry is absent. */
  datatype DictHyperParam = DictHyperParam(estimatorKeys: Option<seq<string>>)

  /** The `info` dictionary handed to `insert_to_db`: None means the key is absent (or None). */
  datatype TrialInfo = TrialInfo(
    trialId: Option<string>,
    models: Option<seq<FittedPipeline>>,
    estimator: Option<string>,
    loss: Option<real>,
    losses: Option<seq<real>>,
    testLoss: Option<real>,
    allScore: Option<Metrics>,
    allScores: Option<seq<Option<Metrics>>>,
    testAllScore: Option<Metrics>,
    yTrueIndexes: Option<seq<IndexSet>>,
    yPreds: Option<seq<Prediction>>,
    yTestTrue: Option<Prediction>,
    yTestPred: Option<Prediction>,
    programHyperParam: Option<Configuration>,
    dictHyperParam: Option<DictHyperParam>,
    costTime: Option<real>,
    status: Option<string>,
    failedInfo: Option<string>,
    warningInfo: Option<string>)

  /** One row of the trial table; `modelsBit` is None for the column value 0. */
  datatype TrialRecord = TrialRecord(
    trialId: string,
    estimator: string,
    loss: real,
    losses: Option<seq<real>>,
    testLoss: real,
    allScore: Option<Metrics>,
    allScores: Option<seq<Option<Metrics>>>,
    testAllScore: Option<Metrics>,
    modelsBit: Option<seq<FittedPipeline>>,
    modelsPath: string,
    yTrueIndexes: Option<seq<IndexSet>>,
    yPreds: Option<seq<Prediction>>,
    yTestTrue: Option<Prediction>,
    yTestPred: Option<Prediction>,
    programHyperParam: Option<Configuration>,
    dictHyperParam: Option<DictHyperParam>,
    costTime: real,
    status: string,
    failedInfo: string,
    warningInfo: string)

  /** The sentinel stored for a loss, test loss or cost time that was never computed. */
  const NotComputed: real := 65535.0

  /** How many rows per estimator the retention pass keeps (hard-coded in the source). */
  const KeepPerEstimator: nat := 50

  function GetOr<T>(o: Option<T>, default: T): T {
    match o
    case Some(v) => v
    case None => default
  }

  /** The row `insert_to_db` creates for `info` under key `id`, with the models
      stored at `modelsPath` or inline in `modelsBit`. */
  function TrialRow(info: TrialInfo, id: string, modelsPath: string,
                    modelsBit: Option<seq<FittedPipeline>>): (r: TrialRecord)
    ensures r.trialId == id && r.modelsPath == modelsPath && r.modelsBit == modelsBit
    ensures r.loss == (if info.loss.Some? then info.loss.value else NotComputed)
    ensures r.costTime == (if info.costTime.Some? then info.costTime.value else NotComputed)
    ensures r.testLoss == (if info.testLoss.Some? then info.testLoss.value else NotComputed)
    ensures r.status == (if info.status.Some? then info.status.value else "failed")
    ensures r.estimator == (if info.estimator.Some? then info.estimator.value else "")
    ensures r.losses == info.losses && r.yTrueIndexes == info.yTrueIndexes && r.dictHyperParam == info.dictHyperParam
  {
    TrialRecord(
      id,
      GetOr(info.estimator, ""),
      GetOr(info.loss, NotComputed),
      info.losses,
      GetOr(info.testLoss, NotComputed),
      info.allScore,
      info.allScores,
      info.testAllScore,
      modelsBit,
      modelsPath,
      info.yTrueIndexes,
      info.yPreds,
      info.yTestTrue,
      info.yTestPred,
      info.programHyperParam,
      info.dictHyperParam,
      GetOr(info.costTime, NotComputed),
      GetOr(info.status, "failed"),
      GetOr(info.failedInfo, ""),
      GetOr(info.warningInfo, ""))
  }

  /** A row that carries no loss, cost time or status is stored as a failed trial
      with both ranking columns at the sentinel, so it never ranks ahead of a
      trial whose loss and cost time are below the sentinel. */
  lemma FailedRowDefaults(info: TrialInfo, id: string, path: string,
                          bits: Option<seq<FittedPipeline>>, other: TrialRecord)
    requires info.loss.None? && info.costTime.None? && info.status.None?
    requires other.loss < NotComputed && other.costTime < NotComputed
    ensures TrialRow(info, id, path, bits).status == "failed"
    ensures TrialRow(info, id, path, bits).loss == NotComputed
    ensures TrialRow(info, id, path, bits).costTime == NotComputed
    ensures RankLe(other, TrialRow(info, id, path, bits))
    ensures !RankLe(TrialRow(info, id, path, bits), other)
  {
  }

  /** The file a model bundle is dumped to in "fs" mode. */
  function ModelsFileName(trialsDir: string, id: string): string {
    trialsDir + "/" + id + ".bz2"
  }

  /** Distinct trial ids get distinct model files under one trials directory. */
  lemma ModelsFileNameInjective(dir: string, a: string, b: string)
    ensures ModelsFileName(dir, a) == ModelsFileName(dir, b) <==> a == b
  {
    if ModelsFileName(dir, a) == ModelsFileName(dir, b) {
      var fa, fb := ModelsFileName(dir, a), ModelsFileName(dir, b);
      assert |a| == |b|;
      forall i | 0 <= i < |a| ensures a[i] == b[i] {
        assert fa[|dir| + 1 + i] == a[i];
        assert fb[|dir| + 1 + i] == b[i];
      }
    }
  }

  /** ORDER BY loss, cost_time: `a` may be listed no later than `b`. */
  predicate RankLe(a: TrialRecord, b: TrialRecord) {
    a.loss < b.loss || (a.loss == b.loss && a.costTime <= b.costTime)
  }

  function Min(a: int, b: int): int { if a <= b then a else b }

  function Elems(s: seq<string>): set<string> { set x | x in s }

  predicate Distinct(s: seq<string>) {
    forall i, j :: 0 <= i < j < |s| ==> s[i] != s[j]
  }

  predicate AllIn(ids: seq<string>, table: map<string, TrialRecord>) {
    forall i :: 0 <= i < |ids| ==> ids[i] in table
  }

  predicate SortedByRank(ids: seq<string>, table: map<string, TrialRecord>)
    requires AllIn(ids, table)
  {
    forall i, j :: 0 <= i < j < |ids| ==> RankLe(table[ids[i]], table[ids[j]])
  }

  /** Every row's key is its `trial_id` column (the primary key). */
  ghost predicate KeysMatch(table: map<string, TrialRecord>) {
    forall id :: id in table ==> table[id].trialId == id
  }

  /** `small` is `big` with some entries deleted and none altered. */
  ghost predicate Submap<V>(small: map<string, V>, big: map<string, V>) {
    small.Keys <= big.Keys && forall id :: id in small ==> small[id] == big[id]
  }

  /** The ids of the rows whose estimator column is `e`. */
  function EstimatorIds(table: map<string, TrialRecord>, e: string): set<string> {
    set id | id in table && table[id].estimator == e
  }

  lemma SortedCons(x: string, s: seq<string>, table: map<string, TrialRecord>)
    requires x in table && AllIn(s, table) && SortedByRank(s, table)
    requires forall j :: 0 <= j < |s| ==> RankLe(table[x], table[s[j]])
    ensures AllIn([x] + s, table) && SortedByRank([x] + s, table)
  {
    var r := [x] + s;
    forall i, j | 0 <= i < j < |r| ensures RankLe(table[r[i]], table[r[j]]) {
      assert r[j] == s[j - 1];
      if i > 0 { assert r[i] == s[i - 1]; }
    }
  }

  lemma DistinctCons(x: string, s: seq<string>)
    ensures x !in s && Distinct(s) ==> Distinct([x] + s)
  {
    if x !in s && Distinct(s) {
      var r := [x] + s;
      forall i, j | 0 <= i < j < |r| ensures r[i] != r[j] {
        assert r[j] == s[j - 1];
        if i > 0 { assert r[i] == s[i - 1]; }
      }
    }
  }

  /** Inserts `id` in front of the first row of `ids` that it ranks no later than. */
  function InsertByRank(id: string, ids: seq<string>, table: map<string, TrialRecord>): (r: seq<string>)
    requires id in table && AllIn(ids, table)
    ensures multiset(r) == multiset(ids) + multiset{id}
    ensures forall x :: x in r <==> x == id || x in ids
    ensures AllIn(r, table)
    decreases |ids|
  {
    if ids == [] then [id]
    else if RankLe(table[id], table[ids[0]]) then [id] + ids
    else
      assert ids == [ids[0]] + ids[1..];
      [ids[0]] + InsertByRank(id, ids[1..], table)
  }

  /** Inserting into a rank-sorted sequence keeps it sorted. */
  lemma {:induction false} InsertByRankSorted(id: string, ids: seq<string>, table: map<string, TrialRecord>)
    requires id in table && AllIn(ids, table) && SortedByRank(ids, table)
    ensures SortedByRank(InsertByRank(id, ids, table), table)
    decreases |ids|
  {
    if ids == [] {
    } else if RankLe(table[id], table[ids[0]]) {
      SortedCons(id, ids, table);
    } else {
      var rest := InsertByRank(id, ids[1..], table);
      InsertByRankSorted(id, ids[1..], table);
      forall j | 0 <= j < |rest| ensures RankLe(table[ids[0]], table[rest[j]]) {
        assert rest[j] in rest;
        if rest[j] != id {
          var m :| 0 <= m < |ids| - 1 && ids[1..][m] == rest[j];
          assert ids[m + 1] == rest[j];
        }
      }
      SortedCons(ids[0], rest, table);
    }
  }

  /** Inserting a new id into a sequence without repetitions keeps it so. */
  lemma {:induction false} InsertByRankDistinct(id: string, ids: seq<string>, table: map<string, TrialRecord>)
    requires id in table && AllIn(ids, table) && Distinct(ids) && id !in ids
    ensures Distinct(InsertByRank(id, ids, table))
    decreases |ids|
  {
    if ids == [] {
    } else if RankLe(table[id], table[ids[0]]) {
      DistinctCons(id, ids);
    } else {
      assert ids == [ids[0]] + ids[1..];
      InsertByRankDistinct(id, ids[1..], table);
      DistinctCons(ids[0], InsertByRank(id, ids[1..], table));
    }
  }

  /** The rows `ids` in (loss, cost_time) order; rows that tie keep the order
      in which they were enumerated, which the database leaves unspecified. */
  function OrderByRank(ids: seq<string>, table: map<string, TrialRecord>): (r: seq<string>)
    requires AllIn(ids, table)
    ensures multiset(r) == multiset(ids)
    ensures |r| == |ids|
    ensures forall x :: x in r <==> x in ids
    ensures AllIn(r, table)
  {
    if ids == [] then []
    else
      assert ids == [ids[0]] + ids[1..];
      InsertByRank(ids[0], OrderByRank(ids[1..], table), table)
  }

  /** ORDER BY loss, cost_time: the result is sorted and, when the input has no
      repeated id, neither has the result. */
  lemma {:induction false} OrderByRankSorted(ids: seq<string>, table: map<string, TrialRecord>)
    requires AllIn(ids, table)
    ensures SortedByRank(OrderByRank(ids, table), table)
    ensures Distinct(ids) ==> Distinct(OrderByRank(ids, table))
  {
    if ids != [] {
      assert ids == [ids[0]] + ids[1..];
      OrderByRankSorted(ids[1..], table);
      InsertByRankSorted(ids[0], OrderByRank(ids[1..], table), table);
      if Distinct(ids) {
        assert ids[0] !in ids[1..];
        InsertByRankDistinct(ids[0], OrderByRank(ids[1..], table), table);
      }
    }
  }

  /** A sequence without repetitions has as many elements as its set. */
  lemma {:induction false} DistinctCard(s: seq<string>)
    requires Distinct(s)
    ensures |Elems(s)| == |s|
  {
    if s != [] {
      DistinctCard(s[1..]);
      assert Elems(s) == {s[0]} + Elems(s[1..]);
      assert s[0] !in Elems(s[1..]);
    }
  }

  /** After the pass over estimator `e` that turned `before` into `after`: the
      number of `e`'s rows is the smaller of `k` and what it was, and every kept
      row of `e` ranks no later than every deleted row of `e`. */
  ghost predicate Retained(before: map<string, TrialRecord>, after: map<string, TrialRecord>, e: string, k: nat) {
    && Submap(after, before)
    && |EstimatorIds(after, e)| == Min(k, |EstimatorIds(before, e)|)
    && forall kept, dropped ::
         kept in EstimatorIds(after, e) && dropped in EstimatorIds(before, e) && dropped !in after ==>
           RankLe(before[kept], before[dropped])
  }

  /** The retention invariant over every estimator at once. */
  ghost predicate AllRetained(before: map<string, TrialRecord>, after: map<string, TrialRecord>, k: nat) {
    Submap(after, before) && forall e :: Retained(before, after, e, k)
  }

  /** The rows the pass deletes for one estimator: those past position `k` of
      the ranked enumeration `rows` (`.offset(k)`), in rank order. */
  function EvictedRows(rows: seq<string>, table: map<string, TrialRecord>, k: nat): seq<string>
    requires AllIn(rows, table)
  {
    var ordered := OrderByRank(rows, table);
    if |ordered| > k then ordered[k..] else []
  }

  function Evicted(rows: seq<string>, table: map<string, TrialRecord>, k: nat): set<string>
    requires AllIn(rows, table)
  {
    Elems(EvictedRows(rows, table, k))
  }

  /** A sequence without repetitions splits into two disjoint sets at any position. */
  lemma SplitElems(s: seq<string>, k: nat)
    requires Distinct(s) && k <= |s|
    ensures Elems(s) == Elems(s[..k]) + Elems(s[k..])
    ensures Elems(s[..k]) !! Elems(s[k..])
  {
    assert s == s[..k] + s[k..];
  }

  /** Deleting rows by id removes exactly those ids from every estimator's rows. */
  lemma EstimatorIdsMinus(table: map<string, TrialRecord>, gone: set<string>, e: string)
    ensures EstimatorIds(table - gone, e) == EstimatorIds(table, e) - gone
  {
  }

  /** Deleting the rows past position `k` of the rank-sorted rows of `e` keeps
      exactly the first `k`, each ranking no later than every deleted one. */
  lemma RankedPrefixRetained(table: map<string, TrialRecord>, e: string, ordered: seq<string>, k: nat)
    requires AllIn(ordered, table) && SortedByRank(ordered, table) && Distinct(ordered)
    requires Elems(ordered) == EstimatorIds(table, e) && |ordered| > k
    ensures Retained(table, table - Elems(ordered[k..]), e, k)
  {
    var gone := Elems(ordered[k..]);
    var after := table - gone;
    var top := ordered[..k];
    assert EstimatorIds(after, e) == Elems(top) by {
      SplitElems(ordered, k);
      EstimatorIdsMinus(table, gone, e);
    }
    assert Submap(after, table);
    assert |EstimatorIds(after, e)| == Min(k, |EstimatorIds(table, e)|) by {
      DistinctCard(ordered);
      DistinctCard(top);
    }
    forall kept, dropped |
      kept in EstimatorIds(after, e) && dropped in EstimatorIds(table, e) && dropped !in after
      ensures RankLe(table[kept], table[dropped])
    {
      var i :| 0 <= i < k && top[i] == kept;
      var j :| 0 <= j < |ordered| - k && ordered[k..][j] == dropped;
      assert ordered[i] == kept && ordered[k + j] == dropped;
    }
  }

  /** Deleting `Evicted` keeps estimator `e`'s best `k` rows, and touches no
      row of another estimator. */
  lemma EvictionRetainsTopK(table: map<string, TrialRecord>, e: string, rows: seq<string>, k: nat)
    requires Distinct(rows) && Elems(rows) == EstimatorIds(table, e)
    ensures AllIn(rows, table)
    ensures Evicted(rows, table, k) <= EstimatorIds(table, e)
    ensures Retained(table, table - Evicted(rows, table, k), e, k)
  {
    assert AllIn(rows, table) by {
      forall i | 0 <= i < |rows| ensures rows[i] in table {
        assert rows[i] in Elems(rows);
      }
    }
    var ordered := OrderByRank(rows, table);
    OrderByRankSorted(rows, table);
    assert Elems(ordered) == Elems(rows);
    if |ordered| <= k {
      DistinctCard(rows);
      assert table - Evicted(rows, table, k) == table;
    } else {
      RankedPrefixRetained(table, e, ordered, k);
      SplitElems(ordered, k);
    }
  }

  /** The model files of the rows deleted between `before` and `after`. */
  function EvictedPaths(before: map<string, TrialRecord>, after: map<string, TrialRecord>): set<string> {
    set id | id in before && id !in after :: before[id].modelsPath
  }

  ghost predicate PathsPresent(table: map<string, TrialRecord>, files: set<string>) {
    forall id :: id in table ==> table[id].modelsPath in files
  }

  ghost predicate PathsDistinct(table: map<string, TrialRecord>) {
    forall a, b :: a in table && b in table && a != b ==> table[a].modelsPath != table[b].modelsPath
  }

  /** In "fs" mode the rows of one dataset name their files after their ids, so
      no two rows share a model file. */
  lemma FileNamesDistinct(table: map<string, TrialRecord>, dir: string)
    requires forall id :: id in table ==> table[id].modelsPath == ModelsFileName(dir, id)
    ensures PathsDistinct(table)
  {
    forall a, b | a in table && b in table && a != b
      ensures table[a].modelsPath != table[b].modelsPath
    {
      ModelsFileNameInjective(dir, a, b);
    }
  }

  /** Deleting the model files of the deleted rows leaves every kept row's file
      in place, provided no two rows shared a file. */
  lemma RetentionKeepsBlobs(before: map<string, TrialRecord>, after: map<string, TrialRecord>, files: set<string>)
    requires Submap(after, before) && PathsPresent(before, files) && PathsDistinct(before)
    ensures PathsPresent(after, files - EvictedPaths(before, after))
  {
  }

  /** The model files of the rows `ids`. */
  function PathsOf(ids: seq<string>, table: map<string, TrialRecord>): set<string>
    requires AllIn(ids, table)
  {
    set j | 0 <= j < |ids| :: table[ids[j]].modelsPath
  }

  /** The files of a list of rows are the files of the rows that deleting the
      list removes. */
  lemma EvictedPathsOfDeleted(table: map<string, TrialRecord>, gone: seq<string>)
    requires AllIn(gone, table)
    ensures PathsOf(gone, table) == EvictedPaths(table, table - Elems(gone))
  {
    var lhs := PathsOf(gone, table);
    forall p | p in EvictedPaths(table, table - Elems(gone)) ensures p in lhs {
      var id :| id in table && id !in table - Elems(gone) && table[id].modelsPath == p;
      var j :| 0 <= j < |gone| && gone[j] == id;
    }
  }

  /** One estimator's step of the pass, all at once: deleting `EvictedRows`
      keeps the estimator's best `k` rows, removes nothing of any other
      estimator, and the files it deletes are exactly those of the removed rows. */
  lemma EvictionStep(table: map<string, TrialRecord>, e: string, rows: seq<string>, k: nat)
    requires Distinct(rows) && Elems(rows) == EstimatorIds(table, e)
    ensures AllIn(rows, table) && AllIn(EvictedRows(rows, table, k), table)
    ensures var after := table - Elems(EvictedRows(rows, table, k));
            && Submap(after, table)
            && table.Keys - after.Keys <= EstimatorIds(table, e)
            && Retained(table, after, e, k)
            && PathsOf(EvictedRows(rows, table, k), table) == EvictedPaths(table, after)
    ensures EvictedRows(rows, table, k) == [] ==> table - Elems(EvictedRows(rows, table, k)) == table
  {
    EvictionRetainsTopK(table, e, rows, k);
    var gone := EvictedRows(rows, table, k);
    assert AllIn(gone, table) by {
      var ordered := OrderByRank(rows, table);
      if |ordered| > k {
        forall i | 0 <= i < |gone| ensures gone[i] in table {
          assert gone[i] == ordered[k + i];
        }
      }
    }
    EvictedPathsOfDeleted(table, gone);
  }

  /** Two passes in a row delete the files of both. */
  lemma EvictedPathsCompose(t0: map<string, TrialRecord>, t1: map<string, TrialRecord>, t2: map<string, TrialRecord>)
    requires Submap(t1, t0) && Submap(t2, t1)
    ensures EvictedPaths(t0, t2) == EvictedPaths(t0, t1) + EvictedPaths(t1, t2)
  {
    forall p | p in EvictedPaths(t0, t2) ensures p in EvictedPaths(t0, t1) + EvictedPaths(t1, t2) {
      var id :| id in t0 && id !in t2 && t0[id].modelsPath == p;
      if id in t1 {
        assert t1[id].modelsPath == p;
      }
    }
  }

  /** Deleting rows of estimator `e` alone keeps what an earlier pass
      established for another estimator `x`. */
  lemma RetainedOtherEstimator(t0: map<string, TrialRecord>, t1: map<string, TrialRecord>,
                               t2: map<string, TrialRecord>, e: string, x: string, k: nat)
    requires Submap(t2, t1) && t1.Keys - t2.Keys <= EstimatorIds(t1, e) && x != e
    requires Retained(t0, t1, x, k)
    ensures EstimatorIds(t2, x) == EstimatorIds(t1, x)
    ensures Retained(t0, t2, x, k)
  {
    forall id | id in EstimatorIds(t1, x) ensures id in t2 {
      assert id !in EstimatorIds(t1, e);
    }
    forall kept, dropped |
      kept in EstimatorIds(t2, x) && dropped in EstimatorIds(t0, x) && dropped !in t2
      ensures RankLe(t0[kept], t0[dropped])
    {
      assert dropped !in t1;
    }
  }

  /** A pass over estimator `e` applied to a table where `e`'s rows are still
      those of `t0` establishes retention for `e` relative to `t0`. */
  lemma RetainedFromUntouched(t0: map<string, TrialRecord>, t1: map<string, TrialRecord>,
                              t2: map<string, TrialRecord>, e: string, k: nat)
    requires Submap(t1, t0) && EstimatorIds(t1, e) == EstimatorIds(t0, e)
    requires Retained(t1, t2, e, k)
    ensures Retained(t0, t2, e, k)
  {
    forall kept, dropped |
      kept in EstimatorIds(t2, e) && dropped in EstimatorIds(t0, e) && dropped !in t2
      ensures RankLe(t0[kept], t0[dropped])
    {
      assert dropped in EstimatorIds(t1, e);
    }
  }

  /** One step of the retention pass over the estimators: after the pass over
      `e`, the estimators still to do are untouched and the done ones, `e`
      included, are retained relative to the table the pass started from. */
  lemma PassStepKeepsOthers(t0: map<string, TrialRecord>, t1: map<string, TrialRecord>,
                            t2: map<string, TrialRecord>, e: string, remaining: set<string>, k: nat)
    requires Submap(t1, t0) && e in remaining
    requires forall x :: x in remaining ==> EstimatorIds(t1, x) == EstimatorIds(t0, x)
    requires forall x :: x !in remaining ==> Retained(t0, t1, x, k)
    requires Submap(t2, t1) && t1.Keys - t2.Keys <= EstimatorIds(t1, e) && Retained(t1, t2, e, k)
    ensures Submap(t2, t0)
    ensures forall x :: x in remaining - {e} ==> EstimatorIds(t2, x) == EstimatorIds(t0, x)
    ensures forall x :: x !in remaining - {e} ==> Retained(t0, t2, x, k)
  {
    forall x | x in remaining - {e} ensures EstimatorIds(t2, x) == EstimatorIds(t0, x) {
      forall id | id in EstimatorIds(t1, x) ensures id in t2 {
        assert id !in EstimatorIds(t1, e);
      }
    }
    forall x | x !in remaining - {e} ensures Retained(t0, t2, x, k) {
      if x == e {
        RetainedFromUntouched(t0, t1, t2, e, k);
      } else {
        RetainedOtherEstimator(t0, t1, t2, e, x, k);
      }
    }
  }
}
