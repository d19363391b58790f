/**
 * The exit-coordination counter shared by the search workers (`sync_dict`):
 * every worker counts its finished trials in a slot keyed by its process id,
 * and a worker stops once the slots add up to the configured number of
 * exiting processes. The dictionary is a snapshot taken when the check runs;
 * how other processes update it concurrently is not part of the model.
 */
module Coordination {
  import opened Wrappers

  /** A key of `sync_dict`: an integer worker slot, or a named setting. */
  datatype SyncKey = WorkerSlot(pid: int) | Named(name: string)

  predicate DistinctKeys(entries: seq<(SyncKey, int)>) {
    forall i, j :: 0 <= i < j < |entries| ==> entries[i].0 != entries[j].0
  }

  /** A Python dictionary: its items in insertion order, each key once. */
  type SyncDict = entries: seq<(SyncKey, int)> | DistinctKeys(entries)

  const ExitProcessesKey: SyncKey := Named("exit_processes")

  /** The threshold used when `sync_dict` has no "exit_processes" entry. */
  const DefaultExitProcesses: int := 3

  function Lookup(d: seq<(SyncKey, int)>, key: SyncKey): (r: Option<int>)
    ensures r.Some? <==> exists i :: 0 <= i < |d| && d[i].0 == key
  {
    if d == [] then None
    else if d[0].0 == key then Some(d[0].1)
    else
      var r := Lookup(d[1..], key);
      assert forall i :: 0 < i < |d| ==> d[i] == d[1..][i - 1];
      r
  }

  /** `sync_dict.get("exit_processes", 3)` */
  function ExitThreshold(d: SyncDict): int {
    match Lookup(d, ExitProcessesKey)
    case Some(v) => v
    case None => DefaultExitProcesses
  }

  /** The sum of the values stored under integer keys. */
  function SlotSum(d: seq<(SyncKey, int)>): int {
    if d == [] then 0
    else SlotSum(d[..|d| - 1]) + (if d[|d| - 1].0.WorkerSlot? then d[|d| - 1].1 else 0)
  }

  /** Whether `delete_models` reports "stop": the dictionary exists and its
      worker slots add up to at least the threshold. */
  predicate ShouldStop(sync: Option<SyncDict>) {
    sync.Some? && SlotSum(sync.value) >= ExitThreshold(sync.value)
  }

  /** The first part of `delete_models`: read the threshold, add up the integer
      slots, and compare. */
  method ExitRequested(sync: Option<SyncDict>) returns (stop: bool)
    ensures stop <==> ShouldStop(sync)
  {
    stop := false;
    if sync.Some? {
      var d := sync.value;
      var exitProcesses := match Lookup(d, ExitProcessesKey) case Some(v) => v case None => DefaultExitProcesses;
      var records := 0;
      for i := 0 to |d|
        invariant records == SlotSum(d[..i])
      {
        assert d[..i + 1][..i] == d[..i];
        if d[i].0.WorkerSlot? {
          records := records + d[i].1;
        }
      }
      assert d[..|d|] == d;
      stop := records >= exitProcesses;
    }
  }

  /** The position of `key`, if present. */
  function IndexOf(d: seq<(SyncKey, int)>, key: SyncKey): (r: Option<nat>)
    ensures r.Some? ==> r.value < |d| && d[r.value].0 == key
    ensures r.None? ==> forall i :: 0 <= i < |d| ==> d[i].0 != key
  {
    if d == [] then None
    else if d[0].0 == key then Some(0)
    else
      match IndexOf(d[1..], key)
      case Some(i) => Some(i + 1)
      case None => None
  }

  /** One more finished trial for worker `pid`: the slot is incremented, or
      created with 1 when the worker has none yet. */
  function Increment(d: SyncDict, pid: int): (r: SyncDict)
    ensures |r| >= |d|
  {
    match IndexOf(d, WorkerSlot(pid))
    case Some(i) => d[i := (WorkerSlot(pid), d[i].1 + 1)]
    case None => d + [(WorkerSlot(pid), 1)]
  }

  /** Increments for the workers `pids`, in order. */
  function IncrementAll(d: SyncDict, pids: seq<int>): SyncDict
    decreases |pids|
  {
    if pids == [] then d else IncrementAll(Increment(d, pids[0]), pids[1..])
  }

  /** Adding `delta` to one worker slot adds `delta` to the sum. */
  lemma {:induction false} SlotSumBump(d: seq<(SyncKey, int)>, i: nat, delta: int)
    requires i < |d| && d[i].0.WorkerSlot?
    ensures SlotSum(d[i := (d[i].0, d[i].1 + delta)]) == SlotSum(d) + delta
    decreases |d|
  {
    var d' := d[i := (d[i].0, d[i].1 + delta)];
    if i < |d| - 1 {
      assert d'[..|d'| - 1] == d[..|d| - 1][i := (d[i].0, d[i].1 + delta)];
      SlotSumBump(d[..|d| - 1], i, delta);
    } else {
      assert d'[..|d'| - 1] == d[..|d| - 1];
    }
  }

  /** Changing the value under a key other than `key` does not change what `key` maps to. */
  lemma {:induction false} LookupOtherUpdate(d: seq<(SyncKey, int)>, i: nat, v: int, key: SyncKey)
    requires i < |d| && d[i].0 != key
    ensures Lookup(d[i := (d[i].0, v)], key) == Lookup(d, key)
    decreases |d|
  {
    if d[0].0 != key && i > 0 {
      assert d[i := (d[i].0, v)][1..] == d[1..][i - 1 := (d[i].0, v)];
      LookupOtherUpdate(d[1..], i - 1, v, key);
    }
  }

  /** Appending a key other than `key` does not change what `key` maps to. */
  lemma {:induction false} LookupOtherAppend(d: seq<(SyncKey, int)>, entry: (SyncKey, int), key: SyncKey)
    requires entry.0 != key
    ensures Lookup(d + [entry], key) == Lookup(d, key)
    decreases |d|
  {
    if d != [] && d[0].0 != key {
      assert (d + [entry])[1..] == d[1..] + [entry];
      LookupOtherAppend(d[1..], entry, key);
    }
  }

  /** An increment raises the slot sum by one and leaves the threshold alone. */
  lemma {:induction false} IncrementCounts(d: SyncDict, pid: int)
    ensures SlotSum(Increment(d, pid)) == SlotSum(d) + 1
    ensures ExitThreshold(Increment(d, pid)) == ExitThreshold(d)
  {
    var key := WorkerSlot(pid);
    var r := Increment(d, pid);
    var found := IndexOf(d, key);
    if found.Some? {
      var i := found.value;
      assert r == d[i := (d[i].0, d[i].1 + 1)];
      SlotSumBump(d, i, 1);
      LookupOtherUpdate(d, i, d[i].1 + 1, ExitProcessesKey);
    } else {
      var e := (key, 1);
      assert r == d + [e];
      assert r[..|d|] == d;
      LookupOtherAppend(d, e, ExitProcessesKey);
    }
  }

  /** Once the workers are told to stop, further finished trials never turn
      the answer back into "continue". */
  lemma StopIsStable(d: SyncDict, pid: int)
    requires ShouldStop(Some(d))
    ensures ShouldStop(Some(Increment(d, pid)))
  {
    IncrementCounts(d, pid);
  }

  /** Once the finished trials still to come make up the gap to the threshold,
      the check after them reports "stop": from all-zero slots, `n` workers that
      each finish one trial stop every worker when "exit_processes" is `n`. */
  lemma {:induction false} CompletionsReachThreshold(d: SyncDict, pids: seq<int>)
    requires ExitThreshold(d) <= SlotSum(d) + |pids|
    ensures SlotSum(IncrementAll(d, pids)) == SlotSum(d) + |pids|
    ensures ShouldStop(Some(IncrementAll(d, pids)))
    decreases |pids|
  {
    if pids != [] {
      IncrementCounts(d, pids[0]);
      CompletionsReachThreshold(Increment(d, pids[0]), pids[1..]);
    }
  }
}
