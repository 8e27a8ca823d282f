/**
 * The self-improvement scheduler: a FIFO list of improvement tasks kept in a
 * tasks file, seeded with one full-cycle task when no usable file exists, and
 * a history of recorded results returned newest first.
 */
module Scheduling {
  import opened Wrappers
  import opened JsonValue
  import opened Text
  import opened Tasks

  /** What a JSON file holds when the scheduler starts: missing, present but unreadable, or a decoded list. */
  datatype StoredList<T> = Missing | Unreadable | Loaded(items: seq<T>)

  const DefaultDescription: string := "Стандартний повний цикл самовдосконалення."

  function DefaultOptions(): Dict {
    map["analyze_architecture" := JBool(true), "improve_code_quality" := JBool(true),
        "update_documentation" := JBool(true), "run_tests" := JBool(true)]
  }

  /** The one task `_load_tasks` falls back to; `stamp` renders the clock as `strftime` does. */
  function DefaultTask(stamp: nat): (t: Task)
    ensures Get(t, "type") == JStr("self_improvement") && Get(t, "improvement_type") == JStr("full_cycle")
  {
    map["id" := JStr("default_full_cycle_" + NatToString(stamp)),
        "type" := JStr("self_improvement"),
        "improvement_type" := JStr("full_cycle"),
        "description" := JStr(DefaultDescription),
        "options" := JObj(DefaultOptions())]
  }

  /** `_load_tasks`: a decoded file is used as it is, even when empty; otherwise the default queue. */
  function LoadImprovementTasks(f: StoredList<Task>, stamp: nat): (r: seq<Task>)
    ensures f.Loaded? ==> r == f.items
    ensures !f.Loaded? ==> r == [DefaultTask(stamp)]
  {
    if f.Loaded? then f.items else [DefaultTask(stamp)]
  }

  /** `record_improvement`'s entry; `timestamp` is the clock reading in seconds. */
  datatype Record = Record(timestamp: int, taskId: Value, taskType: Value, status: Value, changesApplied: nat, backupId: Value)

  function LoadHistory(f: StoredList<Record>): seq<Record> {
    if f.Loaded? then f.items else []
  }

  function ImprovementDescription(improvementType: string, description: string): (d: string)
    ensures d != ""
    ensures description != "" ==> d == description
  {
    if description != "" then description
    else "Завдання на самовдосконалення типу '" + improvementType + "'"
  }

  /** The record `add_task` appends; `options or {}` replaces a missing or empty option dict by `{}`. */
  function ImprovementTask(improvementType: string, options: Value, description: string, stamp: nat): (t: Task)
    ensures Get(t, "type") == JStr("self_improvement")
    ensures Get(t, "improvement_type") == JStr(improvementType)
    ensures Get(t, "options") == if Truthy(options) then options else JObj(map[])
    ensures Get(t, "description").JStr? && Get(t, "description").s != ""
    ensures Get(t, "id") == JStr(improvementType + "_" + NatToString(stamp))
  {
    map["id" := JStr(improvementType + "_" + NatToString(stamp)),
        "type" := JStr("self_improvement"),
        "improvement_type" := JStr(improvementType),
        "description" := JStr(ImprovementDescription(improvementType, description)),
        "options" := if Truthy(options) then options else JObj(map[])]
  }

  /**
   * The record `record_improvement` builds, or the exception it raises:
   * `improvement_results` must be a dict when present, and its `changes` must
   * have a length.
   */
  function MakeRecord(task: Task, result: Dict, now: int): (r: Result<Record>)
    ensures r.Ok? <==>
      var ir := GetOr(result, "improvement_results", JObj(map[]));
      ir.JObj? && Len(GetOr(ir.fields, "changes", JArr([]))).Some?
    ensures r.Ok? ==>
      r.value.timestamp == now &&
      r.value.taskId == GetOr(task, "id", JStr("unknown_task_id")) &&
      r.value.taskType == GetOr(task, "improvement_type", JStr("unknown_type")) &&
      r.value.status == Get(result, "status")
    ensures r.Ok? ==>
      var ir := GetOr(result, "improvement_results", JObj(map[]));
      ir.JObj? && Len(GetOr(ir.fields, "changes", JArr([]))) == Some(r.value.changesApplied)
    ensures r.Ok? && "improvement_results" !in result ==> r.value.changesApplied == 0 && r.value.backupId == JNull
    ensures var ir := GetOr(result, "improvement_results", JObj(map[]));
      !ir.JObj? ==> r == Raise(NoGetMessage(ir))
    ensures var ir := GetOr(result, "improvement_results", JObj(map[]));
      ir.JObj? && Len(GetOr(ir.fields, "changes", JArr([]))).None? ==>
        r == Raise(NoLenMessage(GetOr(ir.fields, "changes", JArr([]))))
  {
    var ir := GetOr(result, "improvement_results", JObj(map[]));
    if !ir.JObj? then Raise(NoGetMessage(ir))
    else match Len(GetOr(ir.fields, "changes", JArr([])))
      case None => Raise(NoLenMessage(GetOr(ir.fields, "changes", JArr([]))))
      case Some(n) =>
        Ok(Record(now, GetOr(task, "id", JStr("unknown_task_id")),
                  GetOr(task, "improvement_type", JStr("unknown_type")),
                  Get(result, "status"), n, Get(ir.fields, "backup_id")))
  }

  predicate NewestFirst(s: seq<Record>) {
    forall i, j :: 0 <= i < j < |s| ==> s[i].timestamp >= s[j].timestamp
  }

  /** Places `x` before the first record that is not newer than it: earlier records stay ahead of equal ones. */
  function InsertByTime(x: Record, s: seq<Record>): (r: seq<Record>)
    requires NewestFirst(s)
    ensures NewestFirst(r)
    ensures multiset(r) == multiset(s) + multiset{x}
    ensures |r| == |s| + 1
  {
    if s == [] then [x]
    else if x.timestamp >= s[0].timestamp then [x] + s
    else
      var rest := InsertByTime(x, s[1..]);
      InsertKeepsBound(x, s, rest);
      assert s == [s[0]] + s[1..];
      [s[0]] + rest
  }

  lemma InsertKeepsBound(x: Record, s: seq<Record>, rest: seq<Record>)
    requires s != [] && NewestFirst(s) && NewestFirst(rest) && x.timestamp < s[0].timestamp
    requires multiset(rest) == multiset(s[1..]) + multiset{x}
    ensures NewestFirst([s[0]] + rest)
  {
    forall j | 0 <= j < |rest|
      ensures rest[j].timestamp <= s[0].timestamp
    {
      assert rest[j] in multiset(rest);
      if rest[j] != x {
        assert rest[j] in multiset(s[1..]);
        var k :| 0 <= k < |s[1..]| && s[1..][k] == rest[j];
        assert s[k + 1] == rest[j];
      }
    }
    var r := [s[0]] + rest;
    forall i, j | 0 <= i < j < |r|
      ensures r[i].timestamp >= r[j].timestamp
    {
      if i > 0 {
        assert r[i] == rest[i - 1] && r[j] == rest[j - 1];
      } else {
        assert r[j] == rest[j - 1];
      }
    }
  }

  /** `sorted(history, key=timestamp, reverse=True)`, as a stable insertion sort. */
  function SortNewestFirst(s: seq<Record>): (r: seq<Record>)
    ensures NewestFirst(r)
    ensures multiset(r) == multiset(s)
    ensures |r| == |s|
  {
    if s == [] then []
    else
      assert s == [s[0]] + s[1..];
      InsertByTime(s[0], SortNewestFirst(s[1..]))
  }

  /** Python's `s[:limit]`: a negative limit drops that many elements from the end. */
  function SliceTo<T>(s: seq<T>, limit: int): (r: seq<T>)
    ensures |r| <= |s| && r == s[..|r|]
    ensures limit >= 0 ==> |r| == if limit < |s| then limit else |s|
    ensures limit < 0 ==> |r| == if |s| + limit > 0 then |s| + limit else 0
  {
    if limit >= 0 then (if limit < |s| then s[..limit] else s)
    else (if |s| + limit > 0 then s[..|s| + limit] else [])
  }

  function ImprovementHistory(history: seq<Record>, limit: int): seq<Record> {
    SliceTo(SortNewestFirst(history), limit)
  }

  /**
   * `get_improvement_history(limit)` returns at most `limit` records, newest
   * first, all taken from the history, and no record it leaves out is newer
   * than the oldest one it returns.
   */
  lemma HistoryIsNewest(history: seq<Record>, limit: int)
    ensures var r := ImprovementHistory(history, limit);
      NewestFirst(r) && multiset(r) <= multiset(history) &&
      (limit >= 0 ==> |r| == if limit < |history| then limit else |history|) &&
      forall x :: r != [] && x in multiset(history) - multiset(r) ==> x.timestamp <= r[|r| - 1].timestamp
  {
    var sorted := SortNewestFirst(history);
    var r := ImprovementHistory(history, limit);
    var k := |r|;
    assert r == sorted[..k];
    PrefixSplit(sorted, k);
    assert multiset(history) == multiset(sorted);
    assert multiset(history) - multiset(r) == multiset(sorted[k..]);
    if k > 0 {
      PrefixBound(sorted, k);
      assert r[k - 1] == sorted[k - 1];
    }
  }

  lemma PrefixSplit(s: seq<Record>, k: nat)
    requires k <= |s|
    ensures multiset(s) - multiset(s[..k]) == multiset(s[k..])
    ensures multiset(s[..k]) <= multiset(s)
    ensures NewestFirst(s) ==> NewestFirst(s[..k])
  {
    assert s == s[..k] + s[k..];
    assert multiset(s) == multiset(s[..k]) + multiset(s[k..]);
  }

  lemma PrefixBound(s: seq<Record>, k: nat)
    requires 0 < k <= |s| && NewestFirst(s)
    ensures forall x :: x in multiset(s[k..]) ==> x.timestamp <= s[k - 1].timestamp
  {
    forall x | x in multiset(s[k..])
      ensures x.timestamp <= s[k - 1].timestamp
    {
      var j :| 0 <= j < |s[k..]| && s[k..][j] == x;
      assert s[k + j] == x;
    }
  }

  class ImprovementScheduler {
    var tasks: seq<Task>
    var history: seq<Record>
    /** The contents of the tasks file and of the history file as last written or read. */
    ghost var tasksOnDisk: Option<seq<Task>>
    ghost var historyOnDisk: seq<Record>

    constructor (tasksFile: StoredList<Task>, historyFile: StoredList<Record>, stamp: nat)
      ensures tasks == LoadImprovementTasks(tasksFile, stamp)
      ensures history == LoadHistory(historyFile)
      ensures tasksOnDisk == if tasksFile.Missing? then Some(tasks) else if tasksFile.Loaded? then Some(tasksFile.items) else None
      ensures historyOnDisk == history
    {
      tasks := LoadImprovementTasks(tasksFile, stamp);
      history := LoadHistory(historyFile);
      historyOnDisk := history;
      tasksOnDisk := if tasksFile.Loaded? then Some(tasksFile.items) else None;
      new;
      if tasksFile.Missing? && tasks != [] {
        tasksOnDisk := Some(tasks);
      }
    }

    method AddTask(improvementType: string, options: Value, description: string, stamp: nat)
      modifies this
      ensures tasks == old(tasks) + [ImprovementTask(improvementType, options, description, stamp)]
      ensures tasksOnDisk == Some(tasks)
      ensures history == old(history) && historyOnDisk == old(historyOnDisk)
    {
      tasks := tasks + [ImprovementTask(improvementType, options, description, stamp)];
      tasksOnDisk := Some(tasks);
    }

    /** First in, first out: removes and returns the oldest task. */
    method GetNextTask() returns (task: Option<Task>)
      modifies this
      ensures old(tasks) == [] ==> task.None? && tasks == [] && tasksOnDisk == old(tasksOnDisk)
      ensures old(tasks) != [] ==> task == Some(old(tasks)[0]) && tasks == old(tasks)[1..] && tasksOnDisk == Some(tasks)
      ensures history == old(history) && historyOnDisk == old(historyOnDisk)
    {
      if tasks == [] {
        return None;
      }
      task := Some(tasks[0]);
      tasks := tasks[1..];
      tasksOnDisk := Some(tasks);
    }

    method RecordImprovement(task: Task, result: Dict, now: int) returns (r: Result<Record>)
      modifies this
      ensures r == MakeRecord(task, result, now)
      ensures history == if r.Ok? then old(history) + [r.value] else old(history)
      ensures historyOnDisk == if r.Ok? then history else old(historyOnDisk)
      ensures tasks == old(tasks) && tasksOnDisk == old(tasksOnDisk)
    {
      r := MakeRecord(task, result, now);
      if r.Ok? {
        history := history + [r.value];
        historyOnDisk := history;
      }
    }

    function GetImprovementHistory(limit: int): (r: seq<Record>)
      reads this
      ensures NewestFirst(r) && multiset(r) <= multiset(history)
      ensures limit >= 0 ==> |r| == if limit < |history| then limit else |history|
    {
      HistoryIsNewest(history, limit);
      ImprovementHistory(history, limit)
    }
  }
}
