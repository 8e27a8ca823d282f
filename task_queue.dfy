/**
 * The persistent task queue: an ordered list of task dicts kept in memory and
 * written to the queue file after every change. A task's life cycle is
 * pending -> processing -> completed | failed, with re-queueing back to pending.
 */
module Tasks {
  import opened Wrappers
  import opened JsonValue
  import opened Seqs

  /** A task is a JSON object; `status`, `type`, the time stamps, `result` and `error` are its well-known keys. */
  type Task = Dict

  function Status(t: Task): Value {
    Get(t, "status")
  }

  predicate HasStatus(t: Task, s: string) {
    Status(t) == JStr(s)
  }

  predicate IsPending(t: Task) { HasStatus(t, "pending") }
  predicate IsProcessing(t: Task) { HasStatus(t, "processing") }
  predicate IsCompleted(t: Task) { HasStatus(t, "completed") }
  predicate IsFailed(t: Task) { HasStatus(t, "failed") }
  predicate NotCompleted(t: Task) { !IsCompleted(t) }

  /** Waiting for or under processing: the statuses `has_task_type` looks for. */
  predicate IsActive(t: Task) { IsPending(t) || IsProcessing(t) }

  /** What the queue file holds when the queue is created. */
  datatype QueueFile = Absent | Blank | Corrupt | Stored(content: seq<Task>)

  /** `_load_tasks`: a missing, empty or undecodable file gives an empty queue. */
  function LoadTasks(f: QueueFile): (r: seq<Task>)
    ensures r != [] ==> f.Stored? && r == f.content
    ensures f.Stored? ==> r == f.content
  {
    if f.Stored? then f.content else []
  }

  /** The dict `add_task` appends: missing `status` becomes pending, missing `added_time` becomes now. */
  function Normalize(t: Task, now: int): (r: Task)
    ensures r.Keys == t.Keys + {"status", "added_time"}
    ensures forall k :: k in t ==> r[k] == t[k]
    ensures "status" !in t ==> IsPending(r)
    ensures "added_time" !in t ==> r["added_time"] == Stamp(now)
  {
    var withStatus := if "status" in t then t else t["status" := JStr("pending")];
    if "added_time" in withStatus then withStatus else withStatus["added_time" := Stamp(now)]
  }

  function NormalizeAll(ts: seq<Task>, now: int): (r: seq<Task>)
    ensures |r| == |ts|
  {
    seq(|ts|, i requires 0 <= i < |ts| => Normalize(ts[i], now))
  }

  /** The index of the first pending task at or after `from`. */
  function FirstPendingFrom(ts: seq<Task>, from: nat): (r: Option<nat>)
    requires from <= |ts|
    ensures r.Some? ==> from <= r.value < |ts| && IsPending(ts[r.value])
    ensures r.Some? ==> forall j :: from <= j < r.value ==> !IsPending(ts[j])
    ensures r.None? ==> forall j :: from <= j < |ts| ==> !IsPending(ts[j])
    decreases |ts| - from
  {
    if from == |ts| then None
    else if IsPending(ts[from]) then Some(from)
    else FirstPendingFrom(ts, from + 1)
  }

  /** The index `get_next_task` hands out: the earliest pending one. */
  function FirstPending(ts: seq<Task>): (r: Option<nat>)
    ensures r.Some? ==> r.value < |ts| && IsPending(ts[r.value])
    ensures r.Some? ==> forall j :: 0 <= j < r.value ==> !IsPending(ts[j])
    ensures r.None? <==> forall j :: 0 <= j < |ts| ==> !IsPending(ts[j])
  {
    FirstPendingFrom(ts, 0)
  }

  function Start(t: Task, now: int): Task {
    t["status" := JStr("processing")]["start_time" := Stamp(now)]
  }

  /** The queue after `get_next_task`. */
  function Claim(ts: seq<Task>, now: int): (r: seq<Task>)
    ensures |r| == |ts|
  {
    match FirstPending(ts)
    case None => ts
    case Some(i) => ts[i := Start(ts[i], now)]
  }

  function Complete(t: Task, result: Value, now: int): Task {
    t["status" := JStr("completed")]["completed_time" := Stamp(now)]["result" := result]
  }

  function Fail(t: Task, error: Value, now: int): Task {
    t["status" := JStr("failed")]["completed_time" := Stamp(now)]["error" := error]
  }

  /** One task under `requeue_processing_tasks`; `start_time` is kept. */
  function RequeueOne(t: Task, now: int): Task {
    if IsProcessing(t) then t["status" := JStr("pending")]["requeued_time" := Stamp(now)] else t
  }

  function RequeueProcessing(ts: seq<Task>, now: int): (r: seq<Task>)
    ensures |r| == |ts|
  {
    seq(|ts|, i requires 0 <= i < |ts| => RequeueOne(ts[i], now))
  }

  /** `all(task.get(k) == v for k, v in criteria.items())` */
  predicate Matches(t: Task, criteria: Dict) {
    forall k :: k in criteria ==> PyEq(Get(t, k), criteria[k])
  }

  predicate Revivable(t: Task, criteria: Dict) {
    IsFailed(t) && Matches(t, criteria)
  }

  /** One task under `requeue_failed_tasks`: back to pending, without its error and completion time. */
  function ReviveOne(t: Task, criteria: Dict, now: int): Task {
    if Revivable(t, criteria) then
      t["status" := JStr("pending")]["requeued_time" := Stamp(now)] - {"error", "completed_time"}
    else t
  }

  function RequeueFailed(ts: seq<Task>, criteria: Dict, now: int): (r: seq<Task>)
    ensures |r| == |ts|
  {
    seq(|ts|, i requires 0 <= i < |ts| => ReviveOne(ts[i], criteria, now))
  }

  predicate OfActiveType(t: Task, taskType: string) {
    Get(t, "type") == JStr(taskType) && IsActive(t)
  }

  /** The counters of `get_stats`; `unknown` is absent when no task falls outside the four statuses. */
  datatype Stats = Stats(pending: nat, processing: nat, completed: nat, failed: nat, total: nat, unknown: Option<nat>)

  predicate IsKnownStatus(t: Task) {
    IsPending(t) || IsProcessing(t) || IsCompleted(t) || IsFailed(t)
  }

  predicate IsUnknownStatus(t: Task) { !IsKnownStatus(t) }

  function Optional(n: nat): Option<nat> {
    if n == 0 then None else Some(n)
  }

  /** Per-status counts, every status outside the four counted as unknown. */
  function StatsOf(ts: seq<Task>): (s: Stats)
    ensures s.total == |ts|
    ensures s.unknown != Some(0)
    ensures s.unknown.Some? <==> exists i :: 0 <= i < |ts| && IsUnknownStatus(ts[i])
  {
    CountIfZero(IsUnknownStatus, ts);
    Stats(CountIf(IsPending, ts), CountIf(IsProcessing, ts), CountIf(IsCompleted, ts),
          CountIf(IsFailed, ts), |ts|, Optional(CountIf(IsUnknownStatus, ts)))
  }

  lemma {:induction false} StatsPartition(ts: seq<Task>)
    ensures var s := StatsOf(ts);
      s.pending + s.processing + s.completed + s.failed + s.unknown.GetOr(0) == s.total
  {
    CountPartition(ts);
  }

  lemma {:induction false} CountPartition(ts: seq<Task>)
    ensures CountIf(IsPending, ts) + CountIf(IsProcessing, ts) + CountIf(IsCompleted, ts)
      + CountIf(IsFailed, ts) + CountIf(IsUnknownStatus, ts) == |ts|
  {
    if ts != [] {
      CountPartition(ts[1..]);
    }
  }

  /** `get_stats` as written: a task whose status is the string "total" lands in the `total` counter. */
  function StatsAsWritten(ts: seq<Task>): (s: Stats)
    ensures s.total > |ts| <==> exists i :: 0 <= i < |ts| && StatusIsTotal(ts[i])
    ensures s.total >= StatsOf(ts).total
    ensures s.(total := |ts|, unknown := None) == StatsOf(ts).(unknown := None)
  {
    CountIfZero(StatusIsTotal, ts);
    var total := CountIf(StatusIsTotal, ts);
    Stats(CountIf(IsPending, ts), CountIf(IsProcessing, ts), CountIf(IsCompleted, ts),
          CountIf(IsFailed, ts), |ts| + total,
          Optional(CountIf(UnknownAsWritten, ts)))
  }

  predicate StatusIsTotal(t: Task) { HasStatus(t, "total") }

  predicate UnknownAsWritten(t: Task) { IsUnknownStatus(t) && !StatusIsTotal(t) }

  /** One task with status "total": the written code reports `total` 2 for a one-task queue and counts it nowhere else. */
  lemma StatsAsWrittenMiscounts()
    ensures var ts := [map["status" := JStr("total")]];
      StatsAsWritten(ts).total == 2 && StatsOf(ts).total == 1 && StatsOf(ts).unknown == Some(1)
  {
    var ts: seq<Task> := [map["status" := JStr("total")]];
    assert ts[1..] == [];
    assert StatusIsTotal(ts[0]) && IsUnknownStatus(ts[0]);
  }

  /** A claimed task is no longer pending, and nothing before it was: `get_next_task` never hands out a task twice. */
  lemma {:induction false} ClaimAdvances(ts: seq<Task>, now: int)
    requires FirstPending(ts).Some?
    ensures var i := FirstPending(ts).value;
      IsProcessing(Claim(ts, now)[i]) &&
      (FirstPending(Claim(ts, now)).None? || FirstPending(Claim(ts, now)).value > i)
    ensures CountIf(IsPending, Claim(ts, now)) == CountIf(IsPending, ts) - 1
    ensures CountIf(IsProcessing, Claim(ts, now)) == CountIf(IsProcessing, ts) + 1
  {
    var i := FirstPending(ts).value;
    var c := Claim(ts, now);
    assert c == ts[i := Start(ts[i], now)];
    assert forall j :: 0 <= j < i ==> c[j] == ts[j];
    CountIfUpdate(IsPending, ts, i, Start(ts[i], now));
    CountIfUpdate(IsProcessing, ts, i, Start(ts[i], now));
  }

  /** After `requeue_processing_tasks` nothing is processing, every formerly processing task is pending, and a second call finds nothing. */
  lemma {:induction false} RequeueProcessingDrains(ts: seq<Task>, now: int, later: int)
    ensures CountIf(IsProcessing, RequeueProcessing(ts, now)) == 0
    ensures CountIf(IsPending, RequeueProcessing(ts, now)) == CountIf(IsPending, ts) + CountIf(IsProcessing, ts)
    ensures RequeueProcessing(RequeueProcessing(ts, now), later) == RequeueProcessing(ts, now)
    decreases |ts|
  {
    var r := RequeueProcessing(ts, now);
    if ts != [] {
      RequeueProcessingDrains(ts[1..], now, later);
      assert r[1..] == RequeueProcessing(ts[1..], now);
    }
  }

  /** A re-queued failed task is pending and carries neither an error nor a completion time; other tasks are untouched. */
  lemma RequeueFailedRevives(ts: seq<Task>, criteria: Dict, now: int, i: nat)
    requires i < |ts|
    ensures Revivable(ts[i], criteria) ==>
      IsPending(RequeueFailed(ts, criteria, now)[i]) &&
      "error" !in RequeueFailed(ts, criteria, now)[i] &&
      "completed_time" !in RequeueFailed(ts, criteria, now)[i]
    ensures !Revivable(ts[i], criteria) ==> RequeueFailed(ts, criteria, now)[i] == ts[i]
  {
  }

  /** Criteria compare as Python does: a failed task with priority `1.0` matches `{"priority": 1}` and is revived. */
  lemma RequeueComparesByValue(now: int)
    ensures var t := map["status" := JStr("failed"), "priority" := JReal(1.0)];
      var criteria := map["priority" := JNum(1)];
      Revivable(t, criteria) && IsPending(RequeueFailed([t], criteria, now)[0])
  {
  }

  /** The number of failed tasks that are re-queued, by counting. */
  lemma {:induction false} RequeueFailedCount(ts: seq<Task>, criteria: Dict, now: int)
    ensures CountIf(IsFailed, RequeueFailed(ts, criteria, now))
      == CountIf(IsFailed, ts) - CountIf(t => Revivable(t, criteria), ts)
    decreases |ts|
  {
    if ts != [] {
      RequeueFailedCount(ts[1..], criteria, now);
      assert RequeueFailed(ts, criteria, now)[1..] == RequeueFailed(ts[1..], criteria, now);
    }
  }

  /** `clear_completed_tasks` removes exactly the completed tasks and keeps every other status's count. */
  lemma ClearCompletedKeeps(ts: seq<Task>)
    ensures CountIf(IsCompleted, Filter(NotCompleted, ts)) == 0
    ensures CountIf(IsPending, Filter(NotCompleted, ts)) == CountIf(IsPending, ts)
    ensures CountIf(IsProcessing, Filter(NotCompleted, ts)) == CountIf(IsProcessing, ts)
    ensures CountIf(IsFailed, Filter(NotCompleted, ts)) == CountIf(IsFailed, ts)
    ensures |ts| - |Filter(NotCompleted, ts)| == CountIf(IsCompleted, ts)
    ensures IsSubsequence(Filter(NotCompleted, ts), ts)
  {
    FilterDropsCount(IsCompleted, NotCompleted, ts);
    FilterKeepsCount(IsPending, NotCompleted, ts);
    FilterKeepsCount(IsProcessing, NotCompleted, ts);
    FilterKeepsCount(IsFailed, NotCompleted, ts);
    CompletedSplit(ts);
    FilterIsSubsequence(NotCompleted, ts);
  }

  lemma {:induction false} CompletedSplit(ts: seq<Task>)
    ensures |Filter(NotCompleted, ts)| + CountIf(IsCompleted, ts) == |ts|
  {
    if ts != [] {
      CompletedSplit(ts[1..]);
    }
  }

  class TaskQueue {
    var tasks: seq<Task>
    /** The list last written to (or read from) the queue file. */
    ghost var saved: seq<Task>

    constructor (file: QueueFile)
      ensures tasks == LoadTasks(file) && saved == tasks
    {
      tasks := LoadTasks(file);
      saved := tasks;
    }

    method Save()
      modifies this
      ensures tasks == old(tasks) && saved == tasks
    {
      saved := tasks;
    }

    method AddTask(task: Task, now: int)
      modifies this
      ensures tasks == old(tasks) + [Normalize(task, now)]
      ensures saved == tasks
    {
      tasks := tasks + [Normalize(task, now)];
      Save();
    }

    method AddTasks(batch: seq<Task>, now: int)
      modifies this
      ensures tasks == old(tasks) + NormalizeAll(batch, now)
      ensures saved == tasks
    {
      var i := 0;
      while i < |batch|
        invariant 0 <= i <= |batch|
        invariant tasks == old(tasks) + NormalizeAll(batch, now)[..i]
      {
        tasks := tasks + [Normalize(batch[i], now)];
        i := i + 1;
      }
      assert NormalizeAll(batch, now)[..i] == NormalizeAll(batch, now);
      Save();
    }

    /** Claims the first pending task and returns its index, or `None` when nothing is pending. */
    method GetNextTask(now: int) returns (claimed: Option<nat>)
      modifies this
      ensures claimed == FirstPending(old(tasks))
      ensures tasks == Claim(old(tasks), now)
      ensures saved == if claimed.Some? then tasks else old(saved)
    {
      var i := 0;
      while i < |tasks|
        invariant 0 <= i <= |tasks|
        invariant forall j :: 0 <= j < i ==> !IsPending(tasks[j])
      {
        if IsPending(tasks[i]) {
          tasks := tasks[i := Start(tasks[i], now)];
          Save();
          return Some(i);
        }
        i := i + 1;
      }
      return None;
    }

    method MarkCompleted(i: nat, result: Value, now: int)
      requires i < |tasks|
      modifies this
      ensures tasks == old(tasks)[i := Complete(old(tasks)[i], result, now)]
      ensures saved == tasks
    {
      tasks := tasks[i := Complete(tasks[i], result, now)];
      Save();
    }

    method MarkFailed(i: nat, error: Value, now: int)
      requires i < |tasks|
      modifies this
      ensures tasks == old(tasks)[i := Fail(old(tasks)[i], error, now)]
      ensures saved == tasks
    {
      tasks := tasks[i := Fail(tasks[i], error, now)];
      Save();
    }

    method GetStats() returns (s: Stats)
      ensures s == StatsOf(tasks)
      ensures s.pending + s.processing + s.completed + s.failed + s.unknown.GetOr(0) == |tasks|
    {
      var pending, processing, completed, failed, unknown := 0, 0, 0, 0, 0;
      var i := 0;
      while i < |tasks|
        invariant 0 <= i <= |tasks|
        invariant pending == CountIf(IsPending, tasks[..i])
        invariant processing == CountIf(IsProcessing, tasks[..i])
        invariant completed == CountIf(IsCompleted, tasks[..i])
        invariant failed == CountIf(IsFailed, tasks[..i])
        invariant unknown == CountIf(IsUnknownStatus, tasks[..i])
      {
        var t := tasks[i];
        assert tasks[..i + 1] == tasks[..i] + [t];
        CountIfAppend(IsPending, tasks[..i], t);
        CountIfAppend(IsProcessing, tasks[..i], t);
        CountIfAppend(IsCompleted, tasks[..i], t);
        CountIfAppend(IsFailed, tasks[..i], t);
        CountIfAppend(IsUnknownStatus, tasks[..i], t);
        if IsPending(t) {
          pending := pending + 1;
        } else if IsProcessing(t) {
          processing := processing + 1;
        } else if IsCompleted(t) {
          completed := completed + 1;
        } else if IsFailed(t) {
          failed := failed + 1;
        } else {
          unknown := unknown + 1;
        }
        i := i + 1;
      }
      assert tasks[..i] == tasks;
      s := Stats(pending, processing, completed, failed, |tasks|, Optional(unknown));
      StatsPartition(tasks);
    }

    method RequeueProcessingTasks(now: int) returns (count: nat)
      modifies this
      ensures tasks == RequeueProcessing(old(tasks), now)
      ensures count == CountIf(IsProcessing, old(tasks))
      ensures saved == if count > 0 then tasks else old(saved)
    {
      tasks, count := RequeueEach(tasks, now);
      if count > 0 {
        Save();
      }
    }

    method RequeueFailedTasks(criteria: Dict, now: int) returns (count: nat)
      modifies this
      ensures tasks == RequeueFailed(old(tasks), criteria, now)
      ensures count == CountIf(t => Revivable(t, criteria), old(tasks))
      ensures saved == if count > 0 then tasks else old(saved)
    {
      tasks, count := ReviveEach(tasks, criteria, now);
      if count > 0 {
        Save();
      }
    }

    /** The loop of `requeue_processing_tasks`, updating each processing task in place. */
    static method RequeueEach(ts: seq<Task>, now: int) returns (out: seq<Task>, count: nat)
      ensures out == RequeueProcessing(ts, now)
      ensures count == CountIf(IsProcessing, ts)
    {
      out := ts;
      count := 0;
      var i := 0;
      while i < |out|
        invariant 0 <= i <= |out| == |ts|
        invariant forall j :: 0 <= j < i ==> out[j] == RequeueOne(ts[j], now)
        invariant forall j :: i <= j < |out| ==> out[j] == ts[j]
        invariant count == CountIf(IsProcessing, ts[..i])
      {
        assert ts[..i + 1] == ts[..i] + [ts[i]];
        CountIfAppend(IsProcessing, ts[..i], ts[i]);
        if IsProcessing(out[i]) {
          out := out[i := RequeueOne(out[i], now)];
          count := count + 1;
        }
        i := i + 1;
      }
      assert ts[..i] == ts;
    }

    /** The loop of `requeue_failed_tasks`, reviving each matching failed task in place. */
    static method ReviveEach(ts: seq<Task>, criteria: Dict, now: int) returns (out: seq<Task>, count: nat)
      ensures out == RequeueFailed(ts, criteria, now)
      ensures count == CountIf(t => Revivable(t, criteria), ts)
    {
      ghost var revivable := t => Revivable(t, criteria);
      out := ts;
      count := 0;
      var i := 0;
      while i < |out|
        invariant 0 <= i <= |out| == |ts|
        invariant forall j :: 0 <= j < i ==> out[j] == ReviveOne(ts[j], criteria, now)
        invariant forall j :: i <= j < |out| ==> out[j] == ts[j]
        invariant count == CountIf(revivable, ts[..i])
      {
        assert ts[..i + 1] == ts[..i] + [ts[i]];
        CountIfAppend(revivable, ts[..i], ts[i]);
        if IsFailed(out[i]) {
          if Matches(out[i], criteria) {
            out := out[i := ReviveOne(out[i], criteria, now)];
            count := count + 1;
          }
        }
        i := i + 1;
      }
      assert ts[..i] == ts;
    }

    method HasTaskType(taskType: string) returns (found: bool)
      ensures found <==> exists i :: 0 <= i < |tasks| && OfActiveType(tasks[i], taskType)
    {
      var i := 0;
      while i < |tasks|
        invariant 0 <= i <= |tasks|
        invariant forall j :: 0 <= j < i ==> !OfActiveType(tasks[j], taskType)
      {
        if Get(tasks[i], "type") == JStr(taskType) && (IsPending(tasks[i]) || IsProcessing(tasks[i])) {
          return true;
        }
        i := i + 1;
      }
      return false;
    }

    method ClearCompletedTasks() returns (removed: nat)
      modifies this
      ensures tasks == Filter(NotCompleted, old(tasks))
      ensures removed == CountIf(IsCompleted, old(tasks))
      ensures saved == if removed > 0 then tasks else old(saved)
    {
      var original := |tasks|;
      CompletedSplit(tasks);
      tasks := Filter(NotCompleted, tasks);
      removed := original - |tasks|;
      if removed > 0 {
        Save();
      }
    }
  }
}
