/**
 * The safe cleaner: drops completed and failed tasks whose completion time is
 * older than a cutoff, never touching pending or processing tasks, and can
 * preview what it would drop.
 */
module Cleaning {
  import opened Wrappers
  import opened JsonValue
  import opened Seqs
  import opened Tasks

  const SecondsPerDay: int := 86400
  const PreviewLimit: nat := 5

  /** `datetime.now() - timedelta(days=max_age_days)`, in seconds. */
  function Cutoff(now: int, maxAgeDays: int): int {
    now - maxAgeDays * SecondsPerDay
  }

  /** `_is_older_than`: an unparseable stamp is never older. */
  predicate OlderThan(stamp: Value, cutoff: int) {
    match ParseTime(stamp)
    case Some(t) => t < cutoff
    case None => false
  }

  /** `_should_remove_task`. */
  predicate ShouldRemove(t: Task, cutoff: int)
    ensures IsPending(t) || IsProcessing(t) ==> !ShouldRemove(t, cutoff)
    ensures ShouldRemove(t, cutoff) ==> Truthy(Get(t, "completed_time"))
  {
    if IsPending(t) || IsProcessing(t) then false
    else if IsCompleted(t) || IsFailed(t) then
      Truthy(Get(t, "completed_time")) && OlderThan(Get(t, "completed_time"), cutoff)
    else false
  }

  function Removable(cutoff: int): Task -> bool {
    t => ShouldRemove(t, cutoff)
  }

  function Keepable(cutoff: int): Task -> bool {
    t => !ShouldRemove(t, cutoff)
  }

  /** Only finished tasks with a parseable completion time before the cutoff are ever removed. */
  lemma RemovedAreFinishedAndOld(t: Task, cutoff: int)
    requires ShouldRemove(t, cutoff)
    ensures IsCompleted(t) || IsFailed(t)
    ensures ParseTime(Get(t, "completed_time")).Some? && ParseTime(Get(t, "completed_time")).value < cutoff
  {
  }

  /** A later cutoff (a smaller `max_age_days`) removes at least as much. */
  lemma {:induction false} RemovalMonotone(ts: seq<Task>, c1: int, c2: int)
    requires c1 <= c2
    ensures CountIf(Removable(c1), ts) <= CountIf(Removable(c2), ts)
  {
    if ts != [] {
      RemovalMonotone(ts[1..], c1, c2);
    }
  }

  /** What `clean_safe` keeps: every pending and processing task, in the original order, and nothing removable. */
  lemma CleanKeepsActive(ts: seq<Task>, cutoff: int)
    ensures CountIf(IsPending, Filter(Keepable(cutoff), ts)) == CountIf(IsPending, ts)
    ensures CountIf(IsProcessing, Filter(Keepable(cutoff), ts)) == CountIf(IsProcessing, ts)
    ensures CountIf(Removable(cutoff), Filter(Keepable(cutoff), ts)) == 0
    ensures |Filter(Keepable(cutoff), ts)| + |Filter(Removable(cutoff), ts)| == |ts|
    ensures IsSubsequence(Filter(Keepable(cutoff), ts), ts)
  {
    FilterKeepsCount(IsPending, Keepable(cutoff), ts);
    FilterKeepsCount(IsProcessing, Keepable(cutoff), ts);
    FilterDropsCount(Removable(cutoff), Keepable(cutoff), ts);
    KeepRemoveSplit(ts, cutoff);
    FilterIsSubsequence(Keepable(cutoff), ts);
  }

  lemma {:induction false} KeepRemoveSplit(ts: seq<Task>, cutoff: int)
    ensures |Filter(Keepable(cutoff), ts)| + |Filter(Removable(cutoff), ts)| == |ts|
  {
    if ts != [] {
      KeepRemoveSplit(ts[1..], cutoff);
    }
  }

  /** `_get_task_age_days`: whole days since completion (or, failing that, since it was added), 0 if unknown. */
  function AgeDays(t: Task, now: int): (d: int)
    ensures ParseTime(Get(t, "completed_time")).None? && ParseTime(Get(t, "added_time")).None? ==> d == 0
  {
    var stamp := if Truthy(Get(t, "completed_time")) then Get(t, "completed_time") else Get(t, "added_time");
    if !Truthy(stamp) then 0
    else match ParseTime(stamp)
      case Some(s) => (now - s) / SecondsPerDay
      case None => 0
  }

  /** `timedelta.days` rounds towards minus infinity: the age is the number of whole days elapsed. */
  lemma AgeDaysBounds(t: Task, now: int)
    requires Truthy(Get(t, "completed_time")) && ParseTime(Get(t, "completed_time")).Some?
    ensures var s := ParseTime(Get(t, "completed_time")).value;
      AgeDays(t, now) * SecondsPerDay <= now - s < (AgeDays(t, now) + 1) * SecondsPerDay
  {
  }

  datatype RemovalDetail = RemovalDetail(taskType: Value, status: Value, ageDays: int)

  datatype CleanStats = CleanStats(originalCount: nat, removedCount: nat, remainingCount: nat, backupCreated: bool)

  datatype Preview = Preview(totalTasks: nat, tasksToRemove: nat, tasksToKeep: int, removalDetails: seq<RemovalDetail>)

  function Detail(t: Task, now: int): RemovalDetail {
    RemovalDetail(Get(t, "type"), Get(t, "status"), AgeDays(t, now))
  }

  function Details(ts: seq<Task>, now: int): (r: seq<RemovalDetail>)
    ensures |r| == |ts|
  {
    seq(|ts|, i requires 0 <= i < |ts| => Detail(ts[i], now))
  }

  function Take<T>(s: seq<T>, n: nat): (r: seq<T>)
    ensures |r| == if |s| < n then |s| else n
    ensures r == s[..|r|]
  {
    if |s| <= n then s else s[..n]
  }

  class TaskCleaner {
    const queue: TaskQueue
    /** Copies of the queue file made before cleaning. */
    ghost var backups: seq<seq<Task>>

    constructor (queue: TaskQueue)
      ensures this.queue == queue && backups == []
    {
      this.queue := queue;
      backups := [];
    }

    method CleanSafe(maxAgeDays: int, backup: bool, now: int) returns (stats: CleanStats)
      modifies this, queue
      ensures backups == if backup then old(backups) + [old(queue.saved)] else old(backups)
      ensures queue.tasks == Filter(Keepable(Cutoff(now, maxAgeDays)), old(queue.tasks))
      ensures stats.originalCount == |old(queue.tasks)|
      ensures stats.removedCount == |Filter(Removable(Cutoff(now, maxAgeDays)), old(queue.tasks))|
      ensures stats.remainingCount == |queue.tasks| == stats.originalCount - stats.removedCount
      ensures stats.backupCreated == backup
      ensures queue.saved == if stats.removedCount > 0 then queue.tasks else old(queue.saved)
    {
      if backup {
        backups := backups + [queue.saved];
      }
      var cutoff := Cutoff(now, maxAgeDays);
      var originalCount := |queue.tasks|;
      var kept, removed := Partition(queue.tasks, cutoff);
      queue.tasks := kept;
      if |removed| > 0 {
        queue.Save();
      }
      stats := CleanStats(originalCount, |removed|, |queue.tasks|, backup);
    }

    /** The loop of `clean_safe` sorting each task into kept or removed. */
    static method Partition(tasks: seq<Task>, cutoff: int) returns (kept: seq<Task>, removed: seq<Task>)
      ensures kept == Filter(Keepable(cutoff), tasks)
      ensures removed == Filter(Removable(cutoff), tasks)
      ensures |kept| + |removed| == |tasks|
    {
      kept := [];
      removed := [];
      var i := 0;
      while i < |tasks|
        invariant 0 <= i <= |tasks|
        invariant kept == Filter(Keepable(cutoff), tasks[..i])
        invariant removed == Filter(Removable(cutoff), tasks[..i])
      {
        assert tasks[..i + 1] == tasks[..i] + [tasks[i]];
        kept, removed := Sort(cutoff, tasks[..i], tasks[i], kept, removed);
        i := i + 1;
      }
      assert tasks[..i] == tasks;
      KeepRemoveSplit(tasks, cutoff);
    }

    /** One task of the partition: it joins the removed or the kept tasks. */
    static method Sort(cutoff: int, ghost pre: seq<Task>, t: Task, kept: seq<Task>, removed: seq<Task>)
      returns (kept': seq<Task>, removed': seq<Task>)
      requires kept == Filter(Keepable(cutoff), pre) && removed == Filter(Removable(cutoff), pre)
      ensures kept' == Filter(Keepable(cutoff), pre + [t]) && removed' == Filter(Removable(cutoff), pre + [t])
    {
      FilterAppend(Keepable(cutoff), pre, t);
      FilterAppend(Removable(cutoff), pre, t);
      if ShouldRemove(t, cutoff) {
        kept', removed' := kept, removed + [t];
      } else {
        kept', removed' := kept + [t], removed;
      }
    }

    method GetCleanupPreview(maxAgeDays: int, now: int) returns (p: Preview)
      ensures p.totalTasks == |queue.tasks|
      ensures p.tasksToRemove == CountIf(Removable(Cutoff(now, maxAgeDays)), queue.tasks)
      ensures p.tasksToKeep == p.totalTasks - p.tasksToRemove >= 0
      ensures p.removalDetails == Details(Take(Filter(Removable(Cutoff(now, maxAgeDays)), queue.tasks), PreviewLimit), now)
      ensures |p.removalDetails| <= PreviewLimit
    {
      var cutoff := Cutoff(now, maxAgeDays);
      var tasks := queue.tasks;
      var toRemove: seq<Task> := [];
      var i := 0;
      while i < |tasks|
        invariant 0 <= i <= |tasks|
        invariant toRemove == Filter(Removable(cutoff), tasks[..i])
      {
        assert tasks[..i + 1] == tasks[..i] + [tasks[i]];
        FilterAppend(Removable(cutoff), tasks[..i], tasks[i]);
        if ShouldRemove(tasks[i], cutoff) {
          toRemove := toRemove + [tasks[i]];
        }
        i := i + 1;
      }
      assert tasks[..i] == tasks;
      FilterLength(Removable(cutoff), tasks);
      p := Preview(|tasks|, |toRemove|, |tasks| - |toRemove|, Details(Take(toRemove, PreviewLimit), now));
    }
  }
}
