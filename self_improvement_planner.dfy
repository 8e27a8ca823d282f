/**
 * The self-improvement planner: a priority queue of described tasks ordered by
 * (priority, insertion time, task id), lower first, where the priority comes
 * from keywords in the description and ids come from one counter shared by
 * every planner.
 */
module Planner {
  import opened Wrappers
  import opened Text

  /** The planner's `Task` dataclass; `description` takes no part in the order. */
  datatype PlannedTask = PlannedTask(priority: real, insertionTime: real, taskId: int, description: string)

  /** `a < b` for the dataclass: lexicographic on (priority, insertion_time, task_id). */
  predicate Before(a: PlannedTask, b: PlannedTask) {
    a.priority < b.priority ||
    (a.priority == b.priority &&
      (a.insertionTime < b.insertionTime || (a.insertionTime == b.insertionTime && a.taskId < b.taskId)))
  }

  /** The order is strict, transitive, blind to descriptions, and total on tasks with distinct ids. */
  lemma BeforeIsStrictTotalOrder(a: PlannedTask, b: PlannedTask, c: PlannedTask, d: string)
    ensures !Before(a, a)
    ensures Before(a, b) && Before(b, c) ==> Before(a, c)
    ensures a.taskId != b.taskId ==> Before(a, b) || Before(b, a)
    ensures Before(a, b) == Before(a.(description := d), b)
  {
  }

  /** Every word `_evaluate_task_priority` looks for. */
  const Keywords: set<string> :=
    {"critical", "bug", "security", "performance", "refactor", "optimize", "learn", "explore", "document", "test"}

  /** `_evaluate_task_priority`: the first keyword band that matches the lower-cased description wins. */
  function EvaluatePriority(description: string): (p: real)
    ensures p in {1.0, 1.5, 2.0, 3.0, 4.0, 5.0}
    ensures var d := Lower(description);
      (Contains(d, "critical") || Contains(d, "bug")) <==> p == 1.0
    ensures var d := Lower(description);
      p == 5.0 <==> forall w :: w in Keywords ==> !Contains(d, w)
  {
    var d := Lower(description);
    if Contains(d, "critical") || Contains(d, "bug") then 1.0
    else if Contains(d, "security") || Contains(d, "performance") then 1.5
    else if Contains(d, "refactor") || Contains(d, "optimize") then 2.0
    else if Contains(d, "learn") || Contains(d, "explore") then 3.0
    else if Contains(d, "document") || Contains(d, "test") then 4.0
    else 5.0
  }

  /** Upper- and lower-case spellings of a description get the same priority. */
  lemma PriorityIgnoresCase(description: string)
    ensures EvaluatePriority(Lower(description)) == EvaluatePriority(description)
  {
    LowerIdempotent(description);
  }

  /** The position of the least task, the one `heappop` returns. */
  function MinIndex(s: seq<PlannedTask>): (k: nat)
    requires s != []
    ensures k < |s|
    ensures forall j :: 0 <= j < |s| ==> !Before(s[j], s[k])
  {
    if |s| == 1 then 0
    else
      var k := MinIndex(s[1..]);
      if Before(s[k + 1], s[0]) then k + 1 else 0
  }

  function RemoveAt<T>(s: seq<T>, k: nat): (r: seq<T>)
    requires k < |s|
    ensures |r| == |s| - 1
    ensures multiset(r) + multiset{s[k]} == multiset(s)
  {
    assert s == s[..k] + [s[k]] + s[k + 1..];
    s[..k] + s[k + 1..]
  }

  predicate InOrder(s: seq<PlannedTask>) {
    forall i :: 0 <= i < |s| - 1 ==> !Before(s[i + 1], s[i])
  }

  predicate DistinctIds(s: seq<PlannedTask>) {
    forall i, j :: 0 <= i < j < |s| ==> s[i].taskId != s[j].taskId
  }

  /** `_generate_potential_tasks`. */
  const PotentialTasks: seq<string> := [
    "Refactor legacy authentication module for better security.",
    "Learn new Python asyncio patterns for concurrent programming.",
    "Fix critical bug in payment processing system.",
    "Optimize database queries for reporting dashboard performance.",
    "Document API endpoints for external developers.",
    "Explore FastAPI for building new microservices.",
    "Write unit tests for the data parsing utility.",
    "Address minor UI glitch in user profile page.",
    "Improve error handling across microservices.",
    "Research best practices for cloud deployment security."
  ]

  /** The tasks `form_self_improvement_queue` pushes for `descriptions`, in order and numbered after `last`. */
  function PlannedBatch(descriptions: seq<string>, last: int, now: real): (r: seq<PlannedTask>)
    ensures |r| == |descriptions|
    ensures forall i :: 0 <= i < |r| ==> r[i].description == descriptions[i] && r[i].taskId == last + i + 1
  {
    seq(|descriptions|, i requires 0 <= i < |descriptions| =>
      PlannedTask(EvaluatePriority(descriptions[i]), now, last + i + 1, descriptions[i]))
  }

  /** One more description adds one task, numbered after the ones before it. */
  lemma PlannedBatchGrows(descriptions: seq<string>, d: string, last: int, now: real)
    ensures PlannedBatch(descriptions + [d], last, now) ==
      PlannedBatch(descriptions, last, now) + [PlannedTask(EvaluatePriority(d), now, last + |descriptions| + 1, d)]
  {
    assert PlannedBatch(descriptions + [d], last, now)[..|descriptions|] == PlannedBatch(descriptions, last, now);
  }

  /** The class attribute `_task_counter`, shared by every planner. */
  class TaskCounter {
    var value: int

    constructor ()
      ensures value == 0
    {
      value := 0;
    }
  }

  class SelfImprovementPlanner {
    /** The heap's contents; the heap layout is not modelled, only which tasks it holds. */
    var queue: seq<PlannedTask>
    const counter: TaskCounter
    ghost var added: nat
    ghost var taken: nat

    ghost predicate Valid()
      reads this, counter
    {
      DistinctIds(queue) &&
      (forall i :: 0 <= i < |queue| ==> queue[i].taskId <= counter.value) &&
      |queue| + taken == added
    }

    constructor (counter: TaskCounter)
      ensures this.counter == counter && queue == [] && added == 0 && taken == 0
      ensures Valid()
    {
      this.counter := counter;
      queue := [];
      added := 0;
      taken := 0;
    }

    /** Adds a task with the next id; `now` is `time.time()`. */
    method AddSelfImprovementTask(description: string, now: real)
      requires Valid()
      modifies this, counter
      ensures Valid()
      ensures counter.value == old(counter.value) + 1
      ensures queue == old(queue) + [PlannedTask(EvaluatePriority(description), now, counter.value, description)]
      ensures forall i :: 0 <= i < |old(queue)| ==> old(queue)[i].taskId < counter.value
      ensures added == old(added) + 1 && taken == old(taken)
    {
      var priority := EvaluatePriority(description);
      counter.value := counter.value + 1;
      queue := queue + [PlannedTask(priority, now, counter.value, description)];
      added := added + 1;
    }

    method GetNextTask() returns (next: Option<PlannedTask>)
      requires Valid()
      modifies this
      ensures Valid()
      ensures old(queue) == [] ==> next.None? && queue == old(queue) && taken == old(taken)
      ensures old(queue) != [] ==>
        next == Some(old(queue)[MinIndex(old(queue))]) &&
        queue == RemoveAt(old(queue), MinIndex(old(queue))) &&
        taken == old(taken) + 1
      ensures next.Some? ==> forall i :: 0 <= i < |old(queue)| ==> !Before(old(queue)[i], next.value)
      ensures added == old(added)
    {
      if queue == [] {
        return None;
      }
      var k := MinIndex(queue);
      next := Some(queue[k]);
      RemoveKeepsDistinct(queue, k);
      queue := RemoveAt(queue, k);
      taken := taken + 1;
    }

    lemma RemoveKeepsDistinct(s: seq<PlannedTask>, k: nat)
      requires k < |s| && DistinctIds(s)
      ensures DistinctIds(RemoveAt(s, k))
      ensures forall t :: t in RemoveAt(s, k) ==> t in s
    {
      var r := RemoveAt(s, k);
      assert forall i :: 0 <= i < |r| ==> r[i] == if i < k then s[i] else s[i + 1];
    }

    /** Adds the ten generated tasks in their listed order. */
    method FormSelfImprovementQueue(now: real)
      requires Valid()
      modifies this, counter
      ensures Valid()
      ensures |queue| == |old(queue)| + |PotentialTasks| && queue[..|old(queue)|] == old(queue)
      ensures counter.value == old(counter.value) + |PotentialTasks|
      ensures forall i :: 0 <= i < |PotentialTasks| ==> queue[|old(queue)| + i].description == PotentialTasks[i]
      ensures queue == old(queue) + PlannedBatch(PotentialTasks, old(counter.value), now)
      ensures added == old(added) + |PotentialTasks| && taken == old(taken)
    {
      AddEach(PotentialTasks, now);
      assert queue[..|old(queue)|] == old(queue);
    }

    /** The loop of `form_self_improvement_queue`: one `add_self_improvement_task` per description, in order. */
    method AddEach(descriptions: seq<string>, now: real)
      requires Valid()
      modifies this, counter
      ensures Valid()
      ensures counter.value == old(counter.value) + |descriptions|
      ensures queue == old(queue) + PlannedBatch(descriptions, old(counter.value), now)
      ensures added == old(added) + |descriptions| && taken == old(taken)
    {
      ghost var last := counter.value;
      var i := 0;
      while i < |descriptions|
        invariant 0 <= i <= |descriptions|
        invariant Valid()
        invariant counter.value == last + i
        invariant queue == old(queue) + PlannedBatch(descriptions[..i], last, now)
        invariant added == old(added) + i && taken == old(taken)
      {
        AddSelfImprovementTask(descriptions[i], now);
        PlannedBatchGrows(descriptions[..i], descriptions[i], last, now);
        assert descriptions[..i + 1] == descriptions[..i] + [descriptions[i]];
        i := i + 1;
      }
      assert descriptions[..i] == descriptions;
    }

    function GetQueueSize(): (n: nat)
      requires Valid()
      reads this, counter
      ensures n + taken == added
    {
      |queue|
    }

    /** The `n` least tasks in order, read from a copy: the queue itself is left as it is. */
    method ViewTopTasks(n: int) returns (top: seq<PlannedTask>)
      ensures |top| == if n <= 0 then 0 else if n < |queue| then n else |queue|
      ensures InOrder(top)
      ensures multiset(top) <= multiset(queue)
      ensures top != [] ==> forall x :: x in multiset(queue) - multiset(top) ==> !Before(x, top[|top| - 1])
    {
      var temp := queue;
      top := [];
      var count := if n <= 0 then 0 else if n < |temp| then n else |temp|;
      var k := 0;
      while k < count
        invariant 0 <= k <= count <= |queue|
        invariant |top| == k && |temp| == |queue| - k
        invariant multiset(top) + multiset(temp) == multiset(queue)
        invariant InOrder(top)
        invariant top != [] ==> forall i :: 0 <= i < |temp| ==> !Before(temp[i], top[|top| - 1])
      {
        var idx := MinIndex(temp);
        TakeLeast(top, temp);
        top := top + [temp[idx]];
        temp := RemoveAt(temp, idx);
        k := k + 1;
      }
      RestNotBefore(queue, top, temp);
    }
  }

  /** One pass of `view_top_tasks`' loop keeps the popped tasks in order and ahead of the rest. */
  lemma TakeLeast(top: seq<PlannedTask>, temp: seq<PlannedTask>)
    requires temp != [] && InOrder(top)
    requires top != [] ==> forall i :: 0 <= i < |temp| ==> !Before(temp[i], top[|top| - 1])
    ensures var idx := MinIndex(temp);
      var top' := top + [temp[idx]];
      var rest := RemoveAt(temp, idx);
      InOrder(top') &&
      multiset(top') + multiset(rest) == multiset(top) + multiset(temp) &&
      forall i :: 0 <= i < |rest| ==> !Before(rest[i], top'[|top'| - 1])
  {
    var idx := MinIndex(temp);
    var least := temp[idx];
    var rest := RemoveAt(temp, idx);
    RestNotBeforeLeast(temp, idx);
    var top' := top + [least];
    assert multiset(top') == multiset(top) + multiset{least};
    AppendInOrder(top, least);
  }

  lemma RestNotBeforeLeast(temp: seq<PlannedTask>, idx: nat)
    requires idx < |temp| && forall j :: 0 <= j < |temp| ==> !Before(temp[j], temp[idx])
    ensures forall i :: 0 <= i < |RemoveAt(temp, idx)| ==> !Before(RemoveAt(temp, idx)[i], temp[idx])
  {
    var rest := RemoveAt(temp, idx);
    forall i | 0 <= i < |rest|
      ensures !Before(rest[i], temp[idx])
    {
      if i < idx {
        assert rest[i] == temp[i];
      } else {
        assert rest[i] == temp[i + 1];
      }
    }
  }

  lemma AppendInOrder(top: seq<PlannedTask>, least: PlannedTask)
    requires InOrder(top) && (top != [] ==> !Before(least, top[|top| - 1]))
    ensures InOrder(top + [least])
  {
    var top' := top + [least];
    forall i | 0 <= i < |top'| - 1
      ensures !Before(top'[i + 1], top'[i])
    {
      if i + 1 < |top| {
        assert top'[i + 1] == top[i + 1] && top'[i] == top[i];
      } else {
        assert top'[i] == top[|top| - 1] && top'[i + 1] == least;
      }
    }
  }

  lemma RestNotBefore(queue: seq<PlannedTask>, top: seq<PlannedTask>, temp: seq<PlannedTask>)
    requires multiset(top) + multiset(temp) == multiset(queue)
    requires top != [] ==> forall i :: 0 <= i < |temp| ==> !Before(temp[i], top[|top| - 1])
    ensures multiset(top) <= multiset(queue)
    ensures top != [] ==> forall x :: x in multiset(queue) - multiset(top) ==> !Before(x, top[|top| - 1])
  {
    assert multiset(queue) - multiset(top) == multiset(temp);
    if top != [] {
      forall x | x in multiset(temp)
        ensures !Before(x, top[|top| - 1])
      {
        var j :| 0 <= j < |temp| && temp[j] == x;
      }
    }
  }
}
