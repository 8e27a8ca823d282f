/**
 * The dispatcher: claims the next pending task, routes it by its `type` to the
 * registered handler and settles that task as completed or failed from what the
 * handler returned or raised.
 */
module Dispatch {
  import opened Wrappers
  import opened JsonValue
  import opened Seqs
  import opened Text
  import opened Tasks

  /** A handler function, known by the module that defines it and its name. */
  datatype HandlerRef = HandlerRef(moduleName: string, functionName: string)

  /** What a call `handler(task, agent=...)` does: return a value or raise. */
  datatype Outcome = Returned(result: Value) | Raised(message: string)

  /** The handlers' own code is outside the model; this function stands for it. */
  type Behaviour = (HandlerRef, Task) -> Outcome

  /**
   * How `process_next_task` ends for a claimed task: settled as completed or
   * failed, or left by an exception raised before its `try`.
   */
  datatype Verdict = Completed(result: Value) | Failed(error: Value) | Escaped(message: string)

  const NoTypeMessage: string := "Завдання не містить поля 'type'"
  const NoHandlerPrefix: string := "Не знайдено обробник для типу '"
  const NoAgentMessage: string := "Agent instance not available in TaskDispatcher."
  const ErrorStatusMessage: string := "Handler returned an error status."

  /** The failure `process_next_task` records when no handler is registered for a type. */
  function NoHandlerMessage(taskType: Value): string {
    NoHandlerPrefix + Show(taskType) + "'"
  }

  /**
   * `self.handlers.get(task_type)`: handlers are registered under string keys
   * only, and an unhashable type raises TypeError even when no handler is registered.
   */
  function Lookup(handlers: map<string, HandlerRef>, taskType: Value): (r: Result<Option<HandlerRef>>)
    ensures r.Raise? <==> !Hashable(taskType)
    ensures r.Ok? ==> (r.value.Some? <==> taskType.JStr? && taskType.s in handlers)
    ensures r.Ok? && r.value.Some? ==> r.value.value == handlers[taskType.s]
  {
    if !Hashable(taskType) then Raise(UnhashableMessage(taskType))
    else if taskType.JStr? && taskType.s in handlers then Ok(Some(handlers[taskType.s]))
    else Ok(None)
  }

  /**
   * The task's type passes the truth test but has no hash: the handler lookup in
   * `process_next_task` raises outside the `try`, so the exception leaves the method.
   */
  predicate Escapes(task: Task) {
    Truthy(Get(task, "type")) && !Hashable(Get(task, "type"))
  }

  /** The handler is called only for a task with a truthy type, a registered handler and an agent to pass. */
  predicate Ready(task: Task, handlers: map<string, HandlerRef>, agentPresent: bool) {
    Truthy(Get(task, "type")) && Lookup(handlers, Get(task, "type")).Ok? &&
    Lookup(handlers, Get(task, "type")).value.Some? && agentPresent
  }

  /** A dict result whose `status` is "error". */
  predicate IsErrorResult(r: Value) {
    r.JObj? && Get(r.fields, "status") == JStr("error")
  }

  function Decide(task: Task, handlers: map<string, HandlerRef>, agentPresent: bool, behave: Behaviour): (v: Verdict)
    ensures v.Escaped? <==> Escapes(task)
    ensures v.Escaped? ==> v.message == UnhashableMessage(Get(task, "type"))
    ensures v.Completed? <==>
      Ready(task, handlers, agentPresent) &&
      var out := behave(Lookup(handlers, Get(task, "type")).value.value, task);
      out.Returned? && !IsErrorResult(out.result)
    ensures v.Completed? ==> v.result == behave(Lookup(handlers, Get(task, "type")).value.value, task).result
    ensures !Truthy(Get(task, "type")) ==> v == Failed(JStr(NoTypeMessage))
    ensures Truthy(Get(task, "type")) && Lookup(handlers, Get(task, "type")) == Ok(None) ==>
      v == Failed(JStr(NoHandlerMessage(Get(task, "type"))))
    ensures Truthy(Get(task, "type")) && Lookup(handlers, Get(task, "type")).Ok? &&
            Lookup(handlers, Get(task, "type")).value.Some? && !agentPresent ==>
      v == Failed(JStr(NoAgentMessage))
    ensures Ready(task, handlers, agentPresent) ==>
      var out := behave(Lookup(handlers, Get(task, "type")).value.value, task);
      (out.Raised? ==> v == Failed(JStr(out.message))) &&
      (out.Returned? && IsErrorResult(out.result) ==>
        v == Failed(GetOr(out.result.fields, "message", JStr(ErrorStatusMessage))))
  {
    var taskType := Get(task, "type");
    if !Truthy(taskType) then Failed(JStr(NoTypeMessage))
    else match Lookup(handlers, taskType)
      case Raise(e) => Escaped(e)
      case Ok(None) => Failed(JStr(NoHandlerMessage(taskType)))
      case Ok(Some(h)) =>
        if !agentPresent then Failed(JStr(NoAgentMessage))
        else match behave(h, task)
          case Raised(m) => Failed(JStr(m))
          case Returned(r) =>
            if IsErrorResult(r) then Failed(GetOr(r.fields, "message", JStr(ErrorStatusMessage)))
            else Completed(r)
  }

  /** `mark_completed` or `mark_failed` by the verdict; an escaped task is left as claimed. */
  function Settle(t: Task, v: Verdict, now: int): (r: Task)
    ensures v.Escaped? ==> r == t
    ensures v.Completed? ==> IsCompleted(r) && Get(r, "result") == v.result
    ensures v.Failed? ==> IsFailed(r) && Get(r, "error") == v.error
  {
    match v
    case Completed(result) => Complete(t, result, now)
    case Failed(error) => Fail(t, error, now)
    case Escaped(_) => t
  }

  /** The queue after one `process_next_task`. */
  function Step(ts: seq<Task>, handlers: map<string, HandlerRef>, agentPresent: bool, behave: Behaviour, now: int): (r: seq<Task>)
    ensures |r| == |ts|
  {
    match FirstPending(ts)
    case None => ts
    case Some(i) => ts[i := StepAt(ts, i, handlers, agentPresent, behave, now)]
  }

  /** The exception one `process_next_task` lets out: the lookup's TypeError for the first pending task. */
  function StepError(ts: seq<Task>): (e: Option<string>)
    ensures e.Some? <==> FirstPending(ts).Some? && Escapes(ts[FirstPending(ts).value])
  {
    match FirstPending(ts)
    case None => None
    case Some(i) => if Escapes(ts[i]) then Some(UnhashableMessage(Get(ts[i], "type"))) else None
  }

  /**
   * One step takes exactly the first pending task out of pending: it ends
   * completed or failed, or stays processing when the step raises.
   */
  lemma StepSettles(ts: seq<Task>, handlers: map<string, HandlerRef>, agentPresent: bool, behave: Behaviour, now: int)
    requires FirstPending(ts).Some?
    ensures Step(ts, handlers, agentPresent, behave, now)
      == ts[FirstPending(ts).value := StepAt(ts, FirstPending(ts).value, handlers, agentPresent, behave, now)]
    ensures CountIf(IsPending, Step(ts, handlers, agentPresent, behave, now)) == CountIf(IsPending, ts) - 1
    ensures CountIf(IsProcessing, Step(ts, handlers, agentPresent, behave, now))
      == CountIf(IsProcessing, ts) + (if StepError(ts).Some? then 1 else 0)
  {
    var i := FirstPending(ts).value;
    var settled := StepAt(ts, i, handlers, agentPresent, behave, now);
    assert Step(ts, handlers, agentPresent, behave, now) == ts[i := settled];
    SettledCounts(ts, i, settled);
  }

  /** The record that replaces the `i`-th one when it is the first pending task. */
  function StepAt(ts: seq<Task>, i: nat, handlers: map<string, HandlerRef>, agentPresent: bool, behave: Behaviour, now: int): (r: Task)
    requires i < |ts|
    ensures Escapes(ts[i]) ==> r == Start(ts[i], now) && IsProcessing(r)
    ensures !Escapes(ts[i]) ==> IsCompleted(r) || IsFailed(r)
  {
    var c := Start(ts[i], now);
    assert Get(c, "type") == Get(ts[i], "type");
    Settle(c, Decide(c, handlers, agentPresent, behave), now)
  }

  lemma SettledCounts(ts: seq<Task>, i: nat, settled: Task)
    requires i < |ts| && IsPending(ts[i]) && !IsPending(settled)
    ensures CountIf(IsPending, ts[i := settled]) == CountIf(IsPending, ts) - 1
    ensures CountIf(IsProcessing, ts[i := settled]) == CountIf(IsProcessing, ts) + (if IsProcessing(settled) then 1 else 0)
  {
    CountIfUpdate(IsPending, ts, i, settled);
    CountIfUpdate(IsProcessing, ts, i, settled);
  }

  /** The queue after `process_all_tasks`, and the exception that ended it early, if any. */
  datatype Drained = Drained(tasks: seq<Task>, raised: Option<string>)

  /** `process_all_tasks`: steps until nothing is pending or a step raises. */
  function Drain(ts: seq<Task>, handlers: map<string, HandlerRef>, agentPresent: bool, behave: Behaviour, now: int): (r: Drained)
    ensures |r.tasks| == |ts|
    ensures r.raised.None? ==>
      CountIf(IsPending, r.tasks) == 0 && CountIf(IsProcessing, r.tasks) == CountIf(IsProcessing, ts)
    ensures r.raised.Some? ==>
      CountIf(IsPending, r.tasks) < CountIf(IsPending, ts) &&
      CountIf(IsProcessing, r.tasks) == CountIf(IsProcessing, ts) + 1
    decreases CountIf(IsPending, ts)
  {
    if FirstPending(ts).None? then
      CountIfNone(IsPending, ts);
      Drained(ts, None)
    else
      StepSettles(ts, handlers, agentPresent, behave, now);
      var s := Step(ts, handlers, agentPresent, behave, now);
      if StepError(ts).Some? then Drained(s, StepError(ts))
      else Drain(s, handlers, agentPresent, behave, now)
  }

  /** Draining a queue with nothing pending leaves it as it is: a second pass processes nothing. */
  lemma DrainIdle(ts: seq<Task>, handlers: map<string, HandlerRef>, agentPresent: bool, behave: Behaviour, now: int)
    requires CountIf(IsPending, ts) == 0
    ensures Drain(ts, handlers, agentPresent, behave, now) == Drained(ts, None)
  {
    if FirstPending(ts).Some? {
      CountIfPositive(IsPending, ts, FirstPending(ts).value);
      assert false;
    }
  }

  /** The drain raises exactly when some pending task has a truthy, unhashable type, whatever the handlers do. */
  lemma {:induction false} DrainRaisesIff(ts: seq<Task>, handlers: map<string, HandlerRef>, agentPresent: bool,
                                          behave: Behaviour, now: int)
    ensures Drain(ts, handlers, agentPresent, behave, now).raised.Some? <==>
      exists j :: 0 <= j < |ts| && IsPending(ts[j]) && Escapes(ts[j])
    decreases CountIf(IsPending, ts)
  {
    if FirstPending(ts).Some? {
      var i := FirstPending(ts).value;
      if !Escapes(ts[i]) {
        StepSettles(ts, handlers, agentPresent, behave, now);
        var s := Step(ts, handlers, agentPresent, behave, now);
        assert !IsPending(s[i]);
        DrainRaisesIff(s, handlers, agentPresent, behave, now);
        if j :| 0 <= j < |ts| && IsPending(ts[j]) && Escapes(ts[j]) {
          assert j != i && s[j] == ts[j];
        }
        if j :| 0 <= j < |s| && IsPending(s[j]) && Escapes(s[j]) {
          assert j != i && s[j] == ts[j];
        }
      }
    }
  }

  /** One step of the drain: nothing pending ends it, a raising step ends it after the step, any other step goes on. */
  lemma DrainUnfold(ts: seq<Task>, handlers: map<string, HandlerRef>, agentPresent: bool, behave: Behaviour, now: int)
    ensures FirstPending(ts).None? ==> Drain(ts, handlers, agentPresent, behave, now) == Drained(ts, None)
    ensures FirstPending(ts).Some? && StepError(ts).Some? ==>
      Drain(ts, handlers, agentPresent, behave, now) == Drained(Step(ts, handlers, agentPresent, behave, now), StepError(ts))
    ensures FirstPending(ts).Some? && StepError(ts).None? ==>
      Drain(ts, handlers, agentPresent, behave, now) == Drain(Step(ts, handlers, agentPresent, behave, now), handlers, agentPresent, behave, now)
  {
  }

  /** A step that neither finds nothing nor raises leaves the drain as it was and one task fewer pending. */
  lemma DrainAdvances(ts: seq<Task>, handlers: map<string, HandlerRef>, agentPresent: bool, behave: Behaviour, now: int)
    requires FirstPending(ts).Some? && StepError(ts).None?
    ensures Drain(Step(ts, handlers, agentPresent, behave, now), handlers, agentPresent, behave, now)
      == Drain(ts, handlers, agentPresent, behave, now)
    ensures CountIf(IsPending, Step(ts, handlers, agentPresent, behave, now)) + 1 == CountIf(IsPending, ts)
  {
    DrainUnfold(ts, handlers, agentPresent, behave, now);
    StepSettles(ts, handlers, agentPresent, behave, now);
  }

  /**
   * The drain `r` of `ts` stopped at task `k`: a pending task whose type escapes,
   * left as claimed with its TypeError, nothing before it pending, nothing after it touched.
   */
  predicate StopsAt(ts: seq<Task>, r: Drained, k: int, now: int) {
    0 <= k < |ts| && |r.tasks| == |ts| && IsPending(ts[k]) && Escapes(ts[k]) &&
    r.raised == Some(UnhashableMessage(Get(ts[k], "type"))) &&
    (forall j :: 0 <= j < k ==> !IsPending(r.tasks[j])) &&
    r.tasks[k] == Start(ts[k], now) && r.tasks[k + 1..] == ts[k + 1..]
  }

  /** A stop found after settling the first pending task `i` is a stop of the queue before that step. */
  lemma StopsAtEarlier(ts: seq<Task>, s: seq<Task>, r: Drained, i: nat, k: int, now: int)
    requires FirstPending(ts) == Some(i) && |s| == |ts| && !IsPending(s[i])
    requires forall j :: 0 <= j < |ts| && j != i ==> s[j] == ts[j]
    requires StopsAt(s, r, k, now)
    ensures StopsAt(ts, r, k, now)
  {
    assert k != i && s[k] == ts[k];
    assert i < k;
    assert s[k + 1..] == ts[k + 1..];
  }

  /** A first pending task whose type escapes is where the drain stops. */
  lemma EscapeStops(ts: seq<Task>, handlers: map<string, HandlerRef>, agentPresent: bool, behave: Behaviour, now: int, i: nat)
    requires FirstPending(ts) == Some(i) && Escapes(ts[i])
    ensures StopsAt(ts, Drain(ts, handlers, agentPresent, behave, now), i, now)
  {
    DrainUnfold(ts, handlers, agentPresent, behave, now);
    var s := Step(ts, handlers, agentPresent, behave, now);
    assert s == ts[i := StepAt(ts, i, handlers, agentPresent, behave, now)];
    assert s[i] == Start(ts[i], now);
    assert s[i + 1..] == ts[i + 1..];
    assert forall j :: 0 <= j < i ==> s[j] == ts[j];
  }

  /**
   * A drain that raises stops at a pending task whose type escapes: nothing
   * before it is left pending, it stays processing, and every later task is untouched.
   */
  lemma {:induction false} DrainStops(ts: seq<Task>, handlers: map<string, HandlerRef>, agentPresent: bool,
                                      behave: Behaviour, now: int)
    requires Drain(ts, handlers, agentPresent, behave, now).raised.Some?
    ensures exists k :: StopsAt(ts, Drain(ts, handlers, agentPresent, behave, now), k, now)
    decreases CountIf(IsPending, ts)
  {
    var r := Drain(ts, handlers, agentPresent, behave, now);
    DrainUnfold(ts, handlers, agentPresent, behave, now);
    var i := FirstPending(ts).value;
    if Escapes(ts[i]) {
      EscapeStops(ts, handlers, agentPresent, behave, now, i);
    } else {
      StepSettles(ts, handlers, agentPresent, behave, now);
      var s := Step(ts, handlers, agentPresent, behave, now);
      DrainStops(s, handlers, agentPresent, behave, now);
      var k :| StopsAt(s, r, k, now);
      StopsAtEarlier(ts, s, r, i, k, now);
    }
  }

  /**
   * With no handler registered nothing is completed; every pending task fails
   * except the one a raise leaves processing and those after it.
   */
  lemma {:induction false} DrainWithoutHandlers(ts: seq<Task>, agentPresent: bool, behave: Behaviour, now: int)
    ensures var r := Drain(ts, map[], agentPresent, behave, now);
      CountIf(IsCompleted, r.tasks) == CountIf(IsCompleted, ts) &&
      CountIf(IsFailed, r.tasks) + CountIf(IsPending, r.tasks) + (if r.raised.Some? then 1 else 0)
        == CountIf(IsFailed, ts) + CountIf(IsPending, ts)
    decreases CountIf(IsPending, ts)
  {
    if FirstPending(ts).None? {
      CountIfNone(IsPending, ts);
    } else {
      var i := FirstPending(ts).value;
      var s := Step(ts, map[], agentPresent, behave, now);
      StepSettles(ts, map[], agentPresent, behave, now);
      var c := Start(ts[i], now);
      assert Get(c, "type") == Get(ts[i], "type");
      assert !Decide(c, map[], agentPresent, behave).Completed?;
      assert !IsCompleted(s[i]) && (IsFailed(s[i]) <==> !Escapes(ts[i]));
      assert s == ts[i := s[i]];
      CountIfUpdate(IsFailed, ts, i, s[i]);
      CountIfUpdate(IsCompleted, ts, i, s[i]);
      if !Escapes(ts[i]) {
        DrainWithoutHandlers(s, agentPresent, behave, now);
      }
    }
  }

  class TaskDispatcher {
    const queue: TaskQueue
    var handlers: map<string, HandlerRef>
    /** Names of the modules imported so far (`self.modules`). */
    var modules: set<string>
    const agentPresent: bool
    const behave: Behaviour

    constructor (queue: TaskQueue, agentPresent: bool, behave: Behaviour)
      ensures this.queue == queue && this.agentPresent == agentPresent && this.behave == behave
      ensures handlers == map[] && modules == {}
    {
      this.queue := queue;
      this.agentPresent := agentPresent;
      this.behave := behave;
      handlers := map[];
      modules := {};
    }

    /**
     * `importable` says which modules import without error and `defines` which
     * module attributes exist; an import or lookup error registers nothing.
     * A second registration for a task type replaces the first.
     */
    method RegisterHandler(taskType: string, moduleName: string, functionName: string,
                           importable: string -> bool, defines: (string, string) -> bool)
      modifies this
      ensures modules == if moduleName in old(modules) || importable(moduleName) then old(modules) + {moduleName} else old(modules)
      ensures handlers ==
        if moduleName in modules && defines(moduleName, functionName)
        then old(handlers)[taskType := HandlerRef(moduleName, functionName)]
        else old(handlers)
    {
      if moduleName !in modules {
        if !importable(moduleName) {
          return;
        }
        modules := modules + {moduleName};
      }
      if !defines(moduleName, functionName) {
        return;
      }
      handlers := handlers[taskType := HandlerRef(moduleName, functionName)];
    }

    /** Claims the first pending task and settles it; `Raise` is the TypeError that leaves the method. */
    method ProcessNextTask(now: int) returns (r: Result<bool>)
      modifies queue
      ensures r == if StepError(old(queue.tasks)).Some? then Raise(StepError(old(queue.tasks)).value)
                   else Ok(FirstPending(old(queue.tasks)).Some?)
      ensures queue.tasks == Step(old(queue.tasks), handlers, agentPresent, behave, now)
      ensures queue.saved == if FirstPending(old(queue.tasks)).Some? then queue.tasks else old(queue.saved)
    {
      ghost var before := queue.tasks;
      var claimed := queue.GetNextTask(now);
      if claimed.None? {
        return Ok(false);
      }
      var i := claimed.value;
      ghost var started := queue.tasks;
      var raised := Run(i, now);
      assert started[i] == Start(before[i], now);
      assert Get(started[i], "type") == Get(before[i], "type");
      assert queue.tasks == before[i := StepAt(before, i, handlers, agentPresent, behave, now)];
      if raised.Some? {
        return Raise(raised.value);
      }
      r := Ok(true);
    }

    /**
     * The body of `process_next_task` once task `i` is claimed: every exit
     * marks it completed or failed, except the lookup's TypeError, which leaves it as claimed.
     */
    method Run(i: nat, now: int) returns (raised: Option<string>)
      requires i < |queue.tasks|
      modifies queue
      ensures queue.tasks == old(queue.tasks)[i := Settle(old(queue.tasks)[i], Decide(old(queue.tasks)[i], handlers, agentPresent, behave), now)]
      ensures raised.Some? <==> Escapes(old(queue.tasks)[i])
      ensures raised.Some? ==> raised.value == UnhashableMessage(Get(old(queue.tasks)[i], "type"))
      ensures queue.saved == if raised.Some? then old(queue.saved) else queue.tasks
    {
      var task := queue.tasks[i];
      var taskType := Get(task, "type");
      if !Truthy(taskType) {
        queue.MarkFailed(i, JStr(NoTypeMessage), now);
        return None;
      }
      var handler := Lookup(handlers, taskType);
      if handler.Raise? {
        assert queue.tasks == queue.tasks[i := task];
        return Some(handler.error);
      }
      if handler.value.None? {
        queue.MarkFailed(i, JStr(NoHandlerMessage(taskType)), now);
        return None;
      }
      if !agentPresent {
        queue.MarkFailed(i, JStr(NoAgentMessage), now);
        return None;
      }
      var outcome := behave(handler.value.value, task);
      match outcome {
        case Raised(m) =>
          queue.MarkFailed(i, JStr(m), now);
        case Returned(result) =>
          if IsErrorResult(result) {
            queue.MarkFailed(i, GetOr(result.fields, "message", JStr(ErrorStatusMessage)), now);
          } else {
            queue.MarkCompleted(i, result, now);
          }
      }
      return None;
    }

    /** Processes tasks until none is pending; returns how many were processed, or the exception a step let out. */
    method ProcessAllTasks(now: int) returns (r: Result<nat>)
      modifies queue
      ensures queue.tasks == Drain(old(queue.tasks), handlers, agentPresent, behave, now).tasks
      ensures r == if Drain(old(queue.tasks), handlers, agentPresent, behave, now).raised.Some?
                   then Raise(Drain(old(queue.tasks), handlers, agentPresent, behave, now).raised.value)
                   else Ok(CountIf(IsPending, old(queue.tasks)))
    {
      var count := 0;
      ghost var d := Drain(old(queue.tasks), handlers, agentPresent, behave, now);
      while true
        invariant Drain(queue.tasks, handlers, agentPresent, behave, now) == d
        invariant count + CountIf(IsPending, queue.tasks) == CountIf(IsPending, old(queue.tasks))
        decreases CountIf(IsPending, queue.tasks)
      {
        ghost var before := queue.tasks;
        var processed := ProcessNextTask(now);
        if processed.Raise? {
          DrainUnfold(before, handlers, agentPresent, behave, now);
          return Raise(processed.error);
        }
        if !processed.value {
          DrainUnfold(before, handlers, agentPresent, behave, now);
          CountIfNone(IsPending, before);
          return Ok(count);
        }
        DrainAdvances(before, handlers, agentPresent, behave, now);
        count := count + 1;
      }
    }
  }
}
