/**
 * The planning module: it routes planning tasks, turns a master plan into
 * queue tasks by validating the list of tasks the language model suggests, and
 * plans a code-quality review of the key modules without queueing a task
 * whose description is already known.
 */
module Planning {
  import opened Wrappers
  import opened JsonValue
  import opened Text
  import opened Seqs
  import opened Tasks

  // ---------------------------------------------------------------------
  // Fence stripping of a model response
  // ---------------------------------------------------------------------

  const JsonFence: string := "```json"
  const Fence: string := "```"

  /**
   * Removes a leading "```json" and then a trailing "```", trimming white
   * space after each removal; a response with neither is returned untouched.
   */
  function StripFences(s: string): (r: string)
    ensures |r| <= |s|
    ensures !StartsWith(s, JsonFence) && !EndsWith(s, Fence) ==> r == s
    ensures StartsWith(s, JsonFence) || EndsWith(s, Fence) ==>
      r == [] || (!IsSpace(r[0]) && !IsSpace(r[|r| - 1]))
  {
    var a := if StartsWith(s, JsonFence) then Strip(s[|JsonFence|..]) else s;
    if EndsWith(a, Fence) then Strip(a[..|a| - |Fence|]) else a
  }

  /** A string with no white space at either end. */
  predicate Trimmed(s: string) {
    s == [] || (!IsSpace(s[0]) && !IsSpace(s[|s| - 1]))
  }

  lemma LStripOne(c: char, x: string)
    requires IsSpace(c) && (x == [] || !IsSpace(x[0]))
    ensures LStrip([c] + x) == x
  {
    var s := [c] + x;
    assert s[1..] == x;
    if x != [] {
      assert LStrip(x) == x;
    }
  }

  lemma RStripOne(x: string, c: char)
    requires IsSpace(c) && (x == [] || !IsSpace(x[|x| - 1]))
    ensures RStrip(x + [c]) == x
  {
    var s := x + [c];
    assert s[..|s| - 1] == x;
    if x != [] {
      assert RStrip(x) == x;
    }
  }

  /** A fenced JSON answer set on its own lines gives back exactly the text inside the fences. */
  lemma StripFencesUnwraps(body: string)
    requires Trimmed(body)
    ensures StripFences(JsonFence + "\n" + body + "\n" + Fence) == body
  {
    var s := JsonFence + "\n" + body + "\n" + Fence;
    assert StartsWith(s, JsonFence) by { assert s[..|JsonFence|] == JsonFence; }
    var a := body + "\n" + Fence;
    assert s[|JsonFence|..] == "\n" + a;
    if body == [] {
      UnwrapEmpty();
    } else {
      UnwrapBody(body);
    }
  }

  lemma UnwrapEmpty()
    ensures Strip("\n" + ("" + "\n" + Fence)) == Fence
    ensures EndsWith(Fence, Fence) && Strip(Fence[..|Fence| - |Fence|]) == ""
  {
    var tail := "\n" + ("" + "\n" + Fence);
    LStripOne('\n', Fence);
    assert tail[1..] == "\n" + Fence;
    assert LStrip(tail) == LStrip(tail[1..]);
    assert RStrip(Fence) == Fence;
    assert Fence[..0] == "";
  }

  lemma UnwrapBody(body: string)
    requires body != [] && Trimmed(body)
    ensures Strip("\n" + (body + "\n" + Fence)) == body + "\n" + Fence
    ensures var a := body + "\n" + Fence; EndsWith(a, Fence) && Strip(a[..|a| - |Fence|]) == body
  {
    var a := body + "\n" + Fence;
    LStripOne('\n', a);
    assert a[|a| - 1] == '`';
    assert RStrip(a) == a;
    assert a[|a| - |Fence|..] == Fence;
    assert a[..|a| - |Fence|] == body + "\n";
    RStripOne(body, '\n');
    assert LStrip(body + "\n") == body + "\n";
  }

  // ---------------------------------------------------------------------
  // Routing a planning task
  // ---------------------------------------------------------------------

  /** What `handle_task` does with a task: call one of the planning operations, or answer directly. */
  datatype PlanningCall =
    | GenerateInitialPlan(description: Value, planFile: Value)
    | ProcessMasterPlan(planFile: Value, options: Value)
    | PlanKeyModuleAnalysis(options: Value)
    | Reply(result: Dict)

  function StatusReply(status: string, message: string): (d: Dict)
    ensures Get(d, "status") == JStr(status)
  {
    map["status" := JStr(status), "message" := JStr(message)]
  }

  const MissingPlanPrefix: string :=
    "Завдання 'process_master_plan' вимагає 'master_plan_file_path', але його не надано. Опис: "
  const UnknownTypePrefix: string := "Невідомий тип завдання планування: "

  predicate IsType(task: Dict, planningType: string) {
    Get(task, "planning_type") == JStr(planningType)
  }

  predicate KnownPlanningType(task: Dict) {
    IsType(task, "generate_initial_plan") || IsType(task, "process_master_plan")
    || IsType(task, "plan_key_module_analysis") || IsType(task, "agent_architecture")
    || IsType(task, "metaprogramming_strategy") || IsType(task, "self_improvement_plan")
  }

  predicate IsErrorCall(c: PlanningCall) {
    c.Reply? && Get(c.result, "status") == JStr("error")
  }

  function HandleTask(task: Dict): (c: PlanningCall)
    // the two error answers, and nothing else answers with an error
    ensures IsErrorCall(c) <==>
      !KnownPlanningType(task) || (IsType(task, "process_master_plan") && !Truthy(Get(task, "master_plan_file_path")))
    ensures !KnownPlanningType(task) ==>
      c == Reply(StatusReply("error", UnknownTypePrefix + Show(Get(task, "planning_type"))))
    ensures IsType(task, "process_master_plan") && !Truthy(Get(task, "master_plan_file_path")) ==>
      c == Reply(StatusReply("error", MissingPlanPrefix + Show(GetOr(task, "description", JStr("")))))
    ensures IsType(task, "process_master_plan") && Truthy(Get(task, "master_plan_file_path")) ==>
      c == ProcessMasterPlan(Get(task, "master_plan_file_path"), GetOr(task, "options", JObj(map[])))
    ensures IsType(task, "generate_initial_plan") ==>
      c == GenerateInitialPlan(GetOr(task, "description", JStr("")), Get(task, "master_plan_file_path"))
    ensures IsType(task, "plan_key_module_analysis") ==>
      c == PlanKeyModuleAnalysis(GetOr(task, "options", JObj(map[])))
  {
    var planningType := Get(task, "planning_type");
    var description := GetOr(task, "description", JStr(""));
    var options := GetOr(task, "options", JObj(map[]));
    var planFile := Get(task, "master_plan_file_path");
    if planningType == JStr("generate_initial_plan") then GenerateInitialPlan(description, planFile)
    else if planningType == JStr("process_master_plan") then
      if !Truthy(planFile) then Reply(StatusReply("error", MissingPlanPrefix + Show(description)))
      else ProcessMasterPlan(planFile, options)
    else if planningType == JStr("plan_key_module_analysis") then PlanKeyModuleAnalysis(options)
    else if planningType == JStr("agent_architecture") then
      Reply(StatusReply("success", "Планування архітектури агента виконано."))
    else if planningType == JStr("metaprogramming_strategy") then
      Reply(StatusReply("success", "Стратегія метапрограмування запланована."))
    else if planningType == JStr("self_improvement_plan") then
      Reply(StatusReply("success", "План самовдосконалення створено."))
    else Reply(StatusReply("error", UnknownTypePrefix + Show(planningType)))
  }

  // ---------------------------------------------------------------------
  // Validating the suggested tasks of a master plan
  // ---------------------------------------------------------------------

  predicate HasTypeAndDescription(v: Value) {
    v.JObj? && "type" in v.fields && "description" in v.fields
  }

  /** The per-type requirements; a task of any other type only needs `type` and `description`. */
  predicate MeetsTypeRequirements(t: Dict)
    ensures (Get(t, "type") !in {JStr("code_generation"), JStr("refactoring"), JStr("analysis"), JStr("test"),
                                 JStr("documentation")}) ==> MeetsTypeRequirements(t)
    ensures MeetsTypeRequirements(t) && Get(t, "type") == JStr("refactoring") ==>
      Truthy(Get(t, "target_files")) && Truthy(Get(t, "refactoring_type"))
  {
    var ty := Get(t, "type");
    !(ty == JStr("code_generation") && !Truthy(Get(t, "output_file")))
    && !(ty == JStr("refactoring") && (!Truthy(Get(t, "target_files")) || !Truthy(Get(t, "refactoring_type"))))
    && !(ty == JStr("analysis") && Get(t, "analysis_type") == JStr("code_quality_review")
         && !Truthy(Get(t, "target_files")))
    && !(ty == JStr("test") && !Truthy(Get(t, "test_type")))
    && !(ty == JStr("documentation") && !Truthy(Get(t, "doc_type")))
  }

  predicate IsValidTask(v: Value)
    ensures IsValidTask(v) ==> v.JObj? && "type" in v.fields && "description" in v.fields
    ensures HasTypeAndDescription(v) && !Truthy(Get(v.fields, "type")) ==> IsValidTask(v)
  {
    HasTypeAndDescription(v) && MeetsTypeRequirements(v.fields)
  }

  /**
   * The log line for a well-formed task slices its description and appends
   * "..."; a description that is not a string makes this raise `TypeError`.
   */
  predicate BreaksSummary(v: Value) {
    HasTypeAndDescription(v) && !v.fields["description"].JStr?
  }

  const SummaryError: string := "TypeError: a task description is not a string"

  /** The tasks the validation loop keeps, or the error one of them raises. */
  function Validated(suggested: seq<Value>): (r: Result<seq<Value>>)
    ensures r.Raise? <==> exists i :: 0 <= i < |suggested| && BreaksSummary(suggested[i])
  {
    if exists i :: 0 <= i < |suggested| && BreaksSummary(suggested[i]) then Raise(SummaryError)
    else Ok(Filter(IsValidTask, suggested))
  }

  /** The validation loop of `process_master_plan`. */
  method ValidateTasks(suggested: seq<Value>) returns (r: Result<seq<Value>>)
    ensures r == Validated(suggested)
  {
    var validated: seq<Value> := [];
    var i := 0;
    while i < |suggested|
      invariant 0 <= i <= |suggested|
      invariant validated == Filter(IsValidTask, suggested[..i])
      invariant forall j :: 0 <= j < i ==> !BreaksSummary(suggested[j])
    {
      var task := suggested[i];
      FilterAppend(IsValidTask, suggested[..i], task);
      assert suggested[..i + 1] == suggested[..i] + [task];
      if !HasTypeAndDescription(task) {
        i := i + 1;
        continue;
      }
      if !task.fields["description"].JStr? {
        return Raise(SummaryError);
      }
      if MeetsTypeRequirements(task.fields) {
        validated := validated + [task];
      }
      i := i + 1;
    }
    assert suggested[..i] == suggested;
    r := Ok(validated);
  }

  /** The kept tasks are, in order, exactly the valid ones: non-dicts, untyped and undescribed tasks are dropped. */
  lemma ValidatedKeepsValid(suggested: seq<Value>)
    requires Validated(suggested).Ok?
    ensures var kept := Validated(suggested).value;
      IsSubsequence(kept, suggested)
      && |kept| == CountIf(IsValidTask, suggested)
      && (forall v :: v in kept ==> v.JObj? && "type" in v.fields && "description" in v.fields)
      && (forall v :: v in kept ==> MeetsTypeRequirements(v.fields))
  {
    FilterIsSubsequence(IsValidTask, suggested);
    FilterLength(IsValidTask, suggested);
    FilterMembers(IsValidTask, suggested);
  }

  /** A `code_generation` task without an output file is never queued, whatever else it carries. */
  lemma CodeGenerationNeedsOutputFile(suggested: seq<Value>, t: Dict)
    requires Validated(suggested).Ok?
    requires Get(t, "type") == JStr("code_generation") && !Truthy(Get(t, "output_file"))
    ensures JObj(t) !in Validated(suggested).value
  {
    FilterMembers(IsValidTask, suggested);
  }

  // ---------------------------------------------------------------------
  // process_master_plan after the plan file has been read
  // ---------------------------------------------------------------------

  /** `type(v)` as Python prints it. */
  function TypeName(v: Value): string {
    "<class '" + PyType(v) + "'>"
  }

  const DecodeErrorPrefix: string := "Некоректний формат відповіді від Gemini: "
  const PlanErrorPrefix: string := "Помилка при обробці головного плану: "
  const NotListPrefix: string := "Відповідь Gemini не є JSON-масивом завдань. Отримано тип: "

  /**
   * What the master-plan step yields before anything is queued: the
   * validated tasks or the error message of the reply. `response` is the
   * model's answer (or the exception it raised) and `decode` is `json.loads`.
   */
  function PlanTasks(response: Result<Value>, decode: string -> Result<Value>): (r: Result<seq<Value>>)
    ensures response.Raise? ==> r == Raise(PlanErrorPrefix + response.error)
    ensures response.Ok? && !response.value.JStr? && !response.value.JArr? ==>
      r == Raise(PlanErrorPrefix + NotListPrefix + TypeName(response.value))
    // a list answer is validated as it stands
    ensures response.Ok? && response.value.JArr? ==> ValidatedAs(r, response.value.items)
    // a text answer is decoded once its fences are stripped
    ensures response.Ok? && response.value.JStr? ==>
      var decoded := decode(StripFences(response.value.s));
      (decoded.Raise? ==> r == Raise(DecodeErrorPrefix + decoded.error))
      && (decoded.Ok? && decoded.value.JArr? ==> ValidatedAs(r, decoded.value.items))
      && (decoded.Ok? && !decoded.value.JArr? ==> r == Raise(PlanErrorPrefix + NotListPrefix + TypeName(decoded.value)))
    ensures r.Ok? ==> exists suggested :: Validated(suggested) == Ok(r.value)
  {
    match response
    case Raise(e) => Raise(PlanErrorPrefix + e)
    case Ok(answer) =>
      var decoded :=
        if answer.JStr? then
          match decode(StripFences(answer.s))
          case Raise(e) => Raise(DecodeErrorPrefix + e)
          case Ok(v) => Ok(v)
        else Ok(answer);
      match decoded
      case Raise(e) => Raise(e)
      case Ok(suggested) =>
        if !suggested.JArr? then Raise(PlanErrorPrefix + NotListPrefix + TypeName(suggested))
        else match Validated(suggested.items)
          case Raise(e) => Raise(PlanErrorPrefix + e)
          case Ok(kept) => Ok(kept)
  }

  /** `r` is the validation of `suggested`, with the reply's prefix on an error. */
  predicate ValidatedAs(r: Result<seq<Value>>, suggested: seq<Value>) {
    match Validated(suggested)
    case Ok(kept) => r == Ok(kept)
    case Raise(e) => r == Raise(PlanErrorPrefix + e)
  }

  /** An answer without fences is decoded as it stands. */
  lemma PlainAnswerDecoded(s: string, decode: string -> Result<Value>, items: seq<Value>)
    requires !StartsWith(s, JsonFence) && !EndsWith(s, Fence) && decode(s) == Ok(JArr(items))
    ensures ValidatedAs(PlanTasks(Ok(JStr(s)), decode), items)
  {
  }

  /** Valid tasks are dicts, so their field maps are what the queue stores. */
  function FieldsOf(vs: seq<Value>): (r: seq<Dict>)
    requires forall v :: v in vs ==> v.JObj?
    ensures |r| == |vs|
  {
    seq(|vs|, i requires 0 <= i < |vs| => vs[i].fields)
  }

  function CreatedMessage(n: nat): string {
    "PlanningModule processed master plan, " + NatToString(n) + " valid tasks created."
  }

  /**
   * `process_master_plan`: a missing plan file is an error; `options` that
   * are not a dict make `options.get` fail inside the `try`, an error reply;
   * otherwise the validated tasks are appended to the registered queue (when
   * there is one and there is something to add) and the reply counts them.
   */
  method ProcessMasterPlanFile(
    fullPath: string, planExists: bool, options: Value, response: Result<Value>, decode: string -> Result<Value>,
    queue: TaskQueue?, now: int) returns (reply: Dict)
    modifies queue
    ensures !planExists ==> reply == StatusReply("error", "Файл головного плану не знайдено: " + fullPath)
    ensures planExists && !options.JObj? ==> reply == StatusReply("error", PlanErrorPrefix + NoGetMessage(options))
    ensures planExists && options.JObj? && PlanTasks(response, decode).Raise? ==>
      reply == StatusReply("error", PlanTasks(response, decode).error)
    ensures planExists && options.JObj? && PlanTasks(response, decode).Ok? ==>
      reply == StatusReply("success", CreatedMessage(|PlanTasks(response, decode).value|))
    ensures queue != null && planExists && options.JObj? && PlanTasks(response, decode).Ok? ==>
      (forall v :: v in PlanTasks(response, decode).value ==> v.JObj?)
      && queue.tasks == old(queue.tasks) + NormalizeAll(FieldsOf(PlanTasks(response, decode).value), now)
    ensures queue != null && !(planExists && options.JObj? && PlanTasks(response, decode).Ok?) ==>
      queue.tasks == old(queue.tasks) && queue.saved == old(queue.saved)
  {
    if !planExists {
      return StatusReply("error", "Файл головного плану не знайдено: " + fullPath);
    }
    if !options.JObj? {
      return StatusReply("error", PlanErrorPrefix + NoGetMessage(options));
    }
    var outcome := PlanTasks(response, decode);
    if outcome.Raise? {
      return StatusReply("error", outcome.error);
    }
    var kept := outcome.value;
    var suggested :| Validated(suggested) == Ok(kept);
    FilterMembers(IsValidTask, suggested);
    assert forall v :: v in kept ==> v.JObj?;
    if queue != null {
      if kept != [] {
        queue.AddTasks(FieldsOf(kept), now);
      } else {
        assert NormalizeAll(FieldsOf(kept), now) == [];
      }
    }
    reply := StatusReply("success", CreatedMessage(|kept|));
  }

  /** An answer that is neither text nor a list is refused with `ValueError`, and nothing is queued. */
  lemma NonListAnswerRefused(answer: Value, decode: string -> Result<Value>)
    requires !answer.JStr? && !answer.JArr?
    ensures PlanTasks(Ok(answer), decode).Raise?
    ensures PlanTasks(Ok(answer), decode).error == PlanErrorPrefix + NotListPrefix + TypeName(answer)
  {
  }

  /** A fenced JSON list is decoded from the text inside the fences. */
  lemma FencedAnswerDecoded(body: string, decode: string -> Result<Value>, items: seq<Value>)
    requires Trimmed(body) && decode(body) == Ok(JArr(items))
    requires Validated(items).Ok?
    ensures PlanTasks(Ok(JStr(JsonFence + "\n" + body + "\n" + Fence)), decode) == Validated(items)
  {
    StripFencesUnwraps(body);
  }

  // ---------------------------------------------------------------------
  // Planning the key-module analysis without duplicate descriptions
  // ---------------------------------------------------------------------

  function Description(t: Dict): Value {
    Get(t, "description")
  }

  /** The dedup loop of `_plan_key_module_analysis`. */
  method DedupByDescription(existing: seq<Dict>, suggested: seq<Dict>) returns (added: seq<Dict>)
    ensures added == KeepFirst(Description, KeysOf(Description, existing), suggested)
  {
    var seen := KeysOf(Description, existing);
    added := [];
    var i := 0;
    while i < |suggested|
      invariant 0 <= i <= |suggested|
      invariant added + KeepFirst(Description, seen, suggested[i..])
                == KeepFirst(Description, KeysOf(Description, existing), suggested)
    {
      var task := suggested[i];
      KeepFirstStep(Description, seen, suggested, i);
      if Description(task) !in seen {
        added := added + [task];
        seen := seen + {Description(task)};
      }
      i := i + 1;
    }
  }

  /**
   * The dedup promise: the new tasks keep the suggested order, none has a
   * description already in the queue, no two share one, and every suggested
   * description is in the queue or on a new task.
   */
  lemma DedupProperties(existing: seq<Dict>, suggested: seq<Dict>)
    ensures var added := KeepFirst(Description, KeysOf(Description, existing), suggested);
      IsSubsequence(added, suggested)
      && (forall i, k :: 0 <= i < |added| && 0 <= k < |existing| ==> Description(added[i]) != Description(existing[k]))
      && (forall i, j :: 0 <= i < j < |added| ==> Description(added[i]) != Description(added[j]))
      && (forall i :: 0 <= i < |suggested| ==>
            Description(suggested[i]) in KeysOf(Description, existing) + KeysOf(Description, added))
  {
    KeepFirstIsSubsequence(Description, KeysOf(Description, existing), suggested);
    KeepFirstDistinct(Description, KeysOf(Description, existing), suggested);
    KeepFirstCovers(Description, KeysOf(Description, existing), suggested);
  }

  /**
   * Iterating a JSON value, calling `.get("description")` on each element and
   * hashing the description into a set, in order: a list of dicts with
   * hashable descriptions gives the dicts; an empty container or string gives
   * nothing; the first element that is not a dict raises `AttributeError`, the
   * first list or dict description `TypeError`; a scalar is not iterable.
   */
  function DescribedDicts(v: Value): (r: Result<seq<Dict>>)
    ensures r.Ok? ==> forall t :: t in r.value ==> Hashable(Description(t))
    ensures v.JArr? ==> r == DescribedItems(v.items)
    ensures (v.JObj? && v.fields != map[]) || (v.JStr? && v.s != "") ==> r == Raise(NotDictError("str"))
    ensures v.JNull? || v.JBool? || v.JNum? || v.JReal? ==> r.Raise?
  {
    match v
    case JArr(items) => DescribedItems(items)
    case JObj(m) => if m == map[] then Ok([]) else Raise(NotDictError("str"))
    case JStr(s) => if s == "" then Ok([]) else Raise(NotDictError("str"))
    case _ => Raise("TypeError: '" + PyType(v) + "' object is not iterable")
  }

  function DescribedItems(items: seq<Value>): (r: Result<seq<Dict>>)
    ensures r.Ok? ==> forall t :: t in r.value ==> Hashable(Description(t))
    ensures r.Ok? <==> forall i :: 0 <= i < |items| ==> items[i].JObj? && Hashable(Description(items[i].fields))
    ensures r.Ok? ==> |r.value| == |items| && forall i :: 0 <= i < |items| ==> items[i] == JObj(r.value[i])
    decreases |items|
  {
    if items == [] then Ok([])
    else if !items[0].JObj? then Raise(NotDictError(PyType(items[0])))
    else if !Hashable(Description(items[0].fields)) then Raise("TypeError: " + UnhashableMessage(Description(items[0].fields)))
    else match DescribedItems(items[1..])
      case Raise(e) => Raise(e)
      case Ok(rest) => Ok([items[0].fields] + rest)
  }

  /** The first list item in `items[..k]` that breaks the iteration decides the error. */
  lemma {:induction false} DescribedItemsError(items: seq<Value>, k: nat)
    requires k < |items| && forall i :: 0 <= i < k ==> items[i].JObj? && Hashable(Description(items[i].fields))
    ensures !items[k].JObj? ==> DescribedItems(items) == Raise(NotDictError(PyType(items[k])))
    ensures items[k].JObj? && !Hashable(Description(items[k].fields)) ==>
      DescribedItems(items) == Raise("TypeError: " + UnhashableMessage(Description(items[k].fields)))
    decreases k
  {
    if k > 0 {
      DescribedItemsError(items[1..], k - 1);
    }
  }

  function NotDictError(typeName: string): string {
    "AttributeError: '" + typeName + "' object has no attribute 'get'"
  }

  const NoAnalyzerMessage: string :=
    "ProjectAnalyzer не ініціалізовано в PlanningModule. Неможливо визначити ключові модулі."
  const NoQueueMessage: string := "TaskQueue не ініціалізовано. Завдання аналізу не можуть бути додані до черги."
  const NoKeyModulesMessage: string := "Ключових модулів для аналізу не знайдено."

  function AnalysisReply(n: nat, keyModules: Value): Dict {
    map["status" := JStr("success"),
        "message" := JStr("Успішно заплановано аналіз. Додано " + NatToString(n) + " нових завдань."),
        "tasks_created" := JNum(n),
        "identified_modules" := keyModules]
  }

  /** `identification_result.get("suggested_tasks", [])`. */
  function Suggested(identification: Dict): Value {
    GetOr(identification, "suggested_tasks", JArr([]))
  }

  /** `identification_result.get("key_modules", [])`. */
  function KeyModules(identification: Dict): Value {
    GetOr(identification, "key_modules", JArr([]))
  }

  /** The analyser is there, `options` is a dict and the key modules were identified. */
  predicate Identified(analyzerPresent: bool, options: Value, identification: Dict) {
    analyzerPresent && options.JObj? && Get(identification, "status") == JStr("success")
  }

  /** The outcome of planning the key-module analysis: answer directly, queue new tasks and answer, or raise. */
  datatype AnalysisPlan =
    | Answer(reply: Dict)
    | Enqueue(added: seq<Dict>, reply: Dict)
    | Fails(error: string)

  /**
   * `_plan_key_module_analysis` as a value. The analyser's answer
   * `identification` and the queue file's content `queueFile` (an empty list
   * when the file is missing or unreadable) are inputs.
   */
  function KeyModulePlan(analyzerPresent: bool, options: Value, identification: Dict, queuePresent: bool, queueFile: Value)
    : (p: AnalysisPlan)
    ensures !analyzerPresent ==> p == Answer(StatusReply("error", NoAnalyzerMessage))
    // `options.get` sits outside any `try`
    ensures analyzerPresent && !options.JObj? ==> p == Fails(NotDictError(PyType(options)))
    ensures analyzerPresent && options.JObj? && Get(identification, "status") != JStr("success") ==>
      p == Answer(identification)
    ensures Identified(analyzerPresent, options, identification) && !Truthy(KeyModules(identification)) ==>
      p == Answer(StatusReply("success", NoKeyModulesMessage)["tasks_created" := JNum(0)])
    ensures Identified(analyzerPresent, options, identification) && Truthy(KeyModules(identification))
            && !queuePresent ==>
      p == Answer(StatusReply("error", NoQueueMessage))
    ensures p.Enqueue? ==> p.added != [] && queuePresent && Get(identification, "status") == JStr("success")
    ensures p.Enqueue? ==> Get(p.reply, "tasks_created") == JNum(|p.added|)
    // the queued tasks are the deduplicated suggestions
    ensures p.Enqueue? ==>
      DescribedDicts(queueFile).Ok? && DescribedDicts(Suggested(identification)).Ok?
      && p.added == KeepFirst(Description, KeysOf(Description, DescribedDicts(queueFile).value),
                            DescribedDicts(Suggested(identification)).value)
    // the queue file's tasks are hashed first, then the suggestions one by one
    ensures (Identified(analyzerPresent, options, identification) && Truthy(KeyModules(identification))
             && queuePresent) ==>
      (p.Fails? <==> DescribedDicts(queueFile).Raise? || DescribedDicts(Suggested(identification)).Raise?)
      && (p.Fails? ==> p.error == if DescribedDicts(queueFile).Raise? then DescribedDicts(queueFile).error
                                  else DescribedDicts(Suggested(identification)).error)
    // and conversely: new tasks are always enqueued, and the reply counts them
    ensures (Identified(analyzerPresent, options, identification) && Truthy(KeyModules(identification))
             && queuePresent && DescribedDicts(queueFile).Ok? && DescribedDicts(Suggested(identification)).Ok?) ==>
      var added := KeepFirst(Description, KeysOf(Description, DescribedDicts(queueFile).value),
                             DescribedDicts(Suggested(identification)).value);
      p == if added == [] then Answer(AnalysisReply(0, KeyModules(identification)))
           else Enqueue(added, AnalysisReply(|added|, KeyModules(identification)))
  {
    if !analyzerPresent then Answer(StatusReply("error", NoAnalyzerMessage))
    else if !options.JObj? then Fails(NotDictError(PyType(options)))
    else if Get(identification, "status") != JStr("success") then Answer(identification)
    else
      var keyModules := KeyModules(identification);
      if !Truthy(keyModules) then Answer(StatusReply("success", NoKeyModulesMessage)["tasks_created" := JNum(0)])
      else if !queuePresent then Answer(StatusReply("error", NoQueueMessage))
      else match (DescribedDicts(queueFile), DescribedDicts(Suggested(identification)))
        case (Raise(e), _) => Fails(e)
        case (_, Raise(e)) => Fails(e)
        case (Ok(existing), Ok(suggested)) =>
          var added := KeepFirst(Description, KeysOf(Description, existing), suggested);
          if added == [] then Answer(AnalysisReply(0, keyModules))
          else Enqueue(added, AnalysisReply(|added|, keyModules))
  }

  /** `_plan_key_module_analysis`: queues the new tasks of the plan and answers with its reply. */
  method PlanKeyModules(
    analyzerPresent: bool, options: Value, identification: Dict, queue: TaskQueue?, queueFile: Value, now: int)
    returns (r: Result<Dict>)
    modifies queue
    ensures var p := KeyModulePlan(analyzerPresent, options, identification, queue != null, queueFile);
      r == (match p
            case Answer(reply) => Ok(reply)
            case Enqueue(_, reply) => Ok(reply)
            case Fails(e) => Raise(e))
    ensures var p := KeyModulePlan(analyzerPresent, options, identification, queue != null, queueFile);
      queue != null ==>
        queue.tasks == old(queue.tasks) + (if p.Enqueue? then NormalizeAll(p.added, now) else [])
  {
    if !analyzerPresent {
      return Ok(StatusReply("error", NoAnalyzerMessage));
    }
    if !options.JObj? {
      return Raise(NotDictError(PyType(options)));
    }
    if Get(identification, "status") != JStr("success") {
      return Ok(identification);
    }
    var keyModules := KeyModules(identification);
    if !Truthy(keyModules) {
      return Ok(StatusReply("success", NoKeyModulesMessage)["tasks_created" := JNum(0)]);
    }
    if queue == null {
      return Ok(StatusReply("error", NoQueueMessage));
    }
    var existing := DescribedDicts(queueFile);
    if existing.Raise? {
      return Raise(existing.error);
    }
    var suggested := DescribedDicts(Suggested(identification));
    if suggested.Raise? {
      return Raise(suggested.error);
    }
    var added := DedupByDescription(existing.value, suggested.value);
    if added != [] {
      queue.AddTasks(added, now);
    }
    r := Ok(AnalysisReply(|added|, keyModules));
  }
}
