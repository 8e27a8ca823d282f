/**
 * The module registry: a process-wide singleton mapping module names to
 * classes (first registration wins) and to the instances created from them,
 * with loading by import path and a fixed list of core modules.
 */
module Modules {
  import opened Wrappers
  import opened JsonValue

  /** A class, known by the module that defines it and its name. */
  datatype ClassRef = ClassRef(modulePath: string, className: string)

  /** An object built from a class with the given constructor arguments. */
  datatype Instance = Instance(cls: ClassRef, args: seq<Value>)

  /** Which imports succeed and which module attributes exist: the import system is outside the model. */
  type Importable = string -> bool
  type Defines = (string, string) -> bool

  datatype CoreEntry = CoreEntry(name: string, modulePath: string, className: string)

  /** The nine modules `load_core_modules` loads, in order. */
  const CoreModules: seq<CoreEntry> := [
    CoreEntry("task_queue", "modules.core.task_queue", "TaskQueue"),
    CoreEntry("task_dispatcher", "modules.core.task_dispatcher", "TaskDispatcher"),
    CoreEntry("code_generation", "modules.refactoring.code_generation_module", "CodeGenerationModule"),
    CoreEntry("refactoring_executor", "modules.refactoring.refactoring_executor", "RefactoringExecutor"),
    CoreEntry("project_analyzer", "modules.analysis.project_analyzer", "ProjectAnalyzer"),
    CoreEntry("dependency_analyzer", "modules.analysis.dependency_analyzer", "DependencyAnalyzer"),
    CoreEntry("test_integration", "modules.testing.test_integration", "TestIntegrationModule"),
    CoreEntry("planning", "modules.planning.planning_module", "PlanningModule"),
    CoreEntry("code_reviewer", "modules.review.code_reviewer", "CodeReviewer")
  ]

  predicate Loadable(e: CoreEntry, importable: Importable, defines: Defines) {
    importable(e.modulePath) && defines(e.modulePath, e.className)
  }

  /** `load`: an already registered name is left alone; otherwise the imported class is registered. */
  function LoadOne(modules: map<string, ClassRef>, e: CoreEntry, importable: Importable, defines: Defines): (r: map<string, ClassRef>)
    ensures e.name in modules ==> r == modules
    ensures e.name !in modules && Loadable(e, importable, defines) ==> r == modules[e.name := ClassRef(e.modulePath, e.className)]
    ensures e.name !in modules && !Loadable(e, importable, defines) ==> r == modules
  {
    if e.name in modules || !Loadable(e, importable, defines) then modules
    else modules[e.name := ClassRef(e.modulePath, e.className)]
  }

  function LoadsFine(modules: map<string, ClassRef>, e: CoreEntry, importable: Importable, defines: Defines): bool {
    e.name in modules || Loadable(e, importable, defines)
  }

  /** The registry after loading every entry in turn; no registered class is ever replaced. */
  function LoadAll(modules: map<string, ClassRef>, entries: seq<CoreEntry>, importable: Importable, defines: Defines): (r: map<string, ClassRef>)
    ensures forall n :: n in modules ==> n in r && r[n] == modules[n]
    ensures forall n :: n in r ==> n in modules || exists k :: 0 <= k < |entries| && entries[k].name == n
    decreases |entries|
  {
    if entries == [] then modules
    else LoadAll(LoadOne(modules, entries[0], importable, defines), entries[1..], importable, defines)
  }

  /** `load_core_modules`' verdict: every load must succeed, and every load is attempted. */
  function AllLoad(modules: map<string, ClassRef>, entries: seq<CoreEntry>, importable: Importable, defines: Defines): bool
    decreases |entries|
  {
    if entries == [] then true
    else
      var ok := LoadsFine(modules, entries[0], importable, defines);
      var rest := AllLoad(LoadOne(modules, entries[0], importable, defines), entries[1..], importable, defines);
      ok && rest
  }

  lemma LoadStep(modules: map<string, ClassRef>, e: CoreEntry, rest: seq<CoreEntry>, importable: Importable, defines: Defines)
    ensures LoadAll(modules, [e] + rest, importable, defines) == LoadAll(LoadOne(modules, e, importable, defines), rest, importable, defines)
    ensures AllLoad(modules, [e] + rest, importable, defines) ==
      (LoadsFine(modules, e, importable, defines) && AllLoad(LoadOne(modules, e, importable, defines), rest, importable, defines))
  {
    assert ([e] + rest)[0] == e && ([e] + rest)[1..] == rest;
  }

  predicate DistinctNames(entries: seq<CoreEntry>) {
    forall i, j :: 0 <= i < j < |entries| ==> entries[i].name != entries[j].name
  }

  /** With distinct names the verdict is true exactly when each entry was registered already or imports cleanly. */
  lemma {:induction false} AllLoadIff(modules: map<string, ClassRef>, entries: seq<CoreEntry>, importable: Importable, defines: Defines)
    requires DistinctNames(entries)
    ensures AllLoad(modules, entries, importable, defines) <==>
      forall k :: 0 <= k < |entries| ==> LoadsFine(modules, entries[k], importable, defines)
    decreases |entries|
  {
    if entries != [] {
      var next := LoadOne(modules, entries[0], importable, defines);
      AllLoadIff(next, entries[1..], importable, defines);
      assert forall k :: 1 <= k < |entries| ==> (entries[k].name in next <==> entries[k].name in modules);
      assert forall k :: 1 <= k < |entries| ==> entries[1..][k - 1] == entries[k];
    }
  }

  lemma CoreNamesDistinct()
    ensures DistinctNames(CoreModules)
  {
  }

  class ModuleRegistry {
    var modules: map<string, ClassRef>
    var instances: map<string, Instance>
    var initialized: bool

    /** `__new__` on first use: a blank object whose `__init__` has not run yet. */
    constructor Blank()
      ensures !initialized && modules == map[] && instances == map[]
    {
      modules := map[];
      instances := map[];
      initialized := false;
    }

    /** `__init__`: runs once per process; a second call leaves the registry as it is. */
    method Init()
      modifies this
      ensures old(initialized) ==> modules == old(modules) && instances == old(instances)
      ensures !old(initialized) ==> modules == map[] && instances == map[]
      ensures initialized
    {
      if initialized {
        return;
      }
      modules := map[];
      instances := map[];
      initialized := true;
    }

    method Register(name: string, cls: ClassRef) returns (ok: bool)
      modifies this
      ensures ok <==> name !in old(modules)
      ensures modules == if ok then old(modules)[name := cls] else old(modules)
      ensures instances == old(instances) && initialized == old(initialized)
    {
      if name in modules {
        return false;
      }
      modules := modules[name := cls];
      return true;
    }

    function Get(name: string): (c: Option<ClassRef>)
      reads this
      ensures c.Some? <==> name in modules
      ensures c.Some? ==> c.value == modules[name]
    {
      if name !in modules then None else Some(modules[name])
    }

    method Load(name: string, modulePath: string, className: string, importable: Importable, defines: Defines)
      returns (ok: bool)
      modifies this
      ensures ok == LoadsFine(old(modules), CoreEntry(name, modulePath, className), importable, defines)
      ensures modules == LoadOne(old(modules), CoreEntry(name, modulePath, className), importable, defines)
      ensures instances == old(instances) && initialized == old(initialized)
    {
      if name in modules {
        return true;
      }
      if !importable(modulePath) || !defines(modulePath, className) {
        return false;
      }
      ok := Register(name, ClassRef(modulePath, className));
    }

    /** `create`: builds an instance of a registered class; `raises` says which constructor calls fail. */
    method Create(name: string, args: seq<Value>, raises: (ClassRef, seq<Value>) -> bool) returns (inst: Option<Instance>)
      modifies this
      ensures inst.Some? <==> name in modules && !raises(modules[name], args)
      ensures inst.Some? ==> inst.value == Instance(modules[name], args) && instances == old(instances)[name := inst.value]
      ensures inst.None? ==> instances == old(instances)
      ensures modules == old(modules) && initialized == old(initialized)
    {
      var cls := Get(name);
      if cls.None? {
        return None;
      }
      if raises(cls.value, args) {
        return None;
      }
      var instance := Instance(cls.value, args);
      instances := instances[name := instance];
      return Some(instance);
    }

    function GetInstance(name: string): (i: Option<Instance>)
      reads this
      ensures i.Some? <==> name in instances
      ensures i.Some? ==> i.value == instances[name]
    {
      if name !in instances then None else Some(instances[name])
    }

    method LoadCoreModules(importable: Importable, defines: Defines) returns (success: bool)
      modifies this
      ensures modules == LoadAll(old(modules), CoreModules, importable, defines)
      ensures success <==> forall k :: 0 <= k < |CoreModules| ==> LoadsFine(old(modules), CoreModules[k], importable, defines)
      ensures instances == old(instances) && initialized == old(initialized)
    {
      success := LoadEntries(CoreModules, importable, defines);
      CoreNamesDistinct();
      AllLoadIff(old(modules), CoreModules, importable, defines);
    }

    /** The loop of `load_core_modules`: every entry is loaded, and one failure makes the verdict false. */
    method LoadEntries(entries: seq<CoreEntry>, importable: Importable, defines: Defines) returns (success: bool)
      modifies this
      ensures modules == LoadAll(old(modules), entries, importable, defines)
      ensures success == AllLoad(old(modules), entries, importable, defines)
      ensures instances == old(instances) && initialized == old(initialized)
    {
      success := true;
      var i := 0;
      while i < |entries|
        invariant 0 <= i <= |entries|
        invariant LoadAll(modules, entries[i..], importable, defines) == LoadAll(old(modules), entries, importable, defines)
        invariant success && AllLoad(modules, entries[i..], importable, defines) <==> AllLoad(old(modules), entries, importable, defines)
        invariant instances == old(instances) && initialized == old(initialized)
      {
        var e := entries[i];
        ghost var rest := entries[i + 1..];
        assert entries[i..] == [e] + rest;
        LoadStep(modules, e, rest, importable, defines);
        var ok := Load(e.name, e.modulePath, e.className, importable, defines);
        if !ok {
          success := false;
        }
        i := i + 1;
      }
      assert entries[i..] == [];
    }

    /** `register_decorator(name)(cls)`: registers the class (unless the name is taken) and returns it. */
    method RegisterDecorator(name: string, cls: ClassRef) returns (decorated: ClassRef)
      modifies this
      ensures decorated == cls
      ensures modules == if name in old(modules) then old(modules) else old(modules)[name := cls]
      ensures instances == old(instances) && initialized == old(initialized)
    {
      var _ := Register(name, cls);
      decorated := cls;
    }
  }

  /** The class attribute `_instance`: every `ModuleRegistry()` call returns the same object. */
  class RegistryHolder {
    var instance: Option<ModuleRegistry>

    constructor ()
      ensures instance.None?
    {
      instance := None;
    }

    method Obtain() returns (r: ModuleRegistry)
      modifies this, if instance.Some? then {instance.value} else {}
      ensures instance == Some(r)
      ensures old(instance).Some? ==> r == old(instance).value
      ensures old(instance).Some? && old(r.initialized) ==> r.modules == old(r.modules) && r.instances == old(r.instances)
      ensures old(instance).None? ==> fresh(r) && r.modules == map[] && r.instances == map[]
      ensures r.initialized
    {
      if instance.None? {
        var blank := new ModuleRegistry.Blank();
        instance := Some(blank);
      }
      r := instance.value;
      r.Init();
    }
  }
}
