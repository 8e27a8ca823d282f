/**
 * The global handler registry filled by the `register_handler(task_type)`
 * decorator: the last registration for a type wins, lookups of unknown types
 * raise `KeyError`, and `get_registry` hands out a copy.
 */
module Handlers {
  import opened Wrappers
  import Dispatch

  type HandlerRef = Dispatch.HandlerRef

  /** The registry after decorating `func` for `taskType`: an earlier handler for the type is replaced. */
  function Register(registry: map<string, HandlerRef>, taskType: string, func: HandlerRef): (r: map<string, HandlerRef>)
    ensures r.Keys == registry.Keys + {taskType}
    ensures r[taskType] == func
    ensures forall t :: t in registry && t != taskType ==> r[t] == registry[t]
  {
    registry[taskType := func]
  }

  /** `get_handler`: the registered function, or the `KeyError` raised for an unknown type. */
  function Lookup(registry: map<string, HandlerRef>, taskType: string): (r: Result<HandlerRef>)
    ensures r.Ok? <==> taskType in registry
    ensures r.Ok? ==> r.value == registry[taskType]
  {
    if taskType !in registry then Raise("No handler registered for task type '" + taskType + "'.")
    else Ok(registry[taskType])
  }

  /** Looking a type up after registering it yields the handler just registered; other types are unaffected. */
  lemma LookupAfterRegister(registry: map<string, HandlerRef>, taskType: string, func: HandlerRef, other: string)
    ensures Lookup(Register(registry, taskType, func), taskType) == Ok(func)
    ensures other != taskType ==> Lookup(Register(registry, taskType, func), other) == Lookup(registry, other)
  {
  }

  class HandlerRegistry {
    /** The module-level `_handler_registry`. */
    var registry: map<string, HandlerRef>

    constructor ()
      ensures registry == map[]
    {
      registry := map[];
    }

    /** `register_handler(task_type)(func)`: records the handler and returns the function itself. */
    method RegisterHandler(taskType: string, func: HandlerRef) returns (decorated: HandlerRef)
      modifies this
      ensures decorated == func
      ensures registry == Register(old(registry), taskType, func)
    {
      registry := registry[taskType := func];
      decorated := func;
    }

    function GetHandler(taskType: string): (r: Result<HandlerRef>)
      reads this
      ensures r == Lookup(registry, taskType)
      ensures r.Ok? <==> taskType in registry
      ensures r.Ok? ==> r.value == registry[taskType]
    {
      Lookup(registry, taskType)
    }

    /** A copy: later registrations do not show in a registry obtained earlier. */
    method GetRegistry() returns (snapshot: map<string, HandlerRef>)
      ensures snapshot == registry
    {
      snapshot := registry;
    }
  }
}
