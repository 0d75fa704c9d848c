/** The module list of src/module/ModuleManager.ts: modules are appended
    without a duplicate check, `init` is called once when the module
    defines it, and Added is published after the init call. */
module Modules {
  import opened Messaging

  /** A module, described by its handle and whether it defines `init`. */
  datatype ModuleDef = ModuleDef(id: ModuleId, hasInit: bool)

  /** The events one `add` produces: the init marker, then Added. */
  function AddEvents(m: ModuleDef): seq<Event>
  {
    (if m.hasInit then [ModuleInit(m.id)] else []) + [ModuleAdded(m.id)]
  }

  /** The events of adding a list of modules in order. */
  function AddAllEvents(ms: seq<ModuleDef>): seq<Event>
  {
    Each(AddEvents, ms)
  }

  /** `init` is called exactly once when the module defines it and never
      otherwise, and Added comes last, after the init call. */
  lemma {:induction false} AddEventsOrder(m: ModuleDef)
    ensures multiset(AddEvents(m))[ModuleInit(m.id)] == (if m.hasInit then 1 else 0)
    ensures multiset(AddEvents(m))[ModuleAdded(m.id)] == 1
    ensures AddEvents(m)[|AddEvents(m)| - 1] == ModuleAdded(m.id)
    ensures m.hasInit ==> AddEvents(m)[0] == ModuleInit(m.id)
  {
    if m.hasInit {
      assert AddEvents(m) == [ModuleInit(m.id), ModuleAdded(m.id)];
    } else {
      assert AddEvents(m) == [ModuleAdded(m.id)];
    }
  }

  /** Adding a list of modules announces every one of them, and calls
      exactly the `init` hooks that exist. */
  lemma {:induction false} AddAllAnnounces(ms: seq<ModuleDef>, id: ModuleId)
    ensures ModuleAdded(id) in AddAllEvents(ms) <==> exists k :: 0 <= k < |ms| && ms[k].id == id
    ensures ModuleInit(id) in AddAllEvents(ms)
      <==> exists k :: 0 <= k < |ms| && ms[k].id == id && ms[k].hasInit
  {
    EachContains(AddEvents, ms, ModuleAdded(id));
    EachContains(AddEvents, ms, ModuleInit(id));
    assert forall k :: 0 <= k < |ms| ==> (ModuleAdded(id) in AddEvents(ms[k]) <==> ms[k].id == id);
    assert forall k :: 0 <= k < |ms| ==>
      (ModuleInit(id) in AddEvents(ms[k]) <==> ms[k].id == id && ms[k].hasInit);
  }

  class ModuleManager {
    var modules: seq<ModuleDef>
    const bus: MessageBus

    constructor(bus: MessageBus)
      ensures modules == [] && this.bus == bus
    {
      modules := [];
      this.bus := bus;
    }

    /** `add`: appended at the end (earlier entries untouched, no duplicate
        check), then `init`, then Added. */
    method Add(m: ModuleDef)
      modifies this`modules, bus
      ensures modules == old(modules) + [m]
      ensures bus.log == old(bus.log) + AddEvents(m)
    {
      modules := modules + [m];
      if m.hasInit {
        bus.Publish(ModuleInit(m.id));
      }
      bus.Publish(ModuleAdded(m.id));
    }
  }
}
