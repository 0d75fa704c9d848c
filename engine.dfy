/** The engine of src/engine/Engine.ts: a one-shot `start` that adds the
    statically registered modules and systems, the fixed event order of
    each tick, and the provider registry behind `resolve`/`resolveAll`. */
module EngineCore {
  import opened Wrappers
  import opened Messaging
  import Systems
  import Modules
  import FrameClock
  import Scenes

  // ---- Static registration ---------------------------------------------------

  /** `Partial<SystemOptions>`: `None` is an absent key (or an absent
      options object). */
  datatype PartialOptions = PartialOptions(priority: Option<int>, clockRate: Option<int>)

  const NoOptions := PartialOptions(None, None)

  /** One entry of the static `systems` list. */
  datatype StaticSystem = StaticSystem(system: Systems.SystemDef, options: PartialOptions)

  /** `{ priority: NORMAL, clockRate: 60, ...options }`. */
  function Effective(o: PartialOptions, normal: int): Systems.SystemOptions
  {
    Systems.SystemOptions(
      if o.priority.Some? then o.priority.value else normal,
      if o.clockRate.Some? then o.clockRate.value else 60)
  }

  /** The registrations `start` hands to the system manager, in order. */
  function Registrations(ss: seq<StaticSystem>, normal: int): (r: seq<Systems.Registration>)
    ensures |r| == |ss|
    ensures forall i :: 0 <= i < |ss| ==>
      r[i] == Systems.Registration(ss[i].system, Effective(ss[i].options, normal))
  {
    if ss == [] then []
    else
      var last := ss[|ss| - 1];
      Registrations(ss[..|ss| - 1], normal) + [Systems.Registration(last.system, Effective(last.options, normal))]
  }

  /** A system registered without options runs at NORMAL priority and a
      clock rate of 60; a given option always wins over the default. */
  lemma {:induction false} EffectiveDefaults(o: PartialOptions, normal: int)
    ensures o == NoOptions ==> Effective(o, normal) == Systems.SystemOptions(normal, 60)
    ensures o.priority.Some? ==> Effective(o, normal).priority == o.priority.value
    ensures o.clockRate.Some? ==> Effective(o, normal).clockRate == o.clockRate.value
    ensures o.priority.None? ==> Effective(o, normal).priority == normal
    ensures o.clockRate.None? ==> Effective(o, normal).clockRate == 60
  {
  }

  /** The static `Engine.modules` and `Engine.systems` lists, shared by
      every engine. */
  class Registry {
    var modules: seq<Modules.ModuleDef>
    var systems: seq<StaticSystem>

    constructor()
      ensures modules == [] && systems == []
    {
      modules := [];
      systems := [];
    }

    /** `registerModule`. */
    method RegisterModule(m: Modules.ModuleDef)
      modifies this`modules
      ensures modules == old(modules) + [m]
    {
      modules := modules + [m];
    }

    /** `registerSystem`. */
    method RegisterSystem(s: Systems.SystemDef, options: PartialOptions)
      modifies this`systems
      ensures systems == old(systems) + [StaticSystem(s, options)]
    {
      systems := systems + [StaticSystem(s, options)];
    }
  }

  // ---- Events ------------------------------------------------------------------

  /** The events of adding the static systems, in order. */
  function SystemAddEvents(ss: seq<StaticSystem>): seq<Event>
  {
    Each((s: StaticSystem) => Systems.AddEvents(s.system), ss)
  }

  /** The events of a first `start`: every module added, every system
      added, then Started. */
  function StartEvents(ms: seq<Modules.ModuleDef>, ss: seq<StaticSystem>): seq<Event>
  {
    Modules.AddAllEvents(ms) + SystemAddEvents(ss) + [EngineEvent(EngineStarted)]
  }

  /** The events of one `update(delta)`, given the order the system
      manager dispatches in. */
  function TickEvents(s: seq<Systems.Registration>): seq<Event>
  {
    [EngineEvent(EngineBeforeUpdate)] + Systems.UpdatePass(s) + [EngineEvent(EngineAfterUpdate)]
    + [EngineEvent(EngineBeforeRender)] + Systems.RenderPass(s) + [EngineEvent(EngineAfterRender)]
  }

  /** Started is published once, as the last event of `start`, after every
      module and system has been announced. */
  lemma {:induction false} StartedLast(ms: seq<Modules.ModuleDef>, ss: seq<StaticSystem>)
    ensures StartEvents(ms, ss)[|StartEvents(ms, ss)| - 1] == EngineEvent(EngineStarted)
    ensures EngineEvent(EngineStarted) !in StartEvents(ms, ss)[..|StartEvents(ms, ss)| - 1]
  {
    var visit := (s: StaticSystem) => Systems.AddEvents(s.system);
    var front := Modules.AddAllEvents(ms) + SystemAddEvents(ss);
    assert StartEvents(ms, ss)[..|StartEvents(ms, ss)| - 1] == front;
    EachContains(Modules.AddEvents, ms, EngineEvent(EngineStarted));
    EachContains(visit, ss, EngineEvent(EngineStarted));
  }

  /** A pass of one hook never contains calls of the other hook. */
  lemma {:induction false} PassHooks(s: seq<Systems.Registration>, id: SystemId)
    ensures SystemCall(SysRender, id) !in Systems.UpdatePass(s)
    ensures SystemCall(SysUpdate, id) !in Systems.RenderPass(s)
  {
    var up := (r: Systems.Registration) =>
      Systems.Visit(r, SysUpdate, SystemBeforeUpdate, SystemAfterUpdate);
    var down := (r: Systems.Registration) =>
      Systems.Visit(r, SysRender, SystemBeforeRender, SystemAfterRender);
    EachContains(up, s, SystemCall(SysRender, id));
    EachContains(down, s, SystemCall(SysUpdate, id));
  }

  /** Within a tick every system update comes before AfterUpdate, which
      comes before BeforeRender, which comes before every system render. */
  lemma {:induction false} TickOrder(s: seq<Systems.Registration>, i: nat, j: nat)
    requires i < |TickEvents(s)| && j < |TickEvents(s)|
    requires TickEvents(s)[i].SystemCall? && TickEvents(s)[i].systemHook == SysUpdate
    requires TickEvents(s)[j].SystemCall? && TickEvents(s)[j].systemHook == SysRender
    ensures TickEvents(s)[0] == EngineEvent(EngineBeforeUpdate)
    ensures TickEvents(s)[|Systems.UpdatePass(s)| + 1] == EngineEvent(EngineAfterUpdate)
    ensures TickEvents(s)[|Systems.UpdatePass(s)| + 2] == EngineEvent(EngineBeforeRender)
    ensures 0 < i < |Systems.UpdatePass(s)| + 1 < |Systems.UpdatePass(s)| + 2 < j
  {
    var u, r := Systems.UpdatePass(s), Systems.RenderPass(s);
    var t := TickEvents(s);
    var e1, e2 := TickEvents(s)[i], TickEvents(s)[j];
    PassHooks(s, e1.calledSystem);
    PassHooks(s, e2.calledSystem);
    assert t == [EngineEvent(EngineBeforeUpdate)] + u + [EngineEvent(EngineAfterUpdate), EngineEvent(EngineBeforeRender)]
      + r + [EngineEvent(EngineAfterRender)];
    assert 0 < i <= |u|;
  }

  // ---- Providers -------------------------------------------------------------

  type Value = nat
  type ClassRef = nat
  type FactoryRef = nat

  /** A `Provider`: absent members are `None`. */
  datatype Provider = Provider(key: string, useValue: Option<Value>,
                               useClass: Option<ClassRef>, useFactory: Option<FactoryRef>)

  /** What resolving a provider yields: a new instance of the class, the
      factory's return value, or the plain value (undefined when absent). */
  datatype Resolved = Constructed(cls: ClassRef) | Produced(factory: FactoryRef) | Given(value: Option<Value>)

  type Providers = map<string, seq<Provider>>

  /** `_getProviderValue`. */
  function ProviderValue(p: Provider): Resolved
  {
    if p.useClass.Some? then Constructed(p.useClass.value)
    else if p.useFactory.Some? then Produced(p.useFactory.value)
    else Given(p.useValue)
  }

  /** `useClass` beats `useFactory`, which beats `useValue`. */
  lemma {:induction false} ProviderPrecedence(p: Provider, c: ClassRef, f: FactoryRef)
    ensures ProviderValue(p.(useClass := Some(c))) == Constructed(c)
    ensures p.useClass.None? ==> ProviderValue(p.(useFactory := Some(f))) == Produced(f)
    ensures p.useClass.None? && p.useFactory.None? ==> ProviderValue(p) == Given(p.useValue)
    ensures ProviderValue(p).Given? <==> p.useClass.None? && p.useFactory.None?
  {
  }

  /** `registerProvider`: appended to the list of its key, created when
      missing; other keys untouched. */
  function Registered(ps: Providers, p: Provider): (r: Providers)
    ensures r.Keys == ps.Keys + {p.key}
    ensures p.key in ps ==> r[p.key] == ps[p.key] + [p]
    ensures p.key !in ps ==> r[p.key] == [p]
    ensures forall k :: k in ps && k != p.key ==> r[k] == ps[k]
  {
    ps[p.key := (if p.key in ps then ps[p.key] else []) + [p]]
  }

  /** Every registered key has at least one provider. */
  predicate NonEmpty(ps: Providers)
  {
    forall k :: k in ps ==> ps[k] != []
  }

  /** `resolve(key)`: the first provider's value. */
  function ResolveIn(ps: Providers, key: string): (r: Result<Resolved>)
    ensures r.Ok? <==> key in ps && ps[key] != []
  {
    if key in ps && ps[key] != [] then Ok(ProviderValue(ps[key][0]))
    else Err("Provider with name " + key + " not registered")
  }

  /** `resolveAll(key)`: every provider's value in registration order. */
  function ResolveAllIn(ps: Providers, key: string): (r: Result<seq<Resolved>>)
    ensures r.Ok? <==> key in ps
    ensures r.Ok? ==>
      (|r.value| == |ps[key]| && forall i :: 0 <= i < |ps[key]| ==> r.value[i] == ProviderValue(ps[key][i]))
  {
    if key in ps then Ok(seq(|ps[key]|, i requires 0 <= i < |ps[key]| => ProviderValue(ps[key][i])))
    else Err("Provider(s) with name " + key + " not registered")
  }

  /** Registering keeps every key's list non-empty. */
  lemma {:induction false} RegisteredNonEmpty(ps: Providers, p: Provider)
    requires NonEmpty(ps)
    ensures NonEmpty(Registered(ps, p))
  {
  }

  /** On a registry built by `registerProvider`, `resolve` fails exactly
      where `resolveAll` does, and otherwise yields `resolveAll`'s first
      value. */
  lemma {:induction false} ResolveIsFirst(ps: Providers, key: string)
    requires NonEmpty(ps)
    ensures ResolveIn(ps, key).Ok? <==> ResolveAllIn(ps, key).Ok?
    ensures ResolveIn(ps, key).Ok? ==>
      ResolveAllIn(ps, key).value != [] && ResolveIn(ps, key).value == ResolveAllIn(ps, key).value[0]
  {
  }

  /** Registering a provider adds its value at the end of `resolveAll`,
      leaves `resolve` on the first provider when the key was already
      there, and changes nothing for other keys. */
  lemma {:induction false} RegisterThenResolve(ps: Providers, p: Provider, key: string)
    ensures ResolveAllIn(Registered(ps, p), p.key).Ok?
    ensures ResolveAllIn(Registered(ps, p), p.key).value
      == (if p.key in ps then ResolveAllIn(ps, p.key).value else []) + [ProviderValue(p)]
    ensures p.key in ps && ps[p.key] != [] ==> ResolveIn(Registered(ps, p), p.key) == ResolveIn(ps, p.key)
    ensures p.key !in ps ==> ResolveIn(Registered(ps, p), p.key) == Ok(ProviderValue(p))
    ensures key != p.key ==>
      (ResolveIn(Registered(ps, p), key) == ResolveIn(ps, key)
       && ResolveAllIn(Registered(ps, p), key) == ResolveAllIn(ps, key))
  {
    var r := Registered(ps, p);
    var all := ResolveAllIn(r, p.key).value;
    var before := if p.key in ps then ResolveAllIn(ps, p.key).value else [];
    assert all == before + [ProviderValue(p)];
    if key != p.key && key in ps {
      assert r[key] == ps[key];
    }
  }

  // ---- The engine --------------------------------------------------------------

  class Engine {
    const bus: MessageBus
    const registry: Registry
    const clock: FrameClock.Clock
    const moduleManager: Modules.ModuleManager
    const systemManager: Systems.SystemManager
    const scenes: Scenes.SceneManager
    /** SystemPriority.NORMAL. */
    const normal: int
    var started: bool
    var providers: Providers

    ghost predicate Valid()
      reads this, systemManager, clock
    {
      && systemManager.Valid() && clock.Valid()
      && systemManager.bus == bus && moduleManager.bus == bus
      && NonEmpty(providers)
    }

    /** The constructor builds its collaborators on one bus and registers
        the scene system statically with LOW priority, once per engine
        built. */
    constructor(registry: Registry, sceneSystem: Systems.SystemDef, low: int, normal: int, targetFPMS: real)
      requires targetFPMS > 0.0
      modifies registry
      ensures Valid() && !started && providers == map[]
      ensures this.registry == registry && this.normal == normal
      ensures fresh(bus) && fresh(clock) && fresh(moduleManager) && fresh(systemManager) && fresh(scenes)
      ensures bus.log == [] && moduleManager.modules == [] && systemManager.systems == []
      ensures !clock.started && clock.ticks == [] && clock.host == []
      ensures registry.modules == old(registry.modules)
      ensures registry.systems == old(registry.systems) + [StaticSystem(sceneSystem, PartialOptions(Some(low), None))]
    {
      var b := new MessageBus();
      bus := b;
      this.registry := registry;
      clock := new FrameClock.Clock(targetFPMS);
      moduleManager := new Modules.ModuleManager(b);
      systemManager := new Systems.SystemManager(b);
      scenes := new Scenes.SceneManager(b);
      this.normal := normal;
      started := false;
      providers := map[];
      new;
      registry.RegisterSystem(sceneSystem, PartialOptions(Some(low), None));
    }

    /** `start(now)`: the first call adds every registered module, then
        every registered system with its effective options, starts the
        clock and publishes Started; later calls do nothing. */
    method Start(now: int)
      requires Valid()
      modifies this`started, moduleManager, systemManager, clock, bus
      ensures Valid() && started
      ensures old(started) ==>
        (bus.log == old(bus.log) && moduleManager.modules == old(moduleManager.modules)
         && systemManager.systems == old(systemManager.systems)
         && clock.started == old(clock.started))
      ensures !old(started) ==>
        (moduleManager.modules == old(moduleManager.modules) + registry.modules
         && systemManager.systems == old(systemManager.systems) + Registrations(registry.systems, normal)
         && bus.log == old(bus.log) + StartEvents(registry.modules, registry.systems)
         && clock.started)
    {
      if started {
        return;
      }
      AddModules();
      AddSystems();
      clock.Start(now);
      started := true;
      bus.Publish(EngineEvent(EngineStarted));
    }

    /** `Engine.modules.forEach((module) => this.moduleManager.add(module))`. */
    method AddModules()
      requires moduleManager.bus == bus
      modifies moduleManager, bus
      ensures moduleManager.modules == old(moduleManager.modules) + registry.modules
      ensures bus.log == old(bus.log) + Modules.AddAllEvents(registry.modules)
    {
      var ms := registry.modules;
      for i := 0 to |ms|
        invariant moduleManager.modules == old(moduleManager.modules) + ms[..i]
        invariant bus.log == old(bus.log) + Modules.AddAllEvents(ms[..i])
      {
        assert ms[..i + 1] == ms[..i] + [ms[i]];
        EachSnoc(Modules.AddEvents, ms[..i], ms[i]);
        AppendAssoc(old(bus.log), Modules.AddAllEvents(ms[..i]), Modules.AddEvents(ms[i]));
        moduleManager.Add(ms[i]);
      }
      assert ms[..|ms|] == ms;
    }

    /** `Engine.systems.forEach(...)`: each system added with
        `{ priority: NORMAL, clockRate: 60, ...options }`. */
    method AddSystems()
      requires systemManager.bus == bus
      modifies systemManager, bus
      ensures systemManager.systems == old(systemManager.systems) + Registrations(registry.systems, normal)
      ensures bus.log == old(bus.log) + SystemAddEvents(registry.systems)
      ensures registry.systems != [] ==> systemManager.sortSystems
      ensures registry.systems == [] ==> systemManager.sortSystems == old(systemManager.sortSystems)
    {
      var ss := registry.systems;
      var visit := (s: StaticSystem) => Systems.AddEvents(s.system);
      for i := 0 to |ss|
        invariant systemManager.systems == old(systemManager.systems) + Registrations(ss[..i], normal)
        invariant bus.log == old(bus.log) + SystemAddEvents(ss[..i])
        invariant i > 0 ==> systemManager.sortSystems
        invariant i == 0 ==> systemManager.sortSystems == old(systemManager.sortSystems)
      {
        assert ss[..i + 1] == ss[..i] + [ss[i]];
        assert ss[..i + 1][..i] == ss[..i];
        EachSnoc(visit, ss[..i], ss[i]);
        AppendAssoc(old(bus.log), SystemAddEvents(ss[..i]), Systems.AddEvents(ss[i].system));
        AppendAssoc(old(systemManager.systems), Registrations(ss[..i], normal),
          [Systems.Registration(ss[i].system, Effective(ss[i].options, normal))]);
        systemManager.Add(ss[i].system, Effective(ss[i].options, normal));
      }
      assert ss[..|ss|] == ss;
    }

    /** `update(delta)`: the system manager's update pass between
        BeforeUpdate and AfterUpdate, then its render pass between
        BeforeRender and AfterRender, both in the same dispatch order. */
    method Update(delta: real)
      requires Valid()
      modifies systemManager, bus
      ensures Valid()
      ensures systemManager.systems == Systems.Arranged(old(systemManager.systems), old(systemManager.sortSystems))
      ensures bus.log == old(bus.log) + TickEvents(systemManager.systems)
    {
      bus.Publish(EngineEvent(EngineBeforeUpdate));
      systemManager.Update(delta);
      bus.Publish(EngineEvent(EngineAfterUpdate));
      bus.Publish(EngineEvent(EngineBeforeRender));
      systemManager.Render();
      bus.Publish(EngineEvent(EngineAfterRender));
    }

    /** `registerProvider`. */
    method RegisterProvider(p: Provider)
      requires Valid()
      modifies this`providers
      ensures Valid() && providers == Registered(old(providers), p)
    {
      RegisteredNonEmpty(providers, p);
      providers := Registered(providers, p);
    }

    /** `resolve`: throws when the key has no provider. */
    function Resolve(key: string): (r: Result<Resolved>)
      reads this
      ensures r.Ok? <==> key in providers && providers[key] != []
      ensures r.Ok? ==> r.value == ProviderValue(providers[key][0])
    {
      ResolveIn(providers, key)
    }

    /** `resolveAll`: throws when the key was never registered. */
    function ResolveAll(key: string): (r: Result<seq<Resolved>>)
      reads this
      ensures r.Ok? <==> key in providers
      ensures r.Ok? ==> |r.value| == |providers[key]|
      ensures r.Ok? ==> forall i :: 0 <= i < |providers[key]| ==> r.value[i] == ProviderValue(providers[key][i])
    {
      ResolveAllIn(providers, key)
    }
  }
}
