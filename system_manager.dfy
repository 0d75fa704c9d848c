/** The subsystem scheduler of src/system/SystemManager.ts: registrations
    are appended, sorted lazily (a dirty flag) by descending priority with
    a stable sort, and dispatched in list order to the systems that define
    the hook. */
module Systems {
  import opened Messaging
  import StableSort

  /** A system, described by its handle and the optional hooks it defines. */
  datatype SystemDef = SystemDef(id: SystemId, hooks: set<SystemHook>)

  datatype SystemOptions = SystemOptions(priority: int, clockRate: int)

  datatype Registration = Registration(system: SystemDef, options: SystemOptions)

  function Priority(r: Registration): int {
    r.options.priority
  }

  /** Priorities never increase along the list. */
  predicate NonIncreasing(s: seq<Registration>) {
    StableSort.NonIncreasing(Priority, s)
  }

  /** `systems.sort((a, b) => b.options.priority - a.options.priority)`:
      `Array.prototype.sort` is stable, so this is the stable descending
      sort by priority. */
  function SortByPriority(s: seq<Registration>): seq<Registration> {
    StableSort.Sort(Priority, s)
  }

  // ---- Dispatch passes ------------------------------------------------------

  /** One system's turn in a dispatch pass: `before`, the hook, `after`,
      or nothing when the system does not define the hook. */
  function Visit(r: Registration, hook: SystemHook, before: SystemTopic, after: SystemTopic): seq<Event>
  {
    if hook in r.system.hooks then
      [SystemEvent(before, r.system.id), SystemCall(hook, r.system.id), SystemEvent(after, r.system.id)]
    else []
  }

  /** The events of a `forEach` dispatch over the list, in list order. */
  function Dispatch(s: seq<Registration>, hook: SystemHook, before: SystemTopic, after: SystemTopic): seq<Event>
  {
    Each((r: Registration) => Visit(r, hook, before, after), s)
  }

  function UpdatePass(s: seq<Registration>): seq<Event> {
    Dispatch(s, SysUpdate, SystemBeforeUpdate, SystemAfterUpdate)
  }

  function RenderPass(s: seq<Registration>): seq<Event> {
    Dispatch(s, SysRender, SystemBeforeRender, SystemAfterRender)
  }

  /** `destroy`'s turn for one system: its hook if it has one, then Destroyed. */
  function DestroyVisit(r: Registration): seq<Event> {
    (if SysDestroy in r.system.hooks then [SystemCall(SysDestroy, r.system.id)] else [])
    + [SystemEvent(SystemDestroyed, r.system.id)]
  }

  function DestroyPass(s: seq<Registration>): seq<Event> {
    Each(DestroyVisit, s)
  }

  /** A system's hook is called by a pass exactly when it is registered and
      defines that hook: systems without it are skipped. */
  lemma {:induction false} DispatchCalls(s: seq<Registration>, hook: SystemHook, before: SystemTopic,
                      after: SystemTopic, id: SystemId)
    ensures SystemCall(hook, id) in Dispatch(s, hook, before, after)
      <==> exists k :: 0 <= k < |s| && s[k].system.id == id && hook in s[k].system.hooks
  {
    var visit := (r: Registration) => Visit(r, hook, before, after);
    EachContains(visit, s, SystemCall(hook, id));
    assert forall k :: 0 <= k < |s| ==>
      (SystemCall(hook, id) in visit(s[k]) <==> s[k].system.id == id && hook in s[k].system.hooks);
  }

  /** Every hook call of a pass sits between that system's `before` and
      `after` events. */
  lemma {:induction false} DispatchBrackets(s: seq<Registration>, hook: SystemHook, before: SystemTopic,
                                            after: SystemTopic, id: SystemId)
    ensures forall i :: (0 <= i < |Dispatch(s, hook, before, after)|
                         && Dispatch(s, hook, before, after)[i] == SystemCall(hook, id)) ==>
        0 < i < |Dispatch(s, hook, before, after)| - 1
        && Dispatch(s, hook, before, after)[i - 1] == SystemEvent(before, id)
        && Dispatch(s, hook, before, after)[i + 1] == SystemEvent(after, id)
  {
    if s != [] {
      var front := s[..|s| - 1];
      var r := s[|s| - 1];
      var d0 := Dispatch(front, hook, before, after);
      DispatchBrackets(front, hook, before, after, id);
      var v := Visit(r, hook, before, after);
      var d := d0 + v;
      assert s == front + [r];
      EachSnoc((r: Registration) => Visit(r, hook, before, after), front, r);
      assert Dispatch(s, hook, before, after) == d;
      forall i | 0 <= i < |d| && d[i] == SystemCall(hook, id)
        ensures 0 < i < |d| - 1 && d[i - 1] == SystemEvent(before, id) && d[i + 1] == SystemEvent(after, id)
      {
        if i < |d0| {
          assert d0[i] == d[i];
          assert d0[i - 1] == d[i - 1] && d0[i + 1] == d[i + 1];
        } else {
          assert v[i - |d0|] == d[i];
          assert v == [SystemEvent(before, r.system.id), SystemCall(hook, r.system.id), SystemEvent(after, r.system.id)];
          assert i - |d0| == 1 && r.system.id == id;
          assert d[i - 1] == v[0] && d[i + 1] == v[2];
        }
      }
    }
  }

  /** `destroy` announces Destroyed for every registered system, hook or
      not, and calls exactly the destroy hooks that exist. */
  lemma {:induction false} DestroyAnnouncesAll(s: seq<Registration>, id: SystemId)
    ensures SystemEvent(SystemDestroyed, id) in DestroyPass(s)
      <==> exists k :: 0 <= k < |s| && s[k].system.id == id
    ensures SystemCall(SysDestroy, id) in DestroyPass(s)
      <==> exists k :: 0 <= k < |s| && s[k].system.id == id && SysDestroy in s[k].system.hooks
  {
    EachContains(DestroyVisit, s, SystemEvent(SystemDestroyed, id));
    EachContains(DestroyVisit, s, SystemCall(SysDestroy, id));
    assert forall k :: 0 <= k < |s| ==>
      (SystemEvent(SystemDestroyed, id) in DestroyVisit(s[k]) <==> s[k].system.id == id);
    assert forall k :: 0 <= k < |s| ==>
      (SystemCall(SysDestroy, id) in DestroyVisit(s[k]) <==> s[k].system.id == id && SysDestroy in s[k].system.hooks);
  }

  /** The order `update` and `render` dispatch in, given the list and the
      dirty flag. */
  function Arranged(s: seq<Registration>, dirty: bool): seq<Registration> {
    if dirty then SortByPriority(s) else s
  }

  /** The events `add` publishes: the init hook if present, then Added. */
  function AddEvents(system: SystemDef): seq<Event> {
    (if SysInit in system.hooks then [SystemCall(SysInit, system.id)] else [])
    + [SystemEvent(SystemAdded, system.id)]
  }

  class SystemManager {
    var systems: seq<Registration>
    var sortSystems: bool
    const bus: MessageBus

    /** A clear dirty flag means the list is already in dispatch order. */
    ghost predicate Valid()
      reads this
    {
      !sortSystems ==> NonIncreasing(systems)
    }

    constructor(bus: MessageBus)
      ensures systems == [] && sortSystems && this.bus == bus
      ensures Valid()
    {
      systems := [];
      sortSystems := true;
      this.bus := bus;
    }

    /** `add`: appended at the end, `init` called once if defined, the flag
        set, Added published after the init call. */
    method Add(system: SystemDef, options: SystemOptions)
      modifies this`systems, this`sortSystems, bus
      ensures systems == old(systems) + [Registration(system, options)] && sortSystems
      ensures bus.log == old(bus.log) + AddEvents(system)
      ensures Valid()
    {
      systems := systems + [Registration(system, options)];
      if SysInit in system.hooks {
        bus.Publish(SystemCall(SysInit, system.id));
      }
      sortSystems := true;
      bus.Publish(SystemEvent(SystemAdded, system.id));
    }

    /** `sortIfNeeded`: sorts only when the flag is set, and clears it. */
    method SortIfNeeded()
      requires Valid()
      modifies this`systems, this`sortSystems
      ensures systems == Arranged(old(systems), old(sortSystems)) && !sortSystems
      ensures multiset(systems) == multiset(old(systems)) && NonIncreasing(systems)
      ensures Valid()
    {
      if sortSystems {
        StableSort.SortSorts(Priority, systems);
        systems := SortByPriority(systems);
        sortSystems := false;
      }
    }

    /** `update(delta)` and `render()`: sort if needed, then one dispatch
        pass in list order. */
    method Update(delta: real)
      requires Valid()
      modifies this`systems, this`sortSystems, bus
      ensures systems == Arranged(old(systems), old(sortSystems)) && !sortSystems
      ensures bus.log == old(bus.log) + UpdatePass(systems)
      ensures Valid()
    {
      SortIfNeeded();
      Run(SysUpdate, SystemBeforeUpdate, SystemAfterUpdate);
    }

    method Render()
      requires Valid()
      modifies this`systems, this`sortSystems, bus
      ensures systems == Arranged(old(systems), old(sortSystems)) && !sortSystems
      ensures bus.log == old(bus.log) + RenderPass(systems)
      ensures Valid()
    {
      SortIfNeeded();
      Run(SysRender, SystemBeforeRender, SystemAfterRender);
    }

    /** The `forEach` loop of `update` and `render`. */
    method Run(hook: SystemHook, before: SystemTopic, after: SystemTopic)
      modifies bus
      ensures bus.log == old(bus.log) + Dispatch(systems, hook, before, after)
    {
      var s := systems;
      for i := 0 to |s|
        invariant bus.log == old(bus.log) + Dispatch(s[..i], hook, before, after)
      {
        assert s[..i + 1] == s[..i] + [s[i]];
        EachSnoc((r: Registration) => Visit(r, hook, before, after), s[..i], s[i]);
        AppendAssoc(old(bus.log), Dispatch(s[..i], hook, before, after), Visit(s[i], hook, before, after));
        RunOne(s[i], hook, before, after);
      }
      assert s[..|s|] == s;
    }

    /** One iteration of the loop: the system's turn of the pass. */
    method RunOne(r: Registration, hook: SystemHook, before: SystemTopic, after: SystemTopic)
      modifies bus
      ensures bus.log == old(bus.log) + Visit(r, hook, before, after)
    {
      if hook in r.system.hooks {
        bus.Publish(SystemEvent(before, r.system.id));
        bus.Publish(SystemCall(hook, r.system.id));
        bus.Publish(SystemEvent(after, r.system.id));
      }
    }

    /** `destroy`: each system in list order calls its hook if present and
        is announced Destroyed; the list ends empty. */
    method Destroy()
      modifies this`systems, bus
      ensures systems == [] && bus.log == old(bus.log) + DestroyPass(old(systems))
      ensures Valid()
    {
      var s := systems;
      for i := 0 to |s|
        invariant bus.log == old(bus.log) + DestroyPass(s[..i])
      {
        assert s[..i + 1] == s[..i] + [s[i]];
        EachSnoc(DestroyVisit, s[..i], s[i]);
        AppendAssoc(old(bus.log), DestroyPass(s[..i]), DestroyVisit(s[i]));
        DestroyOne(s[i]);
      }
      assert s[..|s|] == s;
      systems := [];
    }

    method DestroyOne(r: Registration)
      modifies bus
      ensures bus.log == old(bus.log) + DestroyVisit(r)
    {
      if SysDestroy in r.system.hooks {
        bus.Publish(SystemCall(SysDestroy, r.system.id));
      }
      bus.Publish(SystemEvent(SystemDestroyed, r.system.id));
    }
  }
}
