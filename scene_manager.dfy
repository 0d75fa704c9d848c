/** `SceneManager` of src/scene/SceneManager.ts: the public mutators only
    enqueue deferred operations; `update` drains the queue in FIFO order and
    then updates the scenes from the top down; `render` renders them from
    the bottom up. Each private transition is proved to perform the step
    that module SceneWorld defines for it. */
module Scenes {
  import opened Wrappers
  import opened Messaging
  import opened SceneStates
  import opened SceneWorld
  import ZOrder

  class SceneManager {
    var queue: seq<Op>
    var lookup: map<string, SceneId>
    var scenes: seq<ZOrder.Slot>
    var records: map<SceneId, Scene>
    var pending: seq<PendingLoad>
    var nextId: SceneId
    const bus: MessageBus

    /** Every op taken off the queue, in the order it was applied. */
    ghost var applied: seq<Op>

    function Model(): World
      reads this
    {
      World(lookup, scenes, records, pending, nextId)
    }

    ghost predicate Valid()
      reads this
    {
      SceneWorld.Valid(Model())
    }

    constructor (bus: MessageBus)
      ensures Valid() && Model() == Empty && queue == [] && applied == [] && this.bus == bus
    {
      queue, lookup, scenes, records, pending, nextId := [], map[], [], map[], [], 0;
      applied := [];
      this.bus := bus;
    }

    /** `getScene(name)`: the scene registered under `name`, if any. */
    function GetScene(name: string): (r: Option<Scene>)
      requires Valid()
      reads this
      ensures r.Some? <==> name in lookup
      ensures r.Some? ==> r.value.state.key == name
    {
      if name in lookup then Some(records[lookup[name]]) else None
    }

    method EnqueueOp(op: Op)
      modifies this`queue
      ensures queue == old(queue) + [op]
    {
      queue := queue + [op];
    }

    method Add(name: string, ctor: SceneClass, autostart: bool, data: Data)
      modifies this`queue
      ensures queue == old(queue) + [Op.Add(name, ctor, autostart, data)]
    {
      EnqueueOp(Op.Add(name, ctor, autostart, data));
    }

    method Remove(name: string)
      modifies this`queue
      ensures queue == old(queue) + [Op.Remove(name)]
    {
      EnqueueOp(Op.Remove(name));
    }

    method Start(name: string, data: Data)
      modifies this`queue
      ensures queue == old(queue) + [Op.Start(name, data)]
    {
      EnqueueOp(Op.Start(name, data));
    }

    /** `restart`: a stop and then a start, as two separate ops. */
    method Restart(name: string, data: Data)
      modifies this`queue
      ensures queue == old(queue) + RestartOps(name, data)
    {
      Stop(name);
      Start(name, data);
    }

    method Pause(name: string)
      modifies this`queue
      ensures queue == old(queue) + [Op.Pause(name)]
    {
      EnqueueOp(Op.Pause(name));
    }

    method Sleep(name: string)
      modifies this`queue
      ensures queue == old(queue) + [Op.Sleep(name)]
    {
      EnqueueOp(Op.Sleep(name));
    }

    method Stop(name: string)
      modifies this`queue
      ensures queue == old(queue) + [Op.Stop(name)]
    {
      EnqueueOp(Op.Stop(name));
    }

    method Shutdown(name: string)
      modifies this`queue
      ensures queue == old(queue) + [Op.Shutdown(name)]
    {
      EnqueueOp(Op.Shutdown(name));
    }

    method BringToTop(name: string)
      modifies this`queue
      ensures queue == old(queue) + [Op.BringToTop(name)]
    {
      EnqueueOp(Op.BringToTop(name));
    }

    method SendToBack(name: string)
      modifies this`queue
      ensures queue == old(queue) + [Op.SendToBack(name)]
    {
      EnqueueOp(Op.SendToBack(name));
    }

    method MoveUp(name: string)
      modifies this`queue
      ensures queue == old(queue) + [Op.MoveUp(name)]
    {
      EnqueueOp(Op.MoveUp(name));
    }

    method MoveDown(name: string)
      modifies this`queue
      ensures queue == old(queue) + [Op.MoveDown(name)]
    {
      EnqueueOp(Op.MoveDown(name));
    }

    method MoveAbove(subject: string, target: string)
      modifies this`queue
      ensures queue == old(queue) + [Op.MoveAbove(subject, target)]
    {
      EnqueueOp(Op.MoveAbove(subject, target));
    }

    method MoveBelow(subject: string, target: string)
      modifies this`queue
      ensures queue == old(queue) + [Op.MoveBelow(subject, target)]
    {
      EnqueueOp(Op.MoveBelow(subject, target));
    }

    method Swap(subject: string, target: string)
      modifies this`queue
      ensures queue == old(queue) + [Op.Swap(subject, target)]
    {
      EnqueueOp(Op.Swap(subject, target));
    }

    /** `scene.state.status = s`. */
    method SetStatusOf(id: SceneId, s: SceneStatus)
      requires id in records
      modifies this`records
      ensures Model() == SetStatus(old(Model()), id, s)
    {
      records := records[id := records[id].(state := records[id].state.WithStatus(s))];
    }

    /** `scene.hook?.()`. */
    method InvokeHook(id: SceneId, h: SceneHook)
      requires id in records
      modifies bus
      ensures bus.log == old(bus.log) + HookCall(records[id], h, id)
    {
      if h in records[id].hooks {
        bus.Publish(SceneCall(h, id));
      }
    }

    method DoStop(name: string)
      modifies this`records, bus
      ensures Model() == StopStep(old(Model()), name).world && bus.log == old(bus.log) + StopStep(old(Model()), name).events
    {
      var found := Find(Model(), name);
      if found.Some? {
        var id := found.value;
        SetStatusOf(id, Stopped);
        InvokeHook(id, OnStop);
        bus.Publish(SceneEvent(SceneStopped, id));
      }
    }

    method DoShutdown(name: string)
      modifies this`records, bus
      ensures Model() == ShutdownStep(old(Model()), name).world && bus.log == old(bus.log) + ShutdownStep(old(Model()), name).events
    {
      var found := Find(Model(), name);
      if found.Some? {
        var id := found.value;
        DoStop(name);
        SetStatusOf(id, Destroyed);
        InvokeHook(id, OnDestroy);
        bus.Publish(SceneEvent(SceneDestroyed, id));
      }
    }

    method DoRemove(name: string)
      modifies this`records, this`scenes, this`lookup, bus
      ensures Model() == RemoveStep(old(Model()), name).world && bus.log == old(bus.log) + RemoveStep(old(Model()), name).events
    {
      var found := Find(Model(), name);
      if found.Some? {
        var id := found.value;
        DoShutdown(name);
        var index := ZOrder.IndexOf(scenes, Some(id));
        scenes := ZOrder.SpliceOne(scenes, index);
        lookup := lookup - {name};
        bus.Publish(SceneEvent(SceneRemoved, id));
      }
    }

    method DoResume(name: string, data: Data)
      modifies this`records, bus
      ensures Model() == ResumeStep(old(Model()), name, data).world && bus.log == old(bus.log) + ResumeStep(old(Model()), name, data).events
    {
      var found := Find(Model(), name);
      if found.Some? && records[found.value].state.IsPaused() {
        var id := found.value;
        InvokeHook(id, OnResume);
        SetStatusOf(id, Running);
        bus.Publish(SceneEvent(SceneResumed, id));
      }
    }

    method DoWakeup(name: string, data: Data)
      modifies this`records, bus
      ensures Model() == WakeupStep(old(Model()), name, data).world && bus.log == old(bus.log) + WakeupStep(old(Model()), name, data).events
    {
      var found := Find(Model(), name);
      if found.Some? && records[found.value].state.IsSleeping() {
        var id := found.value;
        InvokeHook(id, OnWakeup);
        SetStatusOf(id, Running);
        bus.Publish(SceneEvent(SceneWoken, id));
      }
    }

    method DoPause(name: string)
      modifies this`records, bus
      ensures Model() == PauseStep(old(Model()), name).world && bus.log == old(bus.log) + PauseStep(old(Model()), name).events
    {
      var found := Find(Model(), name);
      if found.Some? && records[found.value].state.IsActive() {
        var id := found.value;
        SetStatusOf(id, Paused);
        InvokeHook(id, OnPause);
        bus.Publish(SceneEvent(ScenePaused, id));
      }
    }

    method DoSleep(name: string)
      modifies this`records, bus
      ensures Model() == SleepStep(old(Model()), name).world && bus.log == old(bus.log) + SleepStep(old(Model()), name).events
    {
      var found := Find(Model(), name);
      if found.Some? && records[found.value].state.IsActive() {
        var id := found.value;
        SetStatusOf(id, Sleeping);
        InvokeHook(id, OnSleep);
        bus.Publish(SceneEvent(SceneSleeping, id));
      }
    }

    method DoStart(name: string, data: Data)
      modifies this`records, this`pending, bus
      ensures Model() == StartStep(old(Model()), name, data).world && bus.log == old(bus.log) + StartStep(old(Model()), name, data).events
    {
      var found := Find(Model(), name);
      if found.Some? {
        var id := found.value;
        var state := records[id].state;
        if state.IsActive() {
          return;
        }
        if state.IsPaused() {
          DoResume(name, data);
          return;
        }
        if state.IsSleeping() {
          DoWakeup(name, data);
          return;
        }
        SetStatusOf(id, Loading);
        InvokeHook(id, OnLoad);
        bus.Publish(SceneEvent(SceneLoading, id));
        pending := pending + [PendingLoad(id, name, data)];
      }
    }

    method DoCreate(name: string, data: Data)
      modifies this`records, bus
      ensures Model() == CreateStep(old(Model()), name, data).world && bus.log == old(bus.log) + CreateStep(old(Model()), name, data).events
    {
      var found := Find(Model(), name);
      if found.Some? && records[found.value].state.IsActive() {
        var id := found.value;
        SetStatusOf(id, Creating);
        InvokeHook(id, OnCreate);
        bus.Publish(SceneEvent(SceneCreated, id));
        SetStatusOf(id, Running);
      }
    }

    method DoAdd(name: string, ctor: SceneClass, autostart: bool, data: Data)
      modifies this`records, this`scenes, this`lookup, this`pending, this`nextId, bus
      ensures Model() == AddStep(old(Model()), name, ctor, autostart, data).world
      ensures bus.log == old(bus.log) + AddStep(old(Model()), name, ctor, autostart, data).events
    {
      ghost var w0 := Model();
      var id := DoRegister(name, ctor);
      ghost var log0 := bus.log;
      bus.Publish(SceneEvent(SceneAdded, id));
      SetStatusOf(id, Init);
      bus.Publish(SceneEvent(SceneInit, id));
      ghost var log1 := bus.log;
      InvokeHook(id, OnInit);
      ghost var init := SetStatus(Register(w0, name, ctor), id, Init);
      ghost var said := [SceneEvent(SceneAdded, id), SceneEvent(SceneInit, id)];
      ghost var events := said + HookCall(init.records[id], OnInit, id);
      assert Model() == init;
      assert log1 == log0 + said;
      AppendAssoc(log0, said, HookCall(init.records[id], OnInit, id));
      if autostart {
        DoStart(name, data);
        AppendAssoc(log0, events, StartStep(init, name, data).events);
      }
    }

    /** The first half of `_add`: a fresh scene object registered by name
        and pushed on top. */
    method DoRegister(name: string, ctor: SceneClass) returns (id: SceneId)
      modifies this`records, this`scenes, this`lookup, this`nextId
      ensures id == old(nextId) && Model() == Register(old(Model()), name, ctor)
    {
      id := nextId;
      nextId := nextId + 1;
      records := records[id := Scene(ctor.hooks, Initial(name))];
      lookup := lookup[name := id];
      scenes := scenes + [Some(id)];
    }

    method DoReorder(op: Op)
      requires op.BringToTop? || op.SendToBack? || op.MoveUp? || op.MoveDown?
            || op.MoveAbove? || op.MoveBelow? || op.Swap?
      modifies this`scenes
      ensures Model() == ApplyStep(old(Model()), op).world
      ensures ApplyStep(old(Model()), op).events == []
    {
      var w := Model();
      match op {
        case BringToTop(name) => scenes := BringToTopStep(w, name).scenes;
        case SendToBack(name) => scenes := SendToBackStep(w, name).scenes;
        case MoveUp(name) => scenes := MoveUpStep(w, name).scenes;
        case MoveDown(name) => scenes := MoveDownStep(w, name).scenes;
        case MoveAbove(subject, target) => scenes := MoveAboveStep(w, subject, target).scenes;
        case MoveBelow(subject, target) => scenes := MoveBelowStep(w, subject, target).scenes;
        case Swap(subject, target) => scenes := SwapStep(w, subject, target).scenes;
      }
    }

    /** `op.fn.apply(this, op.args)`. */
    method ApplyOp(op: Op)
      modifies this`records, this`scenes, this`lookup, this`pending, this`nextId, bus
      ensures Model() == ApplyStep(old(Model()), op).world && bus.log == old(bus.log) + ApplyStep(old(Model()), op).events
    {
      match op {
        case Add(name, ctor, autostart, data) => DoAdd(name, ctor, autostart, data);
        case Remove(name) => DoRemove(name);
        case Start(name, data) => DoStart(name, data);
        case Pause(name) => DoPause(name);
        case Sleep(name) => DoSleep(name);
        case Stop(name) => DoStop(name);
        case Shutdown(name) => DoShutdown(name);
        case _ => DoReorder(op);
      }
    }

    /** `_processQueue`: takes ops off the front until the queue is empty. */
    method ProcessQueue()
      requires Valid()
      modifies this, bus
      ensures Valid() && queue == [] && applied == old(applied) + old(queue)
      ensures Model() == DrainStep(old(Model()), old(queue)).world
      ensures bus.log == old(bus.log) + DrainStep(old(Model()), old(queue)).events
    {
      DrainQueue();
      DrainValid(old(Model()), old(queue));
    }

    /** The loop of `_processQueue`. */
    method DrainQueue()
      modifies this, bus
      ensures queue == [] && applied == old(applied) + old(queue)
      ensures Model() == DrainStep(old(Model()), old(queue)).world
      ensures bus.log == old(bus.log) + DrainStep(old(Model()), old(queue)).events
    {
      ghost var k := 0;
      assert old(queue)[..0] == [] && old(queue)[0..] == old(queue);
      while |queue| > 0
        invariant 0 <= k <= |old(queue)| && queue == old(queue)[k..]
        invariant applied == old(applied) + old(queue)[..k]
        invariant Model() == DrainStep(old(Model()), old(queue)[..k]).world
        invariant bus.log == old(bus.log) + DrainStep(old(Model()), old(queue)[..k]).events
        decreases |queue|
      {
        assert old(queue)[..k + 1] == old(queue)[..k] + [queue[0]];
        AppendAssoc(old(applied), old(queue)[..k], [queue[0]]);
        ProcessFirst(old(Model()), old(bus.log), old(queue)[..k]);
        k := k + 1;
      }
      assert old(queue)[..k] == old(queue);
    }

    /** One turn of `_processQueue`: the first op is taken off the queue and
        applied; `done`, the ops applied so far from world `w0` and log
        `log0`, grows by that op. */
    method ProcessFirst(ghost w0: World, ghost log0: seq<Event>, ghost done: seq<Op>)
      requires |queue| > 0
      requires Model() == DrainStep(w0, done).world && bus.log == log0 + DrainStep(w0, done).events
      modifies this`queue, this`applied, this`records, this`scenes, this`lookup, this`pending, this`nextId, bus
      ensures queue == old(queue)[1..] && applied == old(applied) + [old(queue)[0]]
      ensures Model() == DrainStep(w0, done + [old(queue)[0]]).world
      ensures bus.log == log0 + DrainStep(w0, done + [old(queue)[0]]).events
    {
      var op := queue[0];
      DrainSnoc(ApplyStep, w0, done, op);
      ghost var front := DrainStep(w0, done);
      queue := queue[1..];
      applied := applied + [op];
      ApplyOp(op);
      AppendAssoc(log0, front.events, ApplyStep(front.world, op).events);
    }

    /** A promise settled by resolving: Loaded, then `_create`. */
    method LoadResolved(k: nat)
      requires Valid() && k < |pending|
      modifies this`records, this`pending, bus
      ensures Valid()
      ensures Model() == LoadResolvedStep(old(Model()), k).world && bus.log == old(bus.log) + LoadResolvedStep(old(Model()), k).events
    {
      LoadResolvedValid(Model(), k);
      var p := pending[k];
      pending := pending[..k] + pending[k + 1..];
      bus.Publish(SceneEvent(SceneLoaded, p.scene));
      DoCreate(p.name, p.data);
    }

    /** A promise settled by rejecting: the scene is Stopped, LoadFailed. */
    method LoadRejected(k: nat)
      requires Valid() && k < |pending| && pending[k].scene in records
      requires OnLoad in records[pending[k].scene].hooks
      modifies this`records, this`pending, bus
      ensures Valid()
      ensures Model() == LoadRejectedStep(old(Model()), k).world && bus.log == old(bus.log) + LoadRejectedStep(old(Model()), k).events
    {
      LoadRejectedValid(Model(), k);
      var p := pending[k];
      pending := pending[..k] + pending[k + 1..];
      SetStatusOf(p.scene, Stopped);
      bus.Publish(SceneEvent(SceneLoadFailed, p.scene));
    }

    /** `scene.update(delta)` bracketed by Before/AfterUpdate, for a scene
        that should update. */
    method VisitUpdate(sc: Scene, id: SceneId)
      modifies bus
      ensures bus.log == old(bus.log) + UpdateVisit(sc, id)
    {
      if sc.state.ShouldUpdate() {
        bus.Publish(SceneEvent(SceneBeforeUpdate, id));
        if OnUpdate in sc.hooks {
          bus.Publish(SceneCall(OnUpdate, id));
        }
        bus.Publish(SceneEvent(SceneAfterUpdate, id));
      }
    }

    /** `scene.render()` bracketed by Before/AfterRender, for a visible
        active scene. */
    method VisitRender(sc: Scene, id: SceneId)
      modifies bus
      ensures bus.log == old(bus.log) + RenderVisit(sc, id)
    {
      if sc.state.ShouldRender() {
        bus.Publish(SceneEvent(SceneBeforeRender, id));
        if OnRender in sc.hooks {
          bus.Publish(SceneCall(OnRender, id));
        }
        bus.Publish(SceneEvent(SceneAfterRender, id));
      }
    }

    /** `update(delta)`: the whole queue is applied first; then the scenes
        are visited from the last index down to 0. `ok` is false when an
        `undefined` slot made the traversal throw. */
    method Update(delta: real) returns (ok: bool)
      requires Valid()
      modifies this, bus
      ensures Valid() && queue == [] && applied == old(applied) + old(queue)
      ensures Model() == DrainStep(old(Model()), old(queue)).world
      ensures bus.log == old(bus.log) + DrainStep(old(Model()), old(queue)).events + UpdatePass(scenes, records)
      ensures ok == NoHoles(scenes)
    {
      ProcessQueue();
      ok := TraverseUpdate(scenes, records);
    }

    /** `render()`: the scenes are visited from index 0 up. */
    method Render() returns (ok: bool)
      requires Valid()
      modifies bus
      ensures bus.log == old(bus.log) + RenderPass(scenes, records)
      ensures ok == NoHoles(scenes)
    {
      ok := TraverseRender(scenes, records);
    }

    /** The loop of `update`: from the top of the list down to index 0;
        false when an `undefined` slot threw. */
    method TraverseUpdate(s: seq<ZOrder.Slot>, recs: map<SceneId, Scene>) returns (ok: bool)
      requires Known(s, recs)
      modifies bus
      ensures bus.log == old(bus.log) + UpdatePass(s, recs)
      ensures ok == NoHoles(s)
    {
      var i := |s|;
      assert s[..i] == s;
      while i > 0
        invariant 0 <= i <= |s|
        invariant NoHoles(s[i..])
        invariant Known(s[..i], recs)
        invariant bus.log + UpdatePass(s[..i], recs) == old(bus.log) + UpdatePass(s, recs)
      {
        var hole := UpdateAt(s[..i], recs);
        if hole {
          assert bus.log + [] == bus.log;
          assert s[i - 1] == s[..i][i - 1];
          return false;
        }
        assert s[..i][..i - 1] == s[..i - 1];
        assert s[i - 1..][0] == s[..i][i - 1] && s[i - 1..][1..] == s[i..];
        NoHolesTail(s[i - 1..]);
        i := i - 1;
      }
      assert s[0..] == s;
      return true;
    }

    /** One turn of the `update` loop, at the last slot of `s`: true when
        that slot is `undefined` and the traversal throws. */
    method UpdateAt(s: seq<ZOrder.Slot>, recs: map<SceneId, Scene>) returns (hole: bool)
      requires Known(s, recs) && s != []
      modifies bus
      ensures hole == s[|s| - 1].None?
      ensures hole ==> bus.log == old(bus.log) && UpdatePass(s, recs) == []
      ensures !hole ==> (Known(s[..|s| - 1], recs)
        && bus.log + UpdatePass(s[..|s| - 1], recs) == old(bus.log) + UpdatePass(s, recs))
    {
      UpdatePassAt(s, recs, |s|);
      assert s[..|s|] == s;
      match s[|s| - 1] {
        case None =>
          return true;
        case Some(id) =>
          VisitUpdate(recs[id], id);
          AppendAssoc(old(bus.log), UpdateVisit(recs[id], id), UpdatePass(s[..|s| - 1], recs));
          return false;
      }
    }

    /** The loop of `render`: from index 0 up to the top; false when an
        `undefined` slot threw. */
    method TraverseRender(s: seq<ZOrder.Slot>, recs: map<SceneId, Scene>) returns (ok: bool)
      requires Known(s, recs)
      modifies bus
      ensures bus.log == old(bus.log) + RenderPass(s, recs)
      ensures ok == NoHoles(s)
    {
      var i := 0;
      assert s[i..] == s;
      while i < |s|
        invariant 0 <= i <= |s|
        invariant forall k :: 0 <= k < i ==> s[k].Some?
        invariant Known(s[i..], recs)
        invariant bus.log + RenderPass(s[i..], recs) == old(bus.log) + RenderPass(s, recs)
      {
        var hole := RenderAt(s[i..], recs);
        if hole {
          assert bus.log + [] == bus.log;
          return false;
        }
        assert s[i..][1..] == s[i + 1..];
        i := i + 1;
      }
      return true;
    }

    /** One turn of the `render` loop, at the first slot of `s`. */
    method RenderAt(s: seq<ZOrder.Slot>, recs: map<SceneId, Scene>) returns (hole: bool)
      requires Known(s, recs) && s != []
      modifies bus
      ensures hole == s[0].None?
      ensures hole ==> bus.log == old(bus.log) && RenderPass(s, recs) == []
      ensures !hole ==> (Known(s[1..], recs)
        && bus.log + RenderPass(s[1..], recs) == old(bus.log) + RenderPass(s, recs))
    {
      RenderPassAt(s, recs, 0);
      assert s[0..] == s;
      match s[0] {
        case None =>
          return true;
        case Some(id) =>
          VisitRender(recs[id], id);
          AppendAssoc(old(bus.log), RenderVisit(recs[id], id), RenderPass(s[1..], recs));
          return false;
      }
    }

    /** `destroy()`: every listed scene is shut down by its name; then the
        list, the lookup map and the queue are emptied. An `undefined`
        slot throws before the emptying. */
    method Destroy() returns (ok: bool)
      requires Valid()
      modifies this, bus
      ensures Valid() && applied == old(applied)
      ensures Model() == DestroyStep(old(Model())).0.world && ok == DestroyStep(old(Model())).1
      ensures bus.log == old(bus.log) + DestroyStep(old(Model())).0.events
      ensures queue == if ok then [] else old(queue)
    {
      DestroyValid(Model());
      ok := ShutdownAll();
      if ok {
        scenes := [];
        lookup := map[];
        queue := [];
      }
    }

    /** The walk of `destroy()`: each listed scene, from index 0 up, is shut
        down by the name its state carries. */
    method ShutdownAll() returns (ok: bool)
      requires Known(scenes, records)
      modifies this`records, bus
      ensures Model() == ShutdownWalk(old(Model()), scenes).0.world && ok == ShutdownWalk(old(Model()), scenes).1
      ensures bus.log == old(bus.log) + ShutdownWalk(old(Model()), scenes).0.events
    {
      var i := 0;
      assert scenes[0..] == scenes;
      while i < |scenes|
        invariant 0 <= i <= |scenes| && records.Keys == old(records).Keys
        invariant Known(scenes, records) && Known(scenes[i..], records)
        invariant ShutdownWalk(Model(), scenes[i..]).0.world == ShutdownWalk(old(Model()), scenes).0.world
        invariant ShutdownWalk(Model(), scenes[i..]).1 == ShutdownWalk(old(Model()), scenes).1
        invariant bus.log + ShutdownWalk(Model(), scenes[i..]).0.events == old(bus.log) + ShutdownWalk(old(Model()), scenes).0.events
      {
        match scenes[i] {
          case None =>
            return false;
          case Some(id) =>
            ShutdownWalkAt(Model(), scenes, i);
            ghost var log0 := bus.log;
            ghost var down := ShutdownStep(Model(), records[id].state.key);
            DoShutdown(records[id].state.key);
            AppendAssoc(log0, down.events, ShutdownWalk(Model(), scenes[i + 1..]).0.events);
        }
        i := i + 1;
      }
      return true;
    }
  }
}
