/** Properties of the scene transitions of src/scene/SceneManager.ts, stated
    over the step functions of module SceneWorld for a valid world. */
module SceneProperties {
  import opened Wrappers
  import opened Messaging
  import opened SceneStates
  import opened SceneWorld
  import ZOrder

  // ---- The deferred queue ---------------------------------------------------

  /** Draining `q1 + q2` drains `q1` first and then `q2` from where `q1`
      left the world: the queue is processed strictly first in, first out. */
  lemma {:induction false} DrainAppend(apply: (World, Op) -> Step, w: World, q1: seq<Op>, q2: seq<Op>)
    ensures var front := Drain(apply, w, q1); var back := Drain(apply, front.world, q2);
      Drain(apply, w, q1 + q2) == Step(back.world, front.events + back.events)
    decreases |q1|
  {
    if q1 == [] {
      assert q1 + q2 == q2;
    } else {
      var first := apply(w, q1[0]);
      assert (q1 + q2)[0] == q1[0];
      assert (q1 + q2)[1..] == q1[1..] + q2;
      DrainAppend(apply, first.world, q1[1..], q2);
      var front := Drain(apply, first.world, q1[1..]);
      var back := Drain(apply, front.world, q2);
      AppendAssoc(first.events, front.events, back.events);
    }
  }

  /** A queue of one op is that op applied. */
  lemma {:induction false} DrainOne(w: World, op: Op)
    ensures DrainStep(w, [op]) == ApplyStep(w, op)
  {
    var first := ApplyStep(w, op);
    assert [op][1..] == [];
    assert Drain(ApplyStep, first.world, []) == Step(first.world, []);
    assert first.events + [] == first.events;
    assert DrainStep(w, [op]) == Step(first.world, first.events);
  }

  /** A queue of three ops is the three applied one after the other. */
  lemma {:induction false} DrainThree(apply: (World, Op) -> Step, w: World, a: Op, b: Op, c: Op)
    ensures var s1 := apply(w, a); var s2 := apply(s1.world, b); var s3 := apply(s2.world, c);
      Drain(apply, w, [a, b, c]) == Step(s3.world, s1.events + s2.events + s3.events)
  {
    var s1 := apply(w, a);
    var s2 := apply(s1.world, b);
    var s3 := apply(s2.world, c);
    assert [a, b, c][1..] == [b, c] && [b, c][1..] == [c] && [c][1..] == [];
    assert Drain(apply, s2.world, [c]) == Step(s3.world, s3.events + []);
    assert s3.events + [] == s3.events;
    AppendAssoc(s1.events, s2.events, s3.events);
  }

  /** `restart` stops and then starts: draining its two ops is a stop
      followed by a start from the stopped world. */
  lemma {:induction false} RestartStopsThenStarts(w: World, name: string, data: Data)
    ensures var stopped := StopStep(w, name); var started := StartStep(stopped.world, name, data);
      DrainStep(w, RestartOps(name, data)) == Step(started.world, stopped.events + started.events)
  {
    var ops := RestartOps(name, data);
    assert ops == [Stop(name)] + [Start(name, data)];
    DrainAppend(ApplyStep, w, [Stop(name)], [Start(name, data)]);
    DrainOne(w, Stop(name));
    DrainOne(StopStep(w, name).world, Start(name, data));
  }

  // ---- Status transitions ---------------------------------------------------

  /** A transition on scene `id` leaves every other scene object as it was. */
  ghost predicate OnlyTouches(w: World, r: World, id: SceneId) {
    r.records.Keys == w.records.Keys && forall x :: x in w.records && x != id ==> r.records[x] == w.records[x]
  }

  /** `_pause` acts exactly on an active scene, which ends Paused. */
  lemma {:induction false} PauseGuard(w: World, name: string)
    requires Valid(w)
    ensures var r := PauseStep(w, name);
      if name in w.lookup && w.records[w.lookup[name]].state.IsActive() then
        var id := w.lookup[name];
        r.world.records[id].state.status == Paused && OnlyTouches(w, r.world, id)
        && r.events == HookCall(w.records[id], OnPause, id) + [SceneEvent(ScenePaused, id)]
      else r == Step(w, [])
  {
  }

  /** `_sleep` acts exactly on an active scene, which ends Sleeping. */
  lemma {:induction false} SleepGuard(w: World, name: string)
    requires Valid(w)
    ensures var r := SleepStep(w, name);
      if name in w.lookup && w.records[w.lookup[name]].state.IsActive() then
        var id := w.lookup[name];
        r.world.records[id].state.status == Sleeping && OnlyTouches(w, r.world, id)
        && r.events == HookCall(w.records[id], OnSleep, id) + [SceneEvent(SceneSleeping, id)]
      else r == Step(w, [])
  {
  }

  /** `_resume` acts exactly on a Paused scene, which ends Running. */
  lemma {:induction false} ResumeGuard(w: World, name: string, data: Data)
    requires Valid(w)
    ensures var r := ResumeStep(w, name, data);
      if name in w.lookup && w.records[w.lookup[name]].state.IsPaused() then
        var id := w.lookup[name];
        r.world.records[id].state.status == Running && OnlyTouches(w, r.world, id)
        && r.events == HookCall(w.records[id], OnResume, id) + [SceneEvent(SceneResumed, id)]
      else r == Step(w, [])
  {
  }

  /** `_wakeup` acts exactly on a Sleeping scene, which ends Running. */
  lemma {:induction false} WakeupGuard(w: World, name: string, data: Data)
    requires Valid(w)
    ensures var r := WakeupStep(w, name, data);
      if name in w.lookup && w.records[w.lookup[name]].state.IsSleeping() then
        var id := w.lookup[name];
        r.world.records[id].state.status == Running && OnlyTouches(w, r.world, id)
        && r.events == HookCall(w.records[id], OnWakeup, id) + [SceneEvent(SceneWoken, id)]
      else r == Step(w, [])
  {
  }

  /** `_stop` sets any registered scene Stopped, whatever its status. */
  lemma {:induction false} StopGuard(w: World, name: string)
    requires Valid(w)
    ensures var r := StopStep(w, name);
      if name in w.lookup then
        var id := w.lookup[name];
        r.world.records[id].state.status == Stopped && OnlyTouches(w, r.world, id)
        && r.events == HookCall(w.records[id], OnStop, id) + [SceneEvent(SceneStopped, id)]
      else r == Step(w, [])
  {
  }

  /** `_shutdown` publishes Stopped before it sets Destroyed and publishes
      Destroyed. */
  lemma {:induction false} ShutdownOrder(w: World, name: string)
    requires Valid(w)
    ensures var r := ShutdownStep(w, name);
      if name in w.lookup then
        var id := w.lookup[name];
        r.world.records[id].state.status == Destroyed && OnlyTouches(w, r.world, id)
        && r.events == HookCall(w.records[id], OnStop, id) + [SceneEvent(SceneStopped, id)]
                       + HookCall(w.records[id], OnDestroy, id) + [SceneEvent(SceneDestroyed, id)]
      else r == Step(w, [])
  {
  }

  /** `_start` does nothing for an absent or an active scene. */
  lemma {:induction false} StartIgnores(w: World, name: string, data: Data)
    requires Valid(w)
    requires name !in w.lookup || w.records[w.lookup[name]].state.IsActive()
    ensures StartStep(w, name, data) == Step(w, [])
  {
  }

  /** `_start` on a Paused scene resumes it. */
  lemma {:induction false} StartResumes(w: World, name: string, data: Data)
    requires Valid(w) && name in w.lookup && w.records[w.lookup[name]].state.IsPaused()
    ensures var id := w.lookup[name]; var r := StartStep(w, name, data);
      r.world.records[id].state.status == Running && r.world.pending == w.pending
      && r.events == HookCall(w.records[id], OnResume, id) + [SceneEvent(SceneResumed, id)]
  {
  }

  /** `_start` on a Sleeping scene wakes it up. */
  lemma {:induction false} StartWakes(w: World, name: string, data: Data)
    requires Valid(w) && name in w.lookup && w.records[w.lookup[name]].state.IsSleeping()
    ensures var id := w.lookup[name]; var r := StartStep(w, name, data);
      r.world.records[id].state.status == Running && r.world.pending == w.pending
      && r.events == HookCall(w.records[id], OnWakeup, id) + [SceneEvent(SceneWoken, id)]
  {
  }

  /** `_start` on any other scene, a Destroyed one included, loads it: the
      scene becomes Loading, Loading is published and its load is pending. */
  lemma {:induction false} StartLoads(w: World, name: string, data: Data)
    requires Valid(w) && name in w.lookup
    requires w.records[w.lookup[name]].state.status in {Pending, Init, Stopped, Destroyed}
    ensures var id := w.lookup[name]; var r := StartStep(w, name, data);
      r.world.records[id].state.status == Loading && OnlyTouches(w, r.world, id)
      && r.world.pending == w.pending + [PendingLoad(id, name, data)]
      && r.events == HookCall(w.records[id], OnLoad, id) + [SceneEvent(SceneLoading, id)]
  {
  }

  /** A resolved load publishes Loaded and, when the name still refers to
      the loading scene and it is still active, creates it: Created is
      published and the scene ends Running. */
  lemma {:induction false} LoadResolvedCreates(w: World, k: nat)
    requires Valid(w) && k < |w.pending|
    requires var p := w.pending[k];
      p.name in w.lookup && w.lookup[p.name] == p.scene && w.records[p.scene].state.IsActive()
    ensures var p := w.pending[k]; var r := LoadResolvedStep(w, k);
      r.world.records[p.scene].state.status == Running && OnlyTouches(w, r.world, p.scene)
      && r.events == [SceneEvent(SceneLoaded, p.scene)] + HookCall(w.records[p.scene], OnCreate, p.scene)
                     + [SceneEvent(SceneCreated, p.scene)]
  {
  }

  /** A resolved load whose scene is no longer active publishes Loaded and
      changes nothing else but the pending list. */
  lemma {:induction false} LoadResolvedLate(w: World, k: nat)
    requires Valid(w) && k < |w.pending|
    requires var p := w.pending[k];
      p.name in w.lookup && w.lookup[p.name] == p.scene && !w.records[p.scene].state.IsActive()
    ensures var r := LoadResolvedStep(w, k);
      r.world == w.(pending := w.pending[..k] + w.pending[k + 1..])
      && r.events == [SceneEvent(SceneLoaded, w.pending[k].scene)]
  {
  }

  /** A rejected load sets the captured scene Stopped and publishes
      LoadFailed. */
  lemma {:induction false} LoadRejectedStops(w: World, k: nat)
    requires Valid(w) && k < |w.pending| && w.pending[k].scene in w.records
    requires OnLoad in w.records[w.pending[k].scene].hooks
    ensures w.pending[k].scene in w.records
    ensures var p := w.pending[k]; var r := LoadRejectedStep(w, k);
      r.world.records[p.scene].state.status == Stopped && OnlyTouches(w, r.world, p.scene)
      && r.events == [SceneEvent(SceneLoadFailed, p.scene)]
  {
  }

  // ---- Registration and removal ---------------------------------------------

  /** `_add` never checks the name: the new scene replaces the lookup entry
      while an earlier scene of that name stays in the list. Without
      `autostart` the new scene is left in Init. */
  lemma {:induction false} AddShadows(w: World, name: string, ctor: SceneClass, data: Data)
    requires Valid(w)
    ensures var id := w.nextId; var r := AddStep(w, name, ctor, false, data);
      r.world.lookup == w.lookup[name := id] && r.world.scenes == w.scenes + [Some(id)]
      && r.world.records[id].state == SceneState(name, Init, false)
      && (name in w.lookup ==> Some(w.lookup[name]) in r.world.scenes)
      && r.events == [SceneEvent(SceneAdded, id), SceneEvent(SceneInit, id)] + HookCall(r.world.records[id], OnInit, id)
  {
  }

  /** Two indices holding the same slot count it twice. */
  lemma {:induction false} TwiceCounted(s: seq<ZOrder.Slot>, i: nat, j: nat)
    requires i < j < |s| && s[i] == s[j]
    ensures multiset(s)[s[i]] >= 2
  {
    assert s == s[..j] + [s[j]] + s[j + 1..];
    assert s[i] in multiset(s[..j]);
  }

  /** After `_remove(name)` the scene is in neither the lookup map nor the
      list, it is Destroyed, the other scenes keep their relative order and
      the other names keep their entries. */
  lemma {:induction false} RemoveGone(w: World, name: string)
    requires Valid(w) && name in w.lookup
    ensures var id := w.lookup[name]; var r := RemoveStep(w, name).world;
      name !in r.lookup && Some(id) !in r.scenes
      && r.records[id].state.status == Destroyed
      && ZOrder.Without(r.scenes, Some(id)) == ZOrder.Without(w.scenes, Some(id))
      && r.lookup == w.lookup - {name}
  {
    var id := w.lookup[name];
    ShutdownOrder(w, name);
    var v := ShutdownStep(w, name).world;
    var rest := ZOrder.SpliceOne(w.scenes, ZOrder.IndexOf(w.scenes, Some(id)));
    assert multiset(w.scenes)[Some(id)] == 1;
    ZOrder.RemoveKeepsOthers(w.scenes, id);
    assert RemoveStep(w, name).world == v.(scenes := rest, lookup := w.lookup - {name});
  }

  // ---- The list ---------------------------------------------------------------

  /** `_moveUp` on the top scene leaves an `undefined` slot under it, so the
      next update visits only that scene and then throws. */
  lemma {:induction false} MoveUpOnTopBreaksUpdate(w: World, name: string)
    requires Valid(w) && name in w.lookup && |w.scenes| > 0
    requires w.scenes[|w.scenes| - 1] == Some(w.lookup[name])
    ensures |MoveUpStep(w, name).scenes| == |w.scenes| + 1 && !NoHoles(MoveUpStep(w, name).scenes)
    ensures Known(MoveUpStep(w, name).scenes, w.records) && MoveUpStep(w, name).records == w.records
    ensures UpdatePass(MoveUpStep(w, name).scenes, w.records)
      == UpdateVisit(w.records[w.lookup[name]], w.lookup[name])
  {
    var id := w.lookup[name];
    var s := w.scenes;
    var i := ZOrder.IndexOf(s, Some(id));
    if i < |s| - 1 {
      TwiceCounted(s, i, |s| - 1);
      assert false;
    }
    ZOrder.MoveUpSwaps(s, id);
    var r := MoveUpStep(w, name).scenes;
    assert r[..|r| - 1][|r| - 2] == None;
    assert Known(r, w.records) by {
      forall k | 0 <= k < |r| && r[k].Some? ensures r[k].value in w.records {
        if k < i {
          assert r[k] == s[k];
        }
      }
    }
    KnownSlice(r, w.records, 0, |r| - 1);
    assert r[..|r| - 1] != [];
  }

  // ---- Traversals -------------------------------------------------------------

  lemma {:induction false} KnownSplit(a: seq<ZOrder.Slot>, b: seq<ZOrder.Slot>, records: map<SceneId, Scene>)
    requires Known(a + b, records)
    ensures Known(a, records) && Known(b, records)
  {
    assert (a + b)[..|a|] == a && (a + b)[|a|..] == b;
    KnownSlice(a + b, records, 0, |a|);
    KnownSlice(a + b, records, |a|, |a + b|);
  }

  lemma {:induction false} NoHolesSlice(s: seq<ZOrder.Slot>, i: nat, j: nat)
    requires NoHoles(s) && i <= j <= |s|
    ensures NoHoles(s[i..j])
  {
    forall k | 0 <= k < j - i ensures s[i..j][k].Some? {
      assert s[i..j][k] == s[i + k];
    }
  }

  /** The update traversal runs from the top down: everything above a cut is
      visited before everything below it. */
  lemma {:induction false} UpdatePassAppend(a: seq<ZOrder.Slot>, b: seq<ZOrder.Slot>, records: map<SceneId, Scene>)
    requires Known(a + b, records) && NoHoles(b)
    ensures Known(a, records) && Known(b, records)
    ensures UpdatePass(a + b, records) == UpdatePass(b, records) + UpdatePass(a, records)
    decreases |b|
  {
    KnownSplit(a, b, records);
    if b == [] {
      assert a + b == a;
    } else {
      var c := a + b;
      var b' := b[..|b| - 1];
      assert c[..|c| - 1] == a + b';
      UpdatePassPop(c, records);
      UpdatePassPop(b, records);
      NoHolesSlice(b, 0, |b| - 1);
      UpdatePassAppend(a, b', records);
      var id := b[|b| - 1].value;
      AppendAssoc(UpdateVisit(records[id], id), UpdatePass(b', records), UpdatePass(a, records));
    }
  }

  /** One step of the update traversal on a list whose top slot holds a scene. */
  lemma {:induction false} UpdatePassPop(c: seq<ZOrder.Slot>, records: map<SceneId, Scene>)
    requires Known(c, records) && c != [] && c[|c| - 1].Some?
    ensures Known(c[..|c| - 1], records)
    ensures UpdatePass(c, records) == UpdateVisit(records[c[|c| - 1].value], c[|c| - 1].value) + UpdatePass(c[..|c| - 1], records)
  {
    KnownSlice(c, records, 0, |c| - 1);
  }

  /** The render traversal runs from the bottom up: everything below a cut
      is visited before everything above it. */
  lemma {:induction false} RenderPassAppend(a: seq<ZOrder.Slot>, b: seq<ZOrder.Slot>, records: map<SceneId, Scene>)
    requires Known(a + b, records) && NoHoles(a)
    ensures Known(a, records) && Known(b, records)
    ensures RenderPass(a + b, records) == RenderPass(a, records) + RenderPass(b, records)
    decreases |a|
  {
    KnownSplit(a, b, records);
    if a == [] {
      assert a + b == b;
    } else {
      var c := a + b;
      assert c[0] == a[0];
      assert c[1..] == a[1..] + b;
      NoHolesTail(a);
      KnownSlice(c, records, 1, |c|);
      RenderPassAppend(a[1..], b, records);
      var id := a[0].value;
      AppendAssoc(RenderVisit(records[id], id), RenderPass(a[1..], records), RenderPass(b, records));
    }
  }

  /** On a list without holes, the update traversal calls a scene's `update`
      exactly when the scene is listed, should update and defines the hook. */
  lemma {:induction false} UpdateCalls(s: seq<ZOrder.Slot>, records: map<SceneId, Scene>, id: SceneId)
    requires Known(s, records) && NoHoles(s)
    ensures SceneCall(OnUpdate, id) in UpdatePass(s, records) <==>
      Some(id) in s && id in records && records[id].state.ShouldUpdate() && OnUpdate in records[id].hooks
    decreases |s|
  {
    if s != [] {
      var x := s[|s| - 1].value;
      var t := s[..|s| - 1];
      assert s == t + [Some(x)];
      assert NoHoles(t) by {
        forall k | 0 <= k < |t| ensures t[k].Some? {
          assert t[k] == s[k];
        }
      }
      KnownSlice(s, records, 0, |s| - 1);
      UpdateCalls(t, records, id);
      assert Some(id) in s <==> Some(id) in t || x == id;
    }
  }

  /** On a list without holes, the render traversal calls a scene's `render`
      exactly when the scene is listed, should render and defines the hook. */
  lemma {:induction false} RenderCalls(s: seq<ZOrder.Slot>, records: map<SceneId, Scene>, id: SceneId)
    requires Known(s, records) && NoHoles(s)
    ensures SceneCall(OnRender, id) in RenderPass(s, records) <==>
      Some(id) in s && id in records && records[id].state.ShouldRender() && OnRender in records[id].hooks
    decreases |s|
  {
    if s != [] {
      var x := s[0].value;
      assert s == [Some(x)] + s[1..];
      NoHolesTail(s);
      KnownSlice(s, records, 1, |s|);
      RenderCalls(s[1..], records, id);
      assert Some(id) in s <==> Some(id) in s[1..] || x == id;
    }
  }

  /** A Paused scene is never rendered, though it stays visible. */
  lemma {:induction false} PausedNotRendered(s: seq<ZOrder.Slot>, records: map<SceneId, Scene>, id: SceneId)
    requires Known(s, records) && NoHoles(s) && id in records
    requires records[id].state == records[id].state.WithStatus(Paused)
    ensures records[id].state.visible
    ensures SceneCall(OnRender, id) !in RenderPass(s, records)
  {
    RenderCalls(s, records, id);
  }
}
