/** The scene orchestration of src/scene/SceneManager.ts as transitions on
    a value: `World` holds the manager's lookup map, z-ordered scene list,
    the scene objects and the scene loads still in flight. Each private
    `_start`, `_pause`, ... of the source is a function from a world to a
    `Step`: the next world and the events published (with hook
    invocations as "called" markers) in publication order. */
module SceneWorld {
  import opened Wrappers
  import opened Messaging
  import opened SceneStates
  import ZOrder

  /** The opaque `data` payload handed to hooks; `{}` is the default. */
  type Data = string
  const DefaultData: Data := ""

  /** A scene constructor, described by the optional hooks it defines. */
  datatype SceneClass = SceneClass(hooks: set<SceneHook>)

  /** A scene object: the hooks it defines and its `SceneState`. */
  datatype Scene = Scene(hooks: set<SceneHook>, state: SceneState)

  /** A deferred operation: one variant per private `_add` ... `_swap`,
      with the arguments the public method captured. */
  datatype Op =
    | Add(name: string, ctor: SceneClass, autostart: bool, data: Data)
    | Remove(name: string)
    | Start(name: string, data: Data)
    | Pause(name: string)
    | Sleep(name: string)
    | Stop(name: string)
    | Shutdown(name: string)
    | BringToTop(name: string)
    | SendToBack(name: string)
    | MoveUp(name: string)
    | MoveDown(name: string)
    | MoveAbove(subject: string, target: string)
    | MoveBelow(subject: string, target: string)
    | Swap(subject: string, target: string)

  /** The ops `restart(name, data)` enqueues: a stop, then a start. */
  function RestartOps(name: string, data: Data): (ops: seq<Op>)
    ensures |ops| == 2 && ops[0] == Stop(name) && ops[1] == Start(name, data)
  {
    [Stop(name), Start(name, data)]
  }

  /** A `load()` promise not yet settled: the scene it was started for
      (captured by the closures) and the name and data it was started with. */
  datatype PendingLoad = PendingLoad(scene: SceneId, name: string, data: Data)

  datatype World = World(
    lookup: map<string, SceneId>,
    scenes: seq<ZOrder.Slot>,
    records: map<SceneId, Scene>,
    pending: seq<PendingLoad>,
    nextId: SceneId)

  datatype Step = Step(world: World, events: seq<Event>)

  const Empty := World(map[], [], map[], [], 0)

  /** Every slot that holds a scene refers to a known scene object. */
  ghost predicate Known(s: seq<ZOrder.Slot>, records: map<SceneId, Scene>) {
    forall k :: 0 <= k < |s| && s[k].Some? ==> s[k].value in records
  }

  /** The invariant the manager keeps: a scene occurs at most once in the
      list, the lookup map names listed scenes under their own keys, and
      handles come from a counter. */
  ghost predicate Valid(w: World) {
    && (forall x :: multiset(w.scenes)[Some(x)] <= 1)
    && Known(w.scenes, w.records)
    && (forall n :: n in w.lookup ==>
          w.lookup[n] in w.records && Some(w.lookup[n]) in w.scenes
          && w.records[w.lookup[n]].state.key == n)
    && (forall k :: 0 <= k < |w.pending| ==> w.pending[k].scene in w.records)
    && (forall x :: x in w.records ==> x < w.nextId)
  }

  lemma {:induction false} EmptyValid()
    ensures Valid(Empty)
  {
  }

  /** `scene.hook?.()`: a marker when the scene defines the hook. */
  function HookCall(sc: Scene, h: SceneHook, id: SceneId): (e: seq<Event>)
    ensures e == if h in sc.hooks then [SceneCall(h, id)] else []
  {
    if h in sc.hooks then [SceneCall(h, id)] else []
  }

  /** `scene.state.status = s`. */
  function SetStatus(w: World, id: SceneId, s: SceneStatus): (r: World)
    requires id in w.records
    ensures r.records.Keys == w.records.Keys
    ensures r.records[id] == w.records[id].(state := w.records[id].state.WithStatus(s))
    ensures r.lookup == w.lookup && r.scenes == w.scenes && r.pending == w.pending && r.nextId == w.nextId
  {
    w.(records := w.records[id := w.records[id].(state := w.records[id].state.WithStatus(s))])
  }

  /** `lookup.get(name)`, yielding only handles of known scene objects
      (which every handle in the lookup map is, by `Valid`). */
  function Find(w: World, name: string): (r: Option<SceneId>)
    ensures r.Some? ==> name in w.lookup && r.value == w.lookup[name] && r.value in w.records
    ensures r.None? ==> name !in w.lookup || w.lookup[name] !in w.records
  {
    if name in w.lookup && w.lookup[name] in w.records then Some(w.lookup[name]) else None
  }

  /** In a valid world a name is found exactly when it is registered, and
      the scene found carries that name as its key. */
  lemma {:induction false} FindUnderValid(w: World, name: string)
    requires Valid(w)
    ensures Find(w, name).Some? <==> name in w.lookup
    ensures Find(w, name).Some? ==> w.records[Find(w, name).value].state.key == name
  {
  }

  /** `_stop`: any registered scene becomes Stopped. */
  function StopStep(w: World, name: string): (r: Step)
    ensures r.world.records.Keys == w.records.Keys
    ensures r.world.lookup == w.lookup && r.world.scenes == w.scenes
    ensures r.world.pending == w.pending && r.world.nextId == w.nextId
  {
    match Find(w, name)
    case None => Step(w, [])
    case Some(id) =>
      Step(SetStatus(w, id, Stopped), HookCall(w.records[id], OnStop, id) + [SceneEvent(SceneStopped, id)])
  }

  /** `_shutdown`: a registered scene is stopped, then Destroyed. */
  function ShutdownStep(w: World, name: string): (r: Step)
    ensures r.world.records.Keys == w.records.Keys
    ensures r.world.lookup == w.lookup && r.world.scenes == w.scenes
    ensures r.world.pending == w.pending && r.world.nextId == w.nextId
  {
    match Find(w, name)
    case None => Step(w, [])
    case Some(id) =>
      var stopped := StopStep(w, name);
      Step(SetStatus(stopped.world, id, Destroyed),
           stopped.events + HookCall(w.records[id], OnDestroy, id) + [SceneEvent(SceneDestroyed, id)])
  }

  /** `_remove`: a registered scene is shut down, then spliced out of the
      list at the index `indexOf` reports and deleted from the lookup map. */
  function RemoveStep(w: World, name: string): (r: Step)
    ensures r.world.records.Keys == w.records.Keys
    ensures r.world.pending == w.pending && r.world.nextId == w.nextId
  {
    match Find(w, name)
    case None => Step(w, [])
    case Some(id) =>
      var down := ShutdownStep(w, name);
      var v := down.world;
      var scenes := ZOrder.SpliceOne(v.scenes, ZOrder.IndexOf(v.scenes, Some(id)));
      Step(v.(scenes := scenes, lookup := v.lookup - {name}), down.events + [SceneEvent(SceneRemoved, id)])
  }

  /** `_resume`: only a Paused scene resumes, becoming Running. */
  function ResumeStep(w: World, name: string, data: Data): (r: Step)
    ensures r.world.records.Keys == w.records.Keys
    ensures r.world.lookup == w.lookup && r.world.scenes == w.scenes
    ensures r.world.pending == w.pending && r.world.nextId == w.nextId
  {
    match Find(w, name)
    case None => Step(w, [])
    case Some(id) =>
      if w.records[id].state.IsPaused() then
        Step(SetStatus(w, id, Running), HookCall(w.records[id], OnResume, id) + [SceneEvent(SceneResumed, id)])
      else Step(w, [])
  }

  /** `_wakeup`: only a Sleeping scene wakes up, becoming Running. */
  function WakeupStep(w: World, name: string, data: Data): (r: Step)
    ensures r.world.records.Keys == w.records.Keys
    ensures r.world.lookup == w.lookup && r.world.scenes == w.scenes
    ensures r.world.pending == w.pending && r.world.nextId == w.nextId
  {
    match Find(w, name)
    case None => Step(w, [])
    case Some(id) =>
      if w.records[id].state.IsSleeping() then
        Step(SetStatus(w, id, Running), HookCall(w.records[id], OnWakeup, id) + [SceneEvent(SceneWoken, id)])
      else Step(w, [])
  }

  /** `_pause`: only an active scene pauses. */
  function PauseStep(w: World, name: string): (r: Step)
    ensures r.world.records.Keys == w.records.Keys
    ensures r.world.lookup == w.lookup && r.world.scenes == w.scenes
    ensures r.world.pending == w.pending && r.world.nextId == w.nextId
  {
    match Find(w, name)
    case None => Step(w, [])
    case Some(id) =>
      if w.records[id].state.IsActive() then
        Step(SetStatus(w, id, Paused), HookCall(w.records[id], OnPause, id) + [SceneEvent(ScenePaused, id)])
      else Step(w, [])
  }

  /** `_sleep`: only an active scene goes to sleep. */
  function SleepStep(w: World, name: string): (r: Step)
    ensures r.world.records.Keys == w.records.Keys
    ensures r.world.lookup == w.lookup && r.world.scenes == w.scenes
    ensures r.world.pending == w.pending && r.world.nextId == w.nextId
  {
    match Find(w, name)
    case None => Step(w, [])
    case Some(id) =>
      if w.records[id].state.IsActive() then
        Step(SetStatus(w, id, Sleeping), HookCall(w.records[id], OnSleep, id) + [SceneEvent(SceneSleeping, id)])
      else Step(w, [])
  }

  /** `_start`: nothing for an absent or active scene; a Paused scene is
      resumed and a Sleeping one woken; any other scene (Init, Stopped, and
      also Destroyed and Pending) becomes Loading, its `load` hook runs and
      the load promise is recorded as pending. */
  function StartStep(w: World, name: string, data: Data): (r: Step)
    ensures r.world.records.Keys == w.records.Keys
    ensures r.world.lookup == w.lookup && r.world.scenes == w.scenes && r.world.nextId == w.nextId
  {
    match Find(w, name)
    case None => Step(w, [])
    case Some(id) =>
      var st := w.records[id].state;
      if st.IsActive() then Step(w, [])
      else if st.IsPaused() then ResumeStep(w, name, data)
      else if st.IsSleeping() then WakeupStep(w, name, data)
      else
        var loading := SetStatus(w, id, Loading);
        Step(loading.(pending := loading.pending + [PendingLoad(id, name, data)]),
             HookCall(w.records[id], OnLoad, id) + [SceneEvent(SceneLoading, id)])
  }

  /** `_create`: a scene still active becomes Creating, runs its `create`
      hook, publishes Created and ends Running. */
  function CreateStep(w: World, name: string, data: Data): (r: Step)
    ensures r.world.records.Keys == w.records.Keys
    ensures r.world.lookup == w.lookup && r.world.scenes == w.scenes
    ensures r.world.pending == w.pending && r.world.nextId == w.nextId
  {
    match Find(w, name)
    case None => Step(w, [])
    case Some(id) =>
      if w.records[id].state.IsActive() then
        var creating := SetStatus(w, id, Creating);
        Step(SetStatus(creating, id, Running), HookCall(w.records[id], OnCreate, id) + [SceneEvent(SceneCreated, id)])
      else Step(w, [])
  }

  /** The first half of `_add`: the new scene object gets the next handle,
      is registered under `name` (replacing any earlier entry of that name,
      never checked) and pushed on top. */
  function Register(w: World, name: string, ctor: SceneClass): (r: World)
    ensures r.records.Keys == w.records.Keys + {w.nextId} && r.nextId == w.nextId + 1
    ensures r.lookup.Keys == w.lookup.Keys + {name} && r.lookup[name] == w.nextId
    ensures r.scenes == w.scenes + [Some(w.nextId)] && r.pending == w.pending
  {
    w.(lookup := w.lookup[name := w.nextId], scenes := w.scenes + [Some(w.nextId)],
       records := w.records[w.nextId := Scene(ctor.hooks, Initial(name))], nextId := w.nextId + 1)
  }

  /** `_add`: the scene is registered, Added is published, it becomes Init,
      Init is published, its `init` hook runs and, with `autostart`, it is
      started at once. */
  function AddStep(w: World, name: string, ctor: SceneClass, autostart: bool, data: Data): (r: Step)
    ensures r.world.records.Keys == w.records.Keys + {w.nextId} && r.world.nextId == w.nextId + 1
    ensures r.world.scenes == w.scenes + [Some(w.nextId)]
  {
    var id := w.nextId;
    var init := SetStatus(Register(w, name, ctor), id, Init);
    var events := [SceneEvent(SceneAdded, id), SceneEvent(SceneInit, id)] + HookCall(init.records[id], OnInit, id);
    if autostart then
      var started := StartStep(init, name, data);
      Step(started.world, events + started.events)
    else Step(init, events)
  }

  /** The list operations act through the lookup map, do nothing when a
      named scene is absent, and change nothing but the list. */
  function BringToTopStep(w: World, name: string): (r: World)
    ensures name !in w.lookup ==> r == w
    ensures r == w.(scenes := r.scenes)
  {
    match Find(w, name)
    case None => w
    case Some(id) => w.(scenes := ZOrder.BringToTop(w.scenes, id))
  }

  function SendToBackStep(w: World, name: string): (r: World)
    ensures name !in w.lookup ==> r == w
    ensures r == w.(scenes := r.scenes)
  {
    match Find(w, name)
    case None => w
    case Some(id) => w.(scenes := ZOrder.SendToBack(w.scenes, id))
  }

  function MoveUpStep(w: World, name: string): (r: World)
    ensures name !in w.lookup ==> r == w
    ensures r == w.(scenes := r.scenes)
  {
    match Find(w, name)
    case None => w
    case Some(id) => w.(scenes := ZOrder.MoveUp(w.scenes, id))
  }

  function MoveDownStep(w: World, name: string): (r: World)
    ensures name !in w.lookup ==> r == w
    ensures r == w.(scenes := r.scenes)
  {
    match Find(w, name)
    case None => w
    case Some(id) => w.(scenes := ZOrder.MoveDown(w.scenes, id))
  }

  function MoveAboveStep(w: World, subject: string, target: string): (r: World)
    ensures subject !in w.lookup || target !in w.lookup ==> r == w
    ensures r == w.(scenes := r.scenes)
  {
    match (Find(w, target), Find(w, subject))
    case (Some(t), Some(s)) => w.(scenes := ZOrder.MoveAbove(w.scenes, s, t))
    case _ => w
  }

  function MoveBelowStep(w: World, subject: string, target: string): (r: World)
    ensures subject !in w.lookup || target !in w.lookup ==> r == w
    ensures r == w.(scenes := r.scenes)
  {
    match (Find(w, target), Find(w, subject))
    case (Some(t), Some(s)) => w.(scenes := ZOrder.MoveBelow(w.scenes, s, t))
    case _ => w
  }

  function SwapStep(w: World, subject: string, target: string): (r: World)
    ensures subject !in w.lookup || target !in w.lookup ==> r == w
    ensures r == w.(scenes := r.scenes)
  {
    match (Find(w, subject), Find(w, target))
    case (Some(s), Some(t)) => w.(scenes := ZOrder.Swap(w.scenes, s, t))
    case _ => w
  }

  /** One deferred operation applied (`op.fn.apply(this, op.args)`). */
  function ApplyStep(w: World, op: Op): (r: Step)
  {
    match op
    case Add(name, ctor, autostart, data) => AddStep(w, name, ctor, autostart, data)
    case Remove(name) => RemoveStep(w, name)
    case Start(name, data) => StartStep(w, name, data)
    case Pause(name) => PauseStep(w, name)
    case Sleep(name) => SleepStep(w, name)
    case Stop(name) => StopStep(w, name)
    case Shutdown(name) => ShutdownStep(w, name)
    case BringToTop(name) => Step(BringToTopStep(w, name), [])
    case SendToBack(name) => Step(SendToBackStep(w, name), [])
    case MoveUp(name) => Step(MoveUpStep(w, name), [])
    case MoveDown(name) => Step(MoveDownStep(w, name), [])
    case MoveAbove(subject, target) => Step(MoveAboveStep(w, subject, target), [])
    case MoveBelow(subject, target) => Step(MoveBelowStep(w, subject, target), [])
    case Swap(subject, target) => Step(SwapStep(w, subject, target), [])
  }

  /** The ops of a queue applied in FIFO order by `apply`. */
  function Drain(apply: (World, Op) -> Step, w: World, q: seq<Op>): (r: Step)
    decreases |q|
  {
    if q == [] then Step(w, [])
    else
      var first := apply(w, q[0]);
      var rest := Drain(apply, first.world, q[1..]);
      Step(rest.world, first.events + rest.events)
  }

  /** `_processQueue` on a world: the ops applied in FIFO order. */
  function DrainStep(w: World, q: seq<Op>): (r: Step)
  {
    Drain(ApplyStep, w, q)
  }

  /** Draining a queue and then one more op is draining the longer queue. */
  lemma {:induction false} DrainSnoc(apply: (World, Op) -> Step, w: World, q: seq<Op>, op: Op)
    ensures var front := Drain(apply, w, q); var last := apply(front.world, op);
      Drain(apply, w, q + [op]) == Step(last.world, front.events + last.events)
    decreases |q|
  {
    if q == [] {
      assert [op][1..] == [];
    } else {
      var first := apply(w, q[0]);
      var inner := Drain(apply, first.world, q[1..]);
      var last := apply(inner.world, op);
      assert (q + [op])[0] == q[0];
      assert (q + [op])[1..] == q[1..] + [op];
      DrainSnoc(apply, first.world, q[1..], op);
      assert first.events + (inner.events + last.events) == first.events + inner.events + last.events;
    }
  }

  /** The promise of pending load `k` resolves: Loaded is published for the
      captured scene, then `_create` runs for the captured name. */
  function LoadResolvedStep(w: World, k: nat): (r: Step)
    requires k < |w.pending|
    ensures r.world.records.Keys == w.records.Keys
    ensures r.world.pending == w.pending[..k] + w.pending[k + 1..]
    ensures r.world.lookup == w.lookup && r.world.scenes == w.scenes && r.world.nextId == w.nextId
  {
    var p := w.pending[k];
    var settled := w.(pending := w.pending[..k] + w.pending[k + 1..]);
    var created := CreateStep(settled, p.name, p.data);
    Step(created.world, [SceneEvent(SceneLoaded, p.scene)] + created.events)
  }

  /** The promise of pending load `k` rejects: the captured scene is set
      Stopped and LoadFailed is published. Only a scene with a `load` hook
      can reject; without one the promise is `Promise.resolve()`. */
  function LoadRejectedStep(w: World, k: nat): (r: Step)
    requires k < |w.pending| && w.pending[k].scene in w.records
    requires OnLoad in w.records[w.pending[k].scene].hooks
    ensures r.world.records.Keys == w.records.Keys
    ensures r.world.pending == w.pending[..k] + w.pending[k + 1..]
    ensures r.world.lookup == w.lookup && r.world.scenes == w.scenes && r.world.nextId == w.nextId
  {
    var p := w.pending[k];
    var settled := w.(pending := w.pending[..k] + w.pending[k + 1..]);
    Step(SetStatus(settled, p.scene, Stopped), [SceneEvent(SceneLoadFailed, p.scene)])
  }

  /** No slot of the list is `undefined`. */
  predicate NoHoles(s: seq<ZOrder.Slot>) {
    forall i :: 0 <= i < |s| ==> s[i].Some?
  }

  function UpdateVisit(sc: Scene, id: SceneId): seq<Event> {
    if sc.state.ShouldUpdate() then
      [SceneEvent(SceneBeforeUpdate, id)] + HookCall(sc, OnUpdate, id) + [SceneEvent(SceneAfterUpdate, id)]
    else []
  }

  function RenderVisit(sc: Scene, id: SceneId): seq<Event> {
    if sc.state.ShouldRender() then
      [SceneEvent(SceneBeforeRender, id)] + HookCall(sc, OnRender, id) + [SceneEvent(SceneAfterRender, id)]
    else []
  }

  lemma {:induction false} KnownSlice(s: seq<ZOrder.Slot>, records: map<SceneId, Scene>, i: nat, j: nat)
    requires Known(s, records) && i <= j <= |s|
    ensures Known(s[i..j], records)
  {
    forall k | 0 <= k < j - i && s[i..j][k].Some? ensures s[i..j][k].value in records {
      assert s[i..j][k] == s[i + k];
    }
  }

  /** The events of the update traversal, from the last index down to 0;
      an `undefined` slot makes `scene.state` throw, ending the traversal. */
  function UpdatePass(s: seq<ZOrder.Slot>, records: map<SceneId, Scene>): seq<Event>
    requires Known(s, records)
  {
    if s == [] then []
    else match s[|s| - 1]
      case None => []
      case Some(id) =>
        KnownSlice(s, records, 0, |s| - 1);
        UpdateVisit(records[id], id) + UpdatePass(s[..|s| - 1], records)
  }

  /** The events of the render traversal, from index 0 up. */
  function RenderPass(s: seq<ZOrder.Slot>, records: map<SceneId, Scene>): seq<Event>
    requires Known(s, records)
  {
    if s == [] then []
    else match s[0]
      case None => []
      case Some(id) =>
        KnownSlice(s, records, 1, |s|);
        RenderVisit(records[id], id) + RenderPass(s[1..], records)
  }

  /** One step of the update traversal, taken at index `i - 1`. */
  lemma {:induction false} UpdatePassAt(s: seq<ZOrder.Slot>, records: map<SceneId, Scene>, i: nat)
    requires Known(s, records) && 0 < i <= |s|
    ensures Known(s[..i], records) && Known(s[..i - 1], records)
    ensures UpdatePass(s[..i], records) ==
      match s[i - 1]
      case None => []
      case Some(id) => UpdateVisit(records[id], id) + UpdatePass(s[..i - 1], records)
  {
    KnownSlice(s, records, 0, i);
    KnownSlice(s, records, 0, i - 1);
    assert s[..i][..i - 1] == s[..i - 1];
  }

  /** One step of the render traversal, taken at index `i`. */
  lemma {:induction false} RenderPassAt(s: seq<ZOrder.Slot>, records: map<SceneId, Scene>, i: nat)
    requires Known(s, records) && i < |s|
    ensures Known(s[i..], records) && Known(s[i + 1..], records)
    ensures RenderPass(s[i..], records) ==
      match s[i]
      case None => []
      case Some(id) => RenderVisit(records[id], id) + RenderPass(s[i + 1..], records)
  {
    KnownSlice(s, records, i, |s|);
    KnownSlice(s, records, i + 1, |s|);
    assert s[i..][1..] == s[i + 1..];
  }

  lemma {:induction false} NoHolesTail(s: seq<ZOrder.Slot>)
    requires s != [] && s[0].Some?
    ensures NoHoles(s) <==> NoHoles(s[1..])
  {
    assert forall i :: 0 < i < |s| ==> s[i] == s[1..][i - 1];
  }

  /** `destroy()` walks the list shutting each scene down BY NAME; an
      `undefined` slot throws. Returns the step and whether it completed. */
  function ShutdownWalk(w: World, s: seq<ZOrder.Slot>): (r: (Step, bool))
    requires Known(s, w.records)
    ensures r.0.world.records.Keys == w.records.Keys
    ensures r.0.world.lookup == w.lookup && r.0.world.scenes == w.scenes
    ensures r.0.world.pending == w.pending && r.0.world.nextId == w.nextId
    ensures r.1 == NoHoles(s)
    decreases |s|
  {
    if s == [] then (Step(w, []), true)
    else match s[0]
      case None => (Step(w, []), false)
      case Some(id) =>
        var down := ShutdownStep(w, w.records[id].state.key);
        KnownSlice(s, w.records, 1, |s|);
        var rest := ShutdownWalk(down.world, s[1..]);
        NoHolesTail(s);
        (Step(rest.0.world, down.events + rest.0.events), rest.1)
  }

  /** One step of the walk, taken at index `i` of the list. */
  lemma {:induction false} ShutdownWalkAt(w: World, s: seq<ZOrder.Slot>, i: nat)
    requires Known(s, w.records) && i < |s| && s[i].Some?
    ensures Known(s[i..], w.records) && s[i].value in w.records
    ensures var down := ShutdownStep(w, w.records[s[i].value].state.key);
      Known(s[i + 1..], down.world.records) &&
      var rest := ShutdownWalk(down.world, s[i + 1..]);
      ShutdownWalk(w, s[i..]) == (Step(rest.0.world, down.events + rest.0.events), rest.1)
  {
    KnownSlice(s, w.records, i, |s|);
    KnownSlice(s, w.records, i + 1, |s|);
    assert s[i..][1..] == s[i + 1..];
  }

  /** `destroy()`: when the walk completes, the list and the lookup map
      (and, in the manager, the queue) are emptied; when it throws they
      stay. */
  function DestroyStep(w: World): (r: (Step, bool))
    requires Known(w.scenes, w.records)
    ensures r.1 == NoHoles(w.scenes)
    ensures r.1 ==> r.0.world.scenes == [] && r.0.world.lookup == map[]
    ensures !r.1 ==> r.0.world.scenes == w.scenes && r.0.world.lookup == w.lookup
    ensures r.0.world.records.Keys == w.records.Keys && r.0.world.nextId == w.nextId
  {
    var walk := ShutdownWalk(w, w.scenes);
    if walk.1 then (Step(walk.0.world.(scenes := [], lookup := map[]), walk.0.events), true)
    else walk
  }

  // ---- The invariant is kept by every step --------------------------------

  lemma {:induction false} SetStatusValid(w: World, id: SceneId, s: SceneStatus)
    requires Valid(w) && id in w.records
    ensures Valid(SetStatus(w, id, s))
  {
    var r := SetStatus(w, id, s);
    forall n | n in r.lookup ensures r.records[r.lookup[n]].state.key == n {
      assert r.lookup[n] == id || r.records[r.lookup[n]] == w.records[r.lookup[n]];
    }
  }

  /** Replacing the list by a rearrangement of itself keeps `Valid`. */
  lemma {:induction false} RearrangedValid(w: World, scenes: seq<ZOrder.Slot>)
    requires Valid(w)
    requires forall x :: multiset(scenes)[Some(x)] == multiset(w.scenes)[Some(x)]
    ensures Valid(w.(scenes := scenes))
  {
    forall x | Some(x) in scenes ensures x in w.records {
      assert multiset(scenes)[Some(x)] > 0;
    }
    forall n | n in w.lookup ensures Some(w.lookup[n]) in scenes {
      assert multiset(w.scenes)[Some(w.lookup[n])] > 0;
    }
  }

  lemma {:induction false} StopValid(w: World, name: string)
    requires Valid(w)
    ensures Valid(StopStep(w, name).world)
  {
    if Find(w, name).Some? {
      SetStatusValid(w, Find(w, name).value, Stopped);
    }
  }

  lemma {:induction false} ShutdownValid(w: World, name: string)
    requires Valid(w)
    ensures Valid(ShutdownStep(w, name).world)
  {
    if Find(w, name).Some? {
      StopValid(w, name);
      SetStatusValid(StopStep(w, name).world, Find(w, name).value, Destroyed);
    }
  }

  lemma {:induction false} RemoveValid(w: World, name: string)
    requires Valid(w)
    ensures Valid(RemoveStep(w, name).world)
  {
    match Find(w, name)
    case None =>
    case Some(id) =>
      ShutdownValid(w, name);
      var v := ShutdownStep(w, name).world;
      SpliceValid(v, name);
  }

  /** Splicing a registered scene out of the list and dropping its name
      from the lookup map keeps `Valid`. */
  lemma {:induction false} SpliceValid(v: World, name: string)
    requires Valid(v) && name in v.lookup
    ensures Valid(v.(scenes := ZOrder.SpliceOne(v.scenes, ZOrder.IndexOf(v.scenes, Some(v.lookup[name]))),
                     lookup := v.lookup - {name}))
  {
    var id := v.lookup[name];
    var scenes := ZOrder.SpliceOne(v.scenes, ZOrder.IndexOf(v.scenes, Some(id)));
    SpliceCounts(v.scenes, id);
    var r := v.(scenes := scenes, lookup := v.lookup - {name});
    SpliceLookup(v, name, scenes);
    assert Known(scenes, r.records);
  }

  /** Splicing out the first slot of `id` removes exactly one copy of it. */
  lemma {:induction false} SpliceCounts(s: seq<ZOrder.Slot>, id: SceneId)
    requires Some(id) in s
    ensures forall x :: (multiset(ZOrder.SpliceOne(s, ZOrder.IndexOf(s, Some(id))))[Some(x)]
      == if x == id then multiset(s)[Some(x)] - 1 else multiset(s)[Some(x)])
    ensures forall x :: Some(x) in ZOrder.SpliceOne(s, ZOrder.IndexOf(s, Some(id))) ==> Some(x) in s
  {
    var scenes := ZOrder.SpliceOne(s, ZOrder.IndexOf(s, Some(id)));
    ZOrder.RemoveAtCount(s, ZOrder.IndexOf(s, Some(id)));
    assert multiset(scenes) == multiset(s) - multiset{Some(id)};
  }

  lemma {:induction false} SpliceLookup(v: World, name: string, scenes: seq<ZOrder.Slot>)
    requires Valid(v) && name in v.lookup
    requires forall x :: x != v.lookup[name] ==> multiset(scenes)[Some(x)] == multiset(v.scenes)[Some(x)]
    ensures forall n :: n in v.lookup - {name} ==> Some(v.lookup[n]) in scenes
  {
    forall n | n in v.lookup - {name} ensures Some(v.lookup[n]) in scenes {
      assert v.lookup[n] != v.lookup[name];
      assert multiset(scenes)[Some(v.lookup[n])] == multiset(v.scenes)[Some(v.lookup[n])];
    }
  }

  lemma {:induction false} StartValid(w: World, name: string, data: Data)
    requires Valid(w)
    ensures Valid(StartStep(w, name, data).world)
  {
    if Find(w, name).Some? {
      var id := Find(w, name).value;
      SetStatusValid(w, id, Loading);
      SetStatusValid(w, id, Running);
    }
  }

  lemma {:induction false} CreateValid(w: World, name: string, data: Data)
    requires Valid(w)
    ensures Valid(CreateStep(w, name, data).world)
  {
    if Find(w, name).Some? {
      var id := Find(w, name).value;
      SetStatusValid(w, id, Creating);
      SetStatusValid(SetStatus(w, id, Creating), id, Running);
    }
  }

  lemma {:induction false} AddValid(w: World, name: string, ctor: SceneClass, autostart: bool, data: Data)
    requires Valid(w)
    ensures Valid(AddStep(w, name, ctor, autostart, data).world)
  {
    var id := w.nextId;
    var added := Register(w, name, ctor);
    RegisterValid(w, name, ctor);
    SetStatusValid(added, id, Init);
    StartValid(SetStatus(added, id, Init), name, data);
  }

  /** A fresh handle, appended to the list and entered in the lookup map
      under `name`, keeps `Valid`. */
  lemma {:induction false} RegisterValid(w: World, name: string, ctor: SceneClass)
    requires Valid(w)
    ensures Valid(Register(w, name, ctor))
  {
    RegisterListed(w, name, ctor);
    RegisterLookup(w, name, ctor);
  }

  /** The fresh handle joins the list once, and every slot stays known. */
  lemma {:induction false} RegisterListed(w: World, name: string, ctor: SceneClass)
    requires Valid(w)
    ensures var r := Register(w, name, ctor);
      (forall x :: multiset(r.scenes)[Some(x)] <= 1) && Known(r.scenes, r.records)
  {
    var id := w.nextId;
    var r := Register(w, name, ctor);
    assert Some(id) !in w.scenes;
    assert multiset(r.scenes) == multiset(w.scenes) + multiset{Some(id)};
    forall k | 0 <= k < |r.scenes| && r.scenes[k].Some? ensures r.scenes[k].value in r.records {
      if k < |w.scenes| {
        assert r.scenes[k] == w.scenes[k];
      }
    }
  }

  /** Every name, `name` included, still leads to a listed scene of its own key. */
  lemma {:induction false} RegisterLookup(w: World, name: string, ctor: SceneClass)
    requires Valid(w)
    ensures var r := Register(w, name, ctor);
      forall n :: n in r.lookup ==>
        r.lookup[n] in r.records && Some(r.lookup[n]) in r.scenes
        && r.records[r.lookup[n]].state.key == n
  {
    var r := Register(w, name, ctor);
    forall n | n in r.lookup
      ensures r.lookup[n] in r.records && Some(r.lookup[n]) in r.scenes
      ensures r.records[r.lookup[n]].state.key == n
    {
      if n != name {
        assert Some(w.lookup[n]) in w.scenes;
      } else {
        assert r.scenes[|w.scenes|] == Some(w.nextId);
      }
    }
  }

  lemma {:induction false} PauseValid(w: World, name: string)
    requires Valid(w)
    ensures Valid(PauseStep(w, name).world)
  {
    if Find(w, name).Some? {
      SetStatusValid(w, Find(w, name).value, Paused);
    }
  }

  lemma {:induction false} SleepValid(w: World, name: string)
    requires Valid(w)
    ensures Valid(SleepStep(w, name).world)
  {
    if Find(w, name).Some? {
      SetStatusValid(w, Find(w, name).value, Sleeping);
    }
  }

  /** The list operations only rearrange the list. */
  lemma {:induction false} ReorderValid(w: World, op: Op)
    requires Valid(w)
    requires op.BringToTop? || op.SendToBack? || op.MoveUp? || op.MoveDown?
      || op.MoveAbove? || op.MoveBelow? || op.Swap?
    ensures Valid(ApplyStep(w, op).world)
  {
    var r := ApplyStep(w, op).world;
    ReorderCounts(w, op);
    assert r == w.(scenes := r.scenes);
    RearrangedValid(w, r.scenes);
  }

  /** Every list operation keeps the count of every scene in the list (a
      `moveUp` on the top scene adds only an `undefined` slot). */
  lemma {:induction false} ReorderCounts(w: World, op: Op)
    requires op.BringToTop? || op.SendToBack? || op.MoveUp? || op.MoveDown?
      || op.MoveAbove? || op.MoveBelow? || op.Swap?
    ensures forall x :: multiset(ApplyStep(w, op).world.scenes)[Some(x)] == multiset(w.scenes)[Some(x)]
  {
    if op.MoveAbove? || op.MoveBelow? || op.Swap? {
      PairReorderCounts(w, op);
    } else {
      SingleReorderCounts(w, op);
    }
  }

  /** The one-scene list operations keep every listing count. */
  lemma {:induction false} SingleReorderCounts(w: World, op: Op)
    requires op.BringToTop? || op.SendToBack? || op.MoveUp? || op.MoveDown?
    ensures forall x :: multiset(ApplyStep(w, op).world.scenes)[Some(x)] == multiset(w.scenes)[Some(x)]
  {
    match op
    case BringToTop(name) =>
      if Find(w, name).Some? { ZOrder.BringToTopCount(w.scenes, Find(w, name).value); }
    case SendToBack(name) =>
      if Find(w, name).Some? { ZOrder.SendToBackCount(w.scenes, Find(w, name).value); }
    case MoveUp(name) =>
      if Find(w, name).Some? { ZOrder.MoveUpCount(w.scenes, Find(w, name).value); }
    case MoveDown(name) =>
      if Find(w, name).Some? { ZOrder.MoveDownCount(w.scenes, Find(w, name).value); }
  }

  /** The two-scene list operations keep every listing count. */
  lemma {:induction false} PairReorderCounts(w: World, op: Op)
    requires op.MoveAbove? || op.MoveBelow? || op.Swap?
    ensures forall x :: multiset(ApplyStep(w, op).world.scenes)[Some(x)] == multiset(w.scenes)[Some(x)]
  {
    match op
    case MoveAbove(subject, target) =>
      if Find(w, subject).Some? && Find(w, target).Some? {
        ZOrder.MoveAboveCount(w.scenes, Find(w, subject).value, Find(w, target).value);
      }
    case MoveBelow(subject, target) =>
      if Find(w, subject).Some? && Find(w, target).Some? {
        ZOrder.MoveBelowCount(w.scenes, Find(w, subject).value, Find(w, target).value);
      }
    case Swap(subject, target) =>
      if Find(w, subject).Some? && Find(w, target).Some? {
        ZOrder.SwapCount(w.scenes, Find(w, subject).value, Find(w, target).value);
      }
  }

  lemma {:induction false} ApplyValid(w: World, op: Op)
    requires Valid(w)
    ensures Valid(ApplyStep(w, op).world)
  {
    match op
    case Add(name, ctor, autostart, data) => AddValid(w, name, ctor, autostart, data);
    case Remove(name) => RemoveValid(w, name);
    case Start(name, data) => StartValid(w, name, data);
    case Pause(name) => PauseValid(w, name);
    case Sleep(name) => SleepValid(w, name);
    case Stop(name) => StopValid(w, name);
    case Shutdown(name) => ShutdownValid(w, name);
    case _ => ReorderValid(w, op);
  }

  lemma {:induction false} DrainValid(w: World, q: seq<Op>)
    requires Valid(w)
    ensures Valid(Drain(ApplyStep, w, q).world)
    decreases |q|
  {
    if q != [] {
      ApplyValid(w, q[0]);
      DrainValid(ApplyStep(w, q[0]).world, q[1..]);
    }
  }

  lemma {:induction false} LoadResolvedValid(w: World, k: nat)
    requires Valid(w) && k < |w.pending|
    ensures Valid(LoadResolvedStep(w, k).world)
  {
    var settled := w.(pending := w.pending[..k] + w.pending[k + 1..]);
    assert Valid(settled) by {
      forall j | 0 <= j < |settled.pending| ensures settled.pending[j].scene in settled.records {
        assert settled.pending[j] == if j < k then w.pending[j] else w.pending[j + 1];
      }
    }
    CreateValid(settled, w.pending[k].name, w.pending[k].data);
  }

  lemma {:induction false} LoadRejectedValid(w: World, k: nat)
    requires Valid(w) && k < |w.pending| && w.pending[k].scene in w.records
    requires OnLoad in w.records[w.pending[k].scene].hooks
    ensures w.pending[k].scene in w.records
    ensures Valid(LoadRejectedStep(w, k).world)
  {
    var settled := w.(pending := w.pending[..k] + w.pending[k + 1..]);
    assert Valid(settled) by {
      forall j | 0 <= j < |settled.pending| ensures settled.pending[j].scene in settled.records {
        assert settled.pending[j] == if j < k then w.pending[j] else w.pending[j + 1];
      }
    }
    SetStatusValid(settled, w.pending[k].scene, Stopped);
  }

  lemma {:induction false} ShutdownWalkValid(w: World, s: seq<ZOrder.Slot>)
    requires Valid(w) && Known(s, w.records)
    ensures Valid(ShutdownWalk(w, s).0.world)
    decreases |s|
  {
    if s != [] && s[0].Some? {
      var down := ShutdownStep(w, w.records[s[0].value].state.key);
      ShutdownValid(w, w.records[s[0].value].state.key);
      KnownSlice(s, w.records, 1, |s|);
      ShutdownWalkValid(down.world, s[1..]);
    }
  }

  lemma {:induction false} DestroyValid(w: World)
    requires Valid(w)
    ensures Valid(DestroyStep(w).0.world)
  {
    ShutdownWalkValid(w, w.scenes);
  }
}
