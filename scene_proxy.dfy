/** The per-scene facade of src/scene/SceneManagerProxy.ts. It holds no
    state of its own: every call forwards a fixed sequence of public
    `SceneManager` calls, each of which enqueues one op (two for
    `restart`). A call is therefore modelled by the list of ops it adds to
    the manager's queue; `ownKey` is the key of the scene the proxy was
    built for, the name the scene was registered under (the source reads
    `this._scene.key`, which `Scene` does not declare; its `name` is that
    key). */
module SceneProxy {
  import opened Wrappers
  import opened SceneStates
  import opened SceneWorld
  import SceneProperties
  import ZOrder

  /** A `key: string | string[]` argument. */
  datatype Keys = One(key: string) | Many(keys: seq<string>)

  /** One proxy call with its arguments; `None` is an omitted argument. */
  datatype Call =
    | GoTo(keys: Keys, data: Option<Data>)
    | StartKeys(keys: Keys, data: Option<Data>)
    | Pause(key: Option<string>)
    | Sleep(key: Option<string>)
    | Stop(key: Option<string>)
    | Restart(key: Option<string>, data: Option<Data>)
    | BringToTop(key: Option<string>)
    | SendToBack(key: Option<string>)
    | MoveAbove(target: string, subject: Option<string>)
    | MoveBelow(target: string, subject: Option<string>)
    | Swap(target: string, subject: Option<string>)
    | MoveUp(key: Option<string>)
    | MoveDown(key: Option<string>)
    | ShowModal(modal: string)

  /** `key ?? ownKey`. */
  function OrOwn(key: Option<string>, ownKey: string): string
  {
    if key.Some? then key.value else ownKey
  }

  /** An omitted `data` reaches `SceneManager.start`/`restart` as
      `undefined`, where the parameter default `{}` takes over. */
  function DataOrDefault(data: Option<Data>): Data
  {
    if data.Some? then data.value else DefaultData
  }

  /** A single key is wrapped in an array. */
  function KeyList(keys: Keys): seq<string>
  {
    if keys.One? then [keys.key] else keys.keys
  }

  /** The `forEach` of `start`: one manager `start` per key, in order,
      all with the same data. */
  function StartOps(keys: seq<string>, data: Data): (ops: seq<Op>)
    ensures |ops| == |keys|
    ensures forall i :: 0 <= i < |keys| ==> ops[i] == Op.Start(keys[i], data)
  {
    if keys == [] then [] else [Op.Start(keys[0], data)] + StartOps(keys[1..], data)
  }

  /** The scene names a call passes explicitly. */
  function Named(c: Call): seq<string>
  {
    match c
    case GoTo(keys, _) => KeyList(keys)
    case StartKeys(keys, _) => KeyList(keys)
    case Pause(key) => Given(key)
    case Sleep(key) => Given(key)
    case Stop(key) => Given(key)
    case Restart(key, _) => Given(key)
    case BringToTop(key) => Given(key)
    case SendToBack(key) => Given(key)
    case MoveAbove(target, subject) => [target] + Given(subject)
    case MoveBelow(target, subject) => [target] + Given(subject)
    case Swap(target, subject) => [target] + Given(subject)
    case MoveUp(key) => Given(key)
    case MoveDown(key) => Given(key)
    case ShowModal(modal) => [modal]
  }

  function Given(key: Option<string>): seq<string>
  {
    if key.Some? then [key.value] else []
  }

  /** The ops a proxy call enqueues on its manager, in order. A proxy never
      adds, removes or shuts down a scene, and every op it enqueues acts on
      its own scene or on a scene the call names. */
  function Ops(ownKey: string, c: Call): (ops: seq<Op>)
    ensures forall op :: op in ops ==> !op.Add? && !op.Remove? && !op.Shutdown?
    ensures forall op :: op in ops ==> Subject(op) == ownKey || Subject(op) in Named(c)
  {
    match c
    case GoTo(keys, data) => [Op.Stop(ownKey)] + StartOps(KeyList(keys), DataOrDefault(data))
    case StartKeys(keys, data) => StartOps(KeyList(keys), DataOrDefault(data))
    case Pause(key) => [Op.Pause(OrOwn(key, ownKey))]
    case Sleep(key) => [Op.Sleep(OrOwn(key, ownKey))]
    case Stop(key) => [Op.Stop(OrOwn(key, ownKey))]
    case Restart(key, data) => RestartOps(OrOwn(key, ownKey), DataOrDefault(data))
    case BringToTop(key) => [Op.BringToTop(OrOwn(key, ownKey))]
    case SendToBack(key) => [Op.SendToBack(OrOwn(key, ownKey))]
    case MoveAbove(target, subject) => [Op.MoveAbove(OrOwn(subject, ownKey), target)]
    case MoveBelow(target, subject) => [Op.MoveBelow(OrOwn(subject, ownKey), target)]
    case Swap(target, subject) => [Op.Swap(OrOwn(subject, ownKey), target)]
    case MoveUp(key) => [Op.MoveUp(OrOwn(key, ownKey))]
    case MoveDown(key) => [Op.MoveDown(OrOwn(key, ownKey))]
    case ShowModal(key) => [Op.Pause(ownKey), Op.BringToTop(key), Op.Start(key, DefaultData)]
  }

  /** The scene name a single-scene op acts on (the subject for the
      two-scene reorders). */
  function Subject(op: Op): string
  {
    match op
    case Add(name, _, _, _) => name
    case Remove(name) => name
    case Start(name, _) => name
    case Pause(name) => name
    case Sleep(name) => name
    case Stop(name) => name
    case Shutdown(name) => name
    case BringToTop(name) => name
    case SendToBack(name) => name
    case MoveUp(name) => name
    case MoveDown(name) => name
    case MoveAbove(subject, _) => subject
    case MoveBelow(subject, _) => subject
    case Swap(subject, _) => subject
  }

  /** The calls whose only key argument is optional. */
  predicate KeyOptional(c: Call)
  {
    c.Pause? || c.Sleep? || c.Stop? || c.Restart? || c.BringToTop? || c.SendToBack?
    || c.MoveUp? || c.MoveDown?
  }

  /** With the key omitted, a single-key call acts on the proxy's own
      scene, with an op of the matching kind. */
  lemma {:induction false} OmittedKeyIsOwn(ownKey: string, c: Call)
    requires KeyOptional(c) && c.key.None?
    ensures var ops := Ops(ownKey, c);
      (forall i :: 0 <= i < |ops| ==> Subject(ops[i]) == ownKey)
      && (c.Restart? <==> |ops| == 2)
      && (c.Pause? <==> ops[0].Pause?) && (c.Sleep? <==> ops[0].Sleep?)
      && (c.Stop? || c.Restart? <==> ops[0].Stop?)
      && (c.BringToTop? <==> ops[0].BringToTop?) && (c.SendToBack? <==> ops[0].SendToBack?)
      && (c.MoveUp? <==> ops[0].MoveUp?) && (c.MoveDown? <==> ops[0].MoveDown?)
  {
  }

  /** `start` with one key issues one manager start; with an array, one
      per key in array order, all with the same data. */
  lemma {:induction false} StartPerKey(ownKey: string, keys: Keys, data: Option<Data>)
    ensures var ops := Ops(ownKey, StartKeys(keys, data));
      |ops| == |KeyList(keys)|
      && (keys.One? ==> ops == [Op.Start(keys.key, DataOrDefault(data))])
      && forall i :: 0 <= i < |ops| ==> ops[i] == Op.Start(KeyList(keys)[i], DataOrDefault(data))
  {
  }

  /** `goTo` stops the own scene before any start, then starts exactly
      what `start` would. */
  lemma {:induction false} GoToStopsOwnFirst(ownKey: string, keys: Keys, data: Option<Data>)
    ensures var ops := Ops(ownKey, GoTo(keys, data));
      ops[0] == Op.Stop(ownKey) && ops[1..] == Ops(ownKey, StartKeys(keys, data))
      && forall i :: 1 <= i < |ops| ==> ops[i].Start?
  {
  }

  /** The two-scene reorders take the target first and forward
      `(subject ?? ownKey, target)`. */
  lemma {:induction false} TargetFirstForwarding(ownKey: string, c: Call)
    requires c.MoveAbove? || c.MoveBelow? || c.Swap?
    ensures var ops := Ops(ownKey, c);
      |ops| == 1 && Subject(ops[0]) == OrOwn(c.subject, ownKey)
      && ops[0].target == c.target
      && (c.MoveAbove? <==> ops[0].MoveAbove?) && (c.MoveBelow? <==> ops[0].MoveBelow?)
  {
  }

  /** `showModal(k)` pauses the own scene, raises `k` to the top and starts
      it with the default data, in that order. */
  lemma {:induction false} ShowModalSequence(ownKey: string, key: string)
    ensures Ops(ownKey, ShowModal(key))
      == [Op.Pause(ownKey), Op.BringToTop(key), Op.Start(key, DefaultData)]
  {
  }

  /** Draining the ops of `showModal(k)` is a pause of the own scene, then
      a bring-to-top of `k`, then a start of `k`, each from where the
      previous one left the world. */
  lemma {:induction false} ShowModalDrains(w: World, ownKey: string, modal: string)
    ensures var paused := PauseStep(w, ownKey);
      var raised := BringToTopStep(paused.world, modal);
      var started := StartStep(raised, modal, DefaultData);
      DrainStep(w, Ops(ownKey, ShowModal(modal)))
        == Step(started.world, paused.events + started.events)
  {
    var pause := Op.Pause(ownKey);
    var top := Op.BringToTop(modal);
    var start := Op.Start(modal, DefaultData);
    var w1 := PauseStep(w, ownKey).world;
    var w2 := BringToTopStep(w1, modal);
    assert Ops(ownKey, ShowModal(modal)) == [pause, top, start];
    SceneProperties.DrainThree(ApplyStep, w, pause, top, start);
    assert ApplyStep(w, pause) == PauseStep(w, ownKey);
    assert ApplyStep(w1, top) == Step(w2, []);
    assert ApplyStep(w2, start) == StartStep(w2, modal, DefaultData);
    assert PauseStep(w, ownKey).events + [] == PauseStep(w, ownKey).events;
  }

  /** Once the queue is drained, `showModal(k)` called from an active scene
      leaves that scene Paused, `k` on top of the render order with the
      other scenes in their old order, and `k` loading (when it was neither
      active, paused nor sleeping). */
  lemma {:induction false} ShowModalEffect(w: World, ownKey: string, modal: string)
    requires Valid(w) && ownKey in w.lookup && modal in w.lookup
    requires w.lookup[ownKey] != w.lookup[modal]
    requires w.records[w.lookup[ownKey]].state.IsActive()
    requires w.records[w.lookup[modal]].state.status in {Pending, Init, Stopped, Destroyed}
    ensures var r := DrainStep(w, Ops(ownKey, ShowModal(modal))).world;
      var m := w.lookup[modal];
      w.lookup[ownKey] in r.records && m in r.records
      && r.records[w.lookup[ownKey]].state.status == Paused
      && r.records[m].state.status == Loading
      && |r.scenes| == |w.scenes| && r.scenes[|r.scenes| - 1] == Some(m)
      && ZOrder.Without(r.scenes, Some(m)) == ZOrder.Without(w.scenes, Some(m))
  {
    var m := w.lookup[modal];
    var w1 := PauseStep(w, ownKey).world;
    SceneProperties.PauseGuard(w, ownKey);
    SetStatusValid(w, w.lookup[ownKey], Paused);
    var w2 := BringToTopStep(w1, modal);
    ZOrder.BringToTopCount(w1.scenes, m);
    RearrangedValid(w1, w2.scenes);
    ZOrder.BringToTopMoves(w1.scenes, m);
    SceneProperties.StartLoads(w2, modal, DefaultData);
    ShowModalDrains(w, ownKey, modal);
  }
}
