/** The message bus is treated as a black box: publishing appends one event
    to a ghost log, so that ordering properties can be stated over it.
    Invocations of user hooks (scene, system and module callbacks, loader
    signals and middleware) are logged the same way, as "called" markers. */
module Messaging {
  import opened Wrappers

  type SceneId = nat
  type SystemId = nat
  type ModuleId = nat
  type ResourceId = nat
  type ListenerId = nat

  /** Optional hooks of a scene (src/scene/Scene.ts). */
  datatype SceneHook =
    | OnInit | OnLoad | OnCreate | OnPause | OnSleep | OnResume | OnWakeup
    | OnStop | OnDestroy | OnUpdate | OnRender

  /** Topics of SceneEvent. */
  datatype SceneTopic =
    | SceneAdded | SceneRemoved
    | SceneBeforeUpdate | SceneAfterUpdate | SceneBeforeRender | SceneAfterRender
    | SceneInit | SceneLoading | SceneLoaded | SceneLoadFailed | SceneCreated
    | ScenePaused | SceneResumed | SceneSleeping | SceneWoken
    | SceneStopped | SceneDestroyed

  /** Optional hooks of a system or a module. */
  datatype SystemHook = SysInit | SysDestroy | SysUpdate | SysRender

  /** Topics of SystemEvent. */
  datatype SystemTopic =
    | SystemAdded | SystemDestroyed
    | SystemBeforeUpdate | SystemAfterUpdate | SystemBeforeRender | SystemAfterRender

  /** Topics of EngineEvent. */
  datatype EngineTopic =
    | EngineStarted | EngineBeforeUpdate | EngineAfterUpdate | EngineBeforeRender | EngineAfterRender

  /** Topics of LoaderEvent. */
  datatype LoaderTopic = LoaderStarted | LoaderProgress | LoaderLoaded | LoaderComplete | LoaderFailed

  /** The loader's own signals (onStart, onProgress, onError, onLoad, onComplete). */
  datatype LoaderSignal = StartSignal | ProgressSignal | ErrorSignal | LoadSignal | CompleteSignal

  datatype Event =
    | SceneEvent(sceneTopic: SceneTopic, scene: SceneId)
    | SceneCall(sceneHook: SceneHook, calledScene: SceneId)
    | SystemEvent(systemTopic: SystemTopic, system: SystemId)
    | SystemCall(systemHook: SystemHook, calledSystem: SystemId)
    | EngineEvent(engineTopic: EngineTopic)
    | ModuleAdded(addedModule: ModuleId)
    | ModuleInit(initModule: ModuleId)
    | LoaderEvent(loaderTopic: LoaderTopic, resource: Option<ResourceId>)
    | Signal(signal: LoaderSignal, signalled: Option<ResourceId>)
    | PreMiddleware(preIndex: nat, preResource: ResourceId)
    | PostMiddleware(postIndex: nat, postResource: ResourceId)
    | AfterMiddleware(afterResource: ResourceId)
    | ResourceAdded(addedKey: string, added: ResourceId)
    | ResourceRemoved(removedKey: string, removed: ResourceId)
    | ResourceCleared(contents: map<string, ResourceId>)
    | Unsubscribed(listener: ListenerId)

  /** Regrouping appended log segments (stated once, used in loop proofs). */
  lemma {:induction false} AppendAssoc<T>(a: seq<T>, b: seq<T>, c: seq<T>)
    ensures a + b + c == a + (b + c)
  {
  }

  /** The events of a pass that runs `visit` on each element of `s`, in
      order (a `forEach` whose body publishes). */
  function Each<T, U>(visit: T -> seq<U>, s: seq<T>): seq<U>
  {
    if s == [] then [] else Each(visit, s[..|s| - 1]) + visit(s[|s| - 1])
  }

  lemma {:induction false} EachSnoc<T, U>(visit: T -> seq<U>, s: seq<T>, x: T)
    ensures Each(visit, s + [x]) == Each(visit, s) + visit(x)
  {
    assert (s + [x])[..|s|] == s;
  }

  /** A pass over a concatenation is the pass over the first part, then
      the pass over the second. */
  lemma {:induction false} EachAppend<T, U>(visit: T -> seq<U>, a: seq<T>, b: seq<T>)
    ensures Each(visit, a + b) == Each(visit, a) + Each(visit, b)
    decreases |b|
  {
    if b == [] {
      assert a + b == a;
    } else {
      var b' := b[..|b| - 1];
      var x := b[|b| - 1];
      assert b == b' + [x];
      assert a + b == (a + b') + [x];
      EachSnoc(visit, a + b', x);
      EachSnoc(visit, b', x);
      EachAppend(visit, a, b');
      AppendAssoc(Each(visit, a), Each(visit, b'), visit(x));
    }
  }

  /** An event occurs in a pass exactly when some element's visit emits it. */
  lemma {:induction false} EachContains<T, U>(visit: T -> seq<U>, s: seq<T>, e: U)
    ensures e in Each(visit, s) <==> exists k :: 0 <= k < |s| && e in visit(s[k])
  {
    if s != [] {
      var front := s[..|s| - 1];
      EachContains(visit, front, e);
      if e in Each(visit, front) {
        var k :| 0 <= k < |front| && e in visit(front[k]);
        assert s[k] == front[k];
      }
      if exists k :: 0 <= k < |s| && e in visit(s[k]) {
        var k :| 0 <= k < |s| && e in visit(s[k]);
        if k < |front| { assert front[k] == s[k]; }
      }
    }
  }

  class MessageBus {
    ghost var log: seq<Event>

    constructor ()
      ensures log == []
    {
      log := [];
    }

    /** `publish(evt, ...args)`: the event is appended to the log. */
    method Publish(e: Event)
      modifies this
      ensures log == old(log) + [e]
    {
      log := log + [e];
    }
  }
}
