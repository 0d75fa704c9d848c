# gamerig core, modelled and proved in Dafny

This project models the deterministic bookkeeping at the core of the gamerig
engine: the scene manager with its deferred operation queue, scene status
machine and z-ordered scene list. It also covers:

- the system manager with its lazy stable priority sort;
- the engine's tick order, static registries and provider registry;
- the module manager;
- the resource loader's queue, progress chunks, middleware chains and URL joining;
- the resource cache and the caching middleware;
- the frame clock.

Every message the source publishes on its message bus is modelled as one
entry appended to a ghost event log (`Messaging.MessageBus.log`). The same
log records a `Called` entry whenever a user-supplied scene or system hook
runs. Ordering properties are therefore stated over that one log.

The modules follow the source tree:

| module (file) | source |
|---|---|
| `Messaging` (messaging.dfy) | the message bus, as an append-only log |
| `StableSort` (stable_sort.dfy) | the stable `Array.prototype.sort` used by the system manager |
| `Systems` (system_manager.dfy) | src/system/SystemManager.ts |
| `SceneStates` (scene_state.dfy) | src/scene/SceneState.ts |
| `ZOrder` (zorder.dfy) | the seven z-order operations of src/scene/SceneManager.ts, on the scene list |
| `SceneWorld` (scene_world.dfy) | the scene manager's state and its `_add` … `_swap` transitions, as functions |
| `SceneProperties` (scene_props.dfy) | lemmas about the scene transitions and the queue |
| `SceneProxy` (scene_proxy.dfy) | src/scene/SceneManagerProxy.ts |
| `Scenes` (scene_manager.dfy) | the `SceneManager` class of src/scene/SceneManager.ts |
| `Modules` (module_manager.dfy) | src/module/ModuleManager.ts |
| `FrameClock` (clock.dfy) | src/clock/Clock.ts |
| `EngineCore` (engine.dfy) | src/engine/Engine.ts |
| `ResourceCache` (resource_manager.dfy) | src/resource/ResourceManager.ts and the parts of a loader resource that the loader uses |
| `Caching` (caching.dfy) | src/resource/middleware/caching.ts |
| `ResourceLoader` (loader.dfy) | src/resource/loader/Loader.ts |

Scenes, systems, modules and resources are objects in the source. Each
becomes either a record under a handle (scenes, systems, modules) or a
`class` instance (loader resources, which the loader's table, a parent's
children, the queue and the cache all share). Progress and clock speeds
are Dafny `real`s, which are exact. The clock's arithmetic on timestamps
writes out JavaScript's `| 0`, truncating division and `%`.

## Model

| member | source | states |
|---|---|---|
| ZOrder.IndexOf | src/scene/SceneManager.ts:296 | `indexOf`: -1 exactly when the scene is absent, otherwise an index holding it |
| ZOrder.IndexOfFirst | src/scene/SceneManager.ts:296 | no slot before the index `indexOf` returns holds the scene, so it is the first occurrence |
| ZOrder.RemoveAt | src/scene/SceneManager.ts:299 | `splice(i, 1)` shortens the list by one |
| ZOrder.RemoveAtCount | src/scene/SceneManager.ts:299 | `splice(i, 1)` removes exactly one occurrence of the slot at `i` and no other value |
| ZOrder.SpliceOne | src/scene/SceneManager.ts:285 | `splice(start, 1)`: an index in range removes that slot, -1 removes the last slot, a start past the end removes nothing |
| ZOrder.InsertAt | src/scene/SceneManager.ts:328 | `splice(k, 0, x)` grows the list by one and puts `x` at `k` clamped to the length |
| ZOrder.InsertAtCount | src/scene/SceneManager.ts:328 | `splice(k, 0, x)` adds exactly one `x` and no other value |
| ZOrder.RemoveInsertCount | src/scene/SceneManager.ts:299-300 | taking a slot out and splicing it back in anywhere gives a permutation of the list |
| ZOrder.Assign | src/scene/SceneManager.ts:358-359 | index assignment sets one slot and keeps all the others; assigning at the length grows the list by one |
| ZOrder.BringToTop | src/scene/SceneManager.ts:292-303 | an absent scene leaves the list unchanged |
| ZOrder.SendToBack | src/scene/SceneManager.ts:305-316 | an absent scene leaves the list unchanged |
| ZOrder.MoveAbove | src/scene/SceneManager.ts:318-331 | an absent subject or target leaves the list unchanged |
| ZOrder.MoveBelow | src/scene/SceneManager.ts:333-346 | an absent subject or target leaves the list unchanged |
| ZOrder.MoveUp | src/scene/SceneManager.ts:348-362 | an absent scene leaves the list unchanged |
| ZOrder.MoveDown | src/scene/SceneManager.ts:364-378 | an absent scene leaves the list unchanged |
| ZOrder.Swap | src/scene/SceneManager.ts:380-393 | an absent subject or target leaves the list unchanged |
| ZOrder.BringToTopCount | src/scene/SceneManager.ts:299-300 | `bringToTop` is a permutation of the list |
| ZOrder.SendToBackCount | src/scene/SceneManager.ts:312-313 | `sendToBack` is a permutation of the list |
| ZOrder.MoveAboveCount | src/scene/SceneManager.ts:318-331 | `moveAbove` is a permutation of the list |
| ZOrder.MoveBelowCount | src/scene/SceneManager.ts:333-346 | `moveBelow` is a permutation of the list |
| ZOrder.MoveUpCount | src/scene/SceneManager.ts:354-359 | `moveUp` below the top is a permutation; on the top scene it adds exactly one `undefined` slot |
| ZOrder.MoveDownCount | src/scene/SceneManager.ts:370-375 | `moveDown` is a permutation of the list |
| ZOrder.SwapCount | src/scene/SceneManager.ts:388-391 | `swap` is a permutation of the list |
| ZOrder.Without | src/scene/SceneManager.ts:283-285 | the list with one value filtered out keeps every other value's count |
| ZOrder.MoveKeepsOthers | src/scene/SceneManager.ts:299-300 | taking a scene out and putting it back anywhere keeps the other scenes in their order |
| ZOrder.BringToTopMoves | src/scene/SceneManager.ts:292-303 | `bringToTop` puts the scene last, keeps the length and keeps the others' order |
| ZOrder.SendToBackMoves | src/scene/SceneManager.ts:305-316 | `sendToBack` puts the scene at index 0, keeps the length and keeps the others' order |
| ZOrder.MoveDownSwaps | src/scene/SceneManager.ts:364-378 | `moveDown` above the bottom exchanges the scene with its lower neighbour; at the bottom it changes nothing |
| ZOrder.MoveUpSwaps | src/scene/SceneManager.ts:348-362 | `moveUp` below the top exchanges the scene with its upper neighbour; on the top scene it leaves `undefined` at the old index and appends the scene |
| ZOrder.SwapExchanges | src/scene/SceneManager.ts:380-393 | `swap` of two distinct scenes exchanges exactly their two positions and keeps every other slot |
| ZOrder.MoveAboveFromAbove | src/scene/SceneManager.ts:318-331 | with the subject above the target, `moveAbove` places it directly above the target and keeps the others' order |
| ZOrder.MoveAboveFromBelow | src/scene/SceneManager.ts:323-328 | with the subject below a target that is not on top, `moveAbove` leaves the scene that was above the target between them, because the target's index is taken before the removal |
| ZOrder.MoveAboveShape | src/scene/SceneManager.ts:323-328 | `moveAbove` removes the subject, then inserts it after the target's old index |
| ZOrder.MoveBelowFromAbove | src/scene/SceneManager.ts:333-346 | with the subject above the target, `moveBelow` places it directly below the target and keeps the others' order |
| ZOrder.MoveBelowFromBelow | src/scene/SceneManager.ts:338-343 | with the subject below the target, `moveBelow` puts it directly above the target, because the target's index is taken before the removal |
| ZOrder.RemoveKeepsOthers | src/scene/SceneManager.ts:283-285 | removing a scene listed once takes it out of the list and keeps the others' order |
| SceneStates.Ord | src/scene/SceneState.ts:1-11 | the enum's numeric values, Pending = 0 up to Destroyed = 8 |
| SceneStates.SceneState.WithStatus | src/scene/SceneState.ts:28-31 | the setter stores the status, keeps the key and recomputes visibility as active or paused |
| SceneStates.Initial | src/scene/SceneState.ts:14-18 | a new state is Pending and not visible, so it neither updates nor renders |
| SceneStates.ActiveExactly | src/scene/SceneState.ts:49-51 | `isActive()` holds exactly for Loading, Creating and Running |
| SceneStates.ShouldUpdateExactly | src/scene/SceneState.ts:33-35 | `shouldUpdate()` holds exactly for Creating and Running |
| SceneStates.RenderAfterAssignment | src/scene/SceneState.ts:28-39 | after any status assignment `shouldRender()` equals `isActive()`; a Paused scene is visible but not rendered |
| SceneStates.RenderedStatuses | src/scene/SceneState.ts:28-39 | after an assignment, rendering holds exactly for Loading, Creating and Running, and visibility for those and Paused |
| SceneWorld.RestartOps | src/scene/SceneManager.ts:34-37 | `restart` enqueues exactly two ops: a stop, then a start with the data |
| SceneWorld.EmptyValid | src/scene/SceneManager.ts:10-14 | the empty manager (no queue, no scenes, empty lookup) satisfies the list/lookup invariant |
| SceneWorld.HookCall | src/scene/SceneManager.ts:152 | `scene.hook?.()` leaves a call marker exactly when the scene defines the hook |
| SceneWorld.SetStatus | src/scene/SceneManager.ts:148 | a status assignment changes that one scene's state through the setter and nothing else |
| SceneWorld.Find | src/scene/SceneManager.ts:160 | `lookup.get(name)` yields the registered handle, and nothing for an unregistered name |
| SceneWorld.FindUnderValid | src/scene/SceneManager.ts:160-162 | in a valid manager a name is found exactly when registered, and the scene found has that key |
| SceneWorld.StopStep | src/scene/SceneManager.ts:253-262 | `_stop` keeps the list, the lookup map, the pending loads and the scene set |
| SceneWorld.ShutdownStep | src/scene/SceneManager.ts:264-275 | `_shutdown` keeps the list, the lookup map, the pending loads and the scene set |
| SceneWorld.RemoveStep | src/scene/SceneManager.ts:277-290 | `_remove` keeps the scene objects and pending loads; the list and lookup change as RemoveGone states |
| SceneWorld.ResumeStep | src/scene/SceneManager.ts:231-240 | `_resume` keeps the list, the lookup map, the pending loads and the scene set |
| SceneWorld.WakeupStep | src/scene/SceneManager.ts:242-251 | `_wakeup` keeps the list, the lookup map, the pending loads and the scene set |
| SceneWorld.PauseStep | src/scene/SceneManager.ts:209-218 | `_pause` keeps the list, the lookup map, the pending loads and the scene set |
| SceneWorld.SleepStep | src/scene/SceneManager.ts:220-229 | `_sleep` keeps the list, the lookup map, the pending loads and the scene set |
| SceneWorld.StartStep | src/scene/SceneManager.ts:159-193 | `_start` keeps the list, the lookup map and the scene set |
| SceneWorld.CreateStep | src/scene/SceneManager.ts:195-207 | `_create` keeps the list, the lookup map, the pending loads and the scene set |
| SceneWorld.Register | src/scene/SceneManager.ts:141-144 | the new scene gets a fresh handle, the lookup entry for its name (replacing any earlier one) and the top slot of the list |
| SceneWorld.AddStep | src/scene/SceneManager.ts:140-157 | `_add` adds exactly one scene object and pushes exactly its handle on top |
| SceneWorld.BringToTopStep | src/scene/SceneManager.ts:292-303 | an unregistered name changes nothing; otherwise only the list changes |
| SceneWorld.SendToBackStep | src/scene/SceneManager.ts:305-316 | an unregistered name changes nothing; otherwise only the list changes |
| SceneWorld.MoveUpStep | src/scene/SceneManager.ts:348-362 | an unregistered name changes nothing; otherwise only the list changes |
| SceneWorld.MoveDownStep | src/scene/SceneManager.ts:364-378 | an unregistered name changes nothing; otherwise only the list changes |
| SceneWorld.MoveAboveStep | src/scene/SceneManager.ts:318-331 | an unregistered subject or target changes nothing; otherwise only the list changes |
| SceneWorld.MoveBelowStep | src/scene/SceneManager.ts:333-346 | an unregistered subject or target changes nothing; otherwise only the list changes |
| SceneWorld.SwapStep | src/scene/SceneManager.ts:380-393 | an unregistered subject or target changes nothing; otherwise only the list changes |
| SceneWorld.DrainSnoc | src/scene/SceneManager.ts:133-138 | draining a queue and then one more op is draining the longer queue |
| SceneWorld.LoadResolvedStep | src/scene/SceneManager.ts:180-185 | a resolved load removes exactly its own entry from the pending loads and keeps the list and the lookup map |
| SceneWorld.LoadRejectedStep | src/scene/SceneManager.ts:175-191 | only the load of a scene with a `load` hook can reject (without one the promise is `Promise.resolve()`); a rejected load removes exactly its own entry from the pending loads and keeps the list and the lookup map |
| SceneWorld.UpdatePassAt | src/scene/SceneManager.ts:91-101 | the update loop at index `i - 1` visits that scene before the ones below it; an `undefined` slot ends it |
| SceneWorld.RenderPassAt | src/scene/SceneManager.ts:106-116 | the render loop at index `i` visits that scene before the ones above it; an `undefined` slot ends it |
| SceneWorld.ShutdownWalk | src/scene/SceneManager.ts:120-122 | `destroy`'s walk completes exactly when no slot is `undefined`, and keeps the list, lookup and scene set |
| SceneWorld.ShutdownWalkAt | src/scene/SceneManager.ts:120-122 | the walk shuts the scene at index `i` down by its name before the rest |
| SceneWorld.DestroyStep | src/scene/SceneManager.ts:119-127 | when the walk completes the list and lookup are emptied; when a slot throws they are kept |
| SceneWorld.SetStatusValid | src/scene/SceneManager.ts:148 | a status assignment keeps the manager invariant |
| SceneWorld.RearrangedValid | src/scene/SceneManager.ts:292-393 | replacing the list by a rearrangement of itself keeps the invariant |
| SceneWorld.StopValid | src/scene/SceneManager.ts:253-262 | `_stop` keeps the invariant |
| SceneWorld.ShutdownValid | src/scene/SceneManager.ts:264-275 | `_shutdown` keeps the invariant |
| SceneWorld.RemoveValid | src/scene/SceneManager.ts:277-290 | `_remove` keeps the invariant |
| SceneWorld.SpliceValid | src/scene/SceneManager.ts:283-286 | splicing a registered scene out and deleting its name keeps the invariant |
| SceneWorld.SpliceCounts | src/scene/SceneManager.ts:283-285 | splicing out a listed scene removes exactly one copy of it and no other scene |
| SceneWorld.SpliceLookup | src/scene/SceneManager.ts:285-286 | after the splice every other name still leads to a listed scene |
| SceneWorld.StartValid | src/scene/SceneManager.ts:159-193 | `_start` keeps the invariant and records its load as pending for a known scene |
| SceneWorld.CreateValid | src/scene/SceneManager.ts:195-207 | `_create` keeps the invariant |
| SceneWorld.AddValid | src/scene/SceneManager.ts:140-157 | `_add` keeps the invariant, autostart included |
| SceneWorld.RegisterValid | src/scene/SceneManager.ts:141-144 | registering a fresh handle keeps the invariant |
| SceneWorld.RegisterListed | src/scene/SceneManager.ts:144 | the fresh handle is listed once and every slot names a known scene |
| SceneWorld.RegisterLookup | src/scene/SceneManager.ts:143 | every name, the new one included, leads to a listed scene with that key |
| SceneWorld.PauseValid | src/scene/SceneManager.ts:209-218 | `_pause` keeps the invariant |
| SceneWorld.SleepValid | src/scene/SceneManager.ts:220-229 | `_sleep` keeps the invariant |
| SceneWorld.ReorderValid | src/scene/SceneManager.ts:292-393 | each of the seven list operations keeps the invariant |
| SceneWorld.ReorderCounts | src/scene/SceneManager.ts:292-393 | each list operation keeps the number of times every scene is listed |
| SceneWorld.SingleReorderCounts | src/scene/SceneManager.ts:292-378 | `bringToTop`, `sendToBack`, `moveUp` and `moveDown` keep the number of times every scene is listed |
| SceneWorld.PairReorderCounts | src/scene/SceneManager.ts:318-393 | `moveAbove`, `moveBelow` and `swap` keep the number of times every scene is listed |
| SceneWorld.ApplyValid | src/scene/SceneManager.ts:136 | applying any deferred op keeps the invariant |
| SceneWorld.DrainValid | src/scene/SceneManager.ts:133-138 | draining any queue keeps the invariant |
| SceneWorld.LoadResolvedValid | src/scene/SceneManager.ts:180-185 | a resolved load keeps the invariant |
| SceneWorld.LoadRejectedValid | src/scene/SceneManager.ts:186-191 | a rejected load of a scene with a `load` hook refers to a known scene and keeps the invariant |
| SceneWorld.ShutdownWalkValid | src/scene/SceneManager.ts:120-122 | `destroy`'s walk keeps the invariant |
| SceneWorld.DestroyValid | src/scene/SceneManager.ts:119-127 | `destroy` keeps the invariant |
| SceneProperties.DrainAppend | src/scene/SceneManager.ts:133-138 | the queue is processed first in, first out: draining `q1 + q2` drains `q1`, then `q2` from where `q1` left the scenes |
| SceneProperties.DrainOne | src/scene/SceneManager.ts:134-136 | a queue of one op is that op applied |
| SceneProperties.DrainThree | src/scene/SceneManager.ts:134-136 | a queue of three ops applies them in order |
| SceneProperties.RestartStopsThenStarts | src/scene/SceneManager.ts:34-37 | a drained `restart` is a stop followed by a start from the stopped state |
| SceneProperties.PauseGuard | src/scene/SceneManager.ts:209-218 | `_pause` acts exactly on an active scene, which ends Paused after its hook and Paused event; otherwise nothing happens |
| SceneProperties.SleepGuard | src/scene/SceneManager.ts:220-229 | `_sleep` acts exactly on an active scene, which ends Sleeping; otherwise nothing happens |
| SceneProperties.ResumeGuard | src/scene/SceneManager.ts:231-240 | `_resume` acts exactly on a Paused scene, which ends Running; otherwise nothing happens |
| SceneProperties.WakeupGuard | src/scene/SceneManager.ts:242-251 | `_wakeup` acts exactly on a Sleeping scene, which ends Running; otherwise nothing happens |
| SceneProperties.StopGuard | src/scene/SceneManager.ts:253-262 | `_stop` sets any registered scene Stopped, whatever its status, and touches no other scene |
| SceneProperties.ShutdownOrder | src/scene/SceneManager.ts:264-275 | `_shutdown` publishes Stopped before it sets Destroyed and publishes Destroyed |
| SceneProperties.StartIgnores | src/scene/SceneManager.ts:160-165 | `_start` on an absent or active scene changes nothing and publishes nothing |
| SceneProperties.StartResumes | src/scene/SceneManager.ts:167-169 | `_start` on a Paused scene delegates to resume and ends Running |
| SceneProperties.StartWakes | src/scene/SceneManager.ts:171-173 | `_start` on a Sleeping scene delegates to wakeup and ends Running |
| SceneProperties.StartLoads | src/scene/SceneManager.ts:175-178 | `_start` on any other scene, a Destroyed one included, sets Loading, publishes Loading and records the pending load |
| SceneProperties.LoadResolvedCreates | src/scene/SceneManager.ts:180-207 | a resolved load of a still-active scene publishes Loaded, then creates it: Created is published and the scene ends Running |
| SceneProperties.LoadResolvedLate | src/scene/SceneManager.ts:182-198 | a resolved load of a scene no longer active publishes Loaded and changes nothing else |
| SceneProperties.LoadRejectedStops | src/scene/SceneManager.ts:175-191 | a rejected load, possible only for a scene with a `load` hook, sets the scene Stopped and publishes LoadFailed |
| SceneProperties.AddShadows | src/scene/SceneManager.ts:140-152 | `_add` never checks the name: the new scene takes over the lookup entry while an earlier scene of that name stays listed; Added, then Init |
| SceneProperties.TwiceCounted | src/scene/SceneManager.ts:144 | a scene listed at two indices is counted twice |
| SceneProperties.RemoveGone | src/scene/SceneManager.ts:277-290 | after `_remove(name)` the scene is in neither the lookup map nor the list, it is Destroyed, and the others keep their order and their names |
| SceneProperties.MoveUpOnTopBreaksUpdate | src/scene/SceneManager.ts:354-359 | `_moveUp` on the top scene leaves an `undefined` slot, so the next update visits that scene only and then throws |
| SceneProperties.UpdatePassAppend | src/scene/SceneManager.ts:91 | the update loop runs top down: everything above a cut is visited before everything below it |
| SceneProperties.RenderPassAppend | src/scene/SceneManager.ts:106 | the render loop runs bottom up: everything below a cut is visited before everything above it |
| SceneProperties.UpdateCalls | src/scene/SceneManager.ts:91-101 | `update` calls a scene's hook exactly when the scene is listed, should update and defines the hook |
| SceneProperties.RenderCalls | src/scene/SceneManager.ts:106-116 | `render` calls a scene's hook exactly when the scene is listed, should render and defines the hook |
| SceneProperties.PausedNotRendered | src/scene/SceneState.ts:37-39 | a Paused scene is visible but never rendered |
| SceneProxy.Ops | src/scene/SceneManagerProxy.ts:29-92 | the ops each proxy method enqueues; none adds, removes or shuts down a scene, and each acts on the proxy's own scene or on a scene the call names (the exact sequences per method are stated by StartOps, OmittedKeyIsOwn, StartPerKey, GoToStopsOwnFirst, TargetFirstForwarding and ShowModalSequence) |
| SceneProxy.StartOps | src/scene/SceneManagerProxy.ts:39-41 | the `forEach` of `start` issues one manager start per key, in order, all with the same data |
| SceneProxy.OmittedKeyIsOwn | src/scene/SceneManagerProxy.ts:44-86 | with the key omitted, pause, sleep, stop, restart, bringToTop, sendToBack, moveUp and moveDown act on the proxy's own scene with an op of the matching kind |
| SceneProxy.StartPerKey | src/scene/SceneManagerProxy.ts:34-42 | `start` with one key issues one manager start; with an array, one per key in array order, all with the same data |
| SceneProxy.GoToStopsOwnFirst | src/scene/SceneManagerProxy.ts:29-32 | `goTo` stops the own scene before any start, then issues exactly what `start` would |
| SceneProxy.TargetFirstForwarding | src/scene/SceneManagerProxy.ts:68-78 | moveAbove, moveBelow and swap take the target first and forward `(subject ?? ownKey, target)` |
| SceneProxy.ShowModalSequence | src/scene/SceneManagerProxy.ts:88-92 | `showModal(k)` issues exactly pause of the own scene, bringToTop of `k`, start of `k`, in that order |
| SceneProxy.ShowModalDrains | src/scene/SceneManagerProxy.ts:88-92 | draining those three ops is pause, then bring-to-top, then start, each from where the previous left the manager |
| SceneProxy.ShowModalEffect | src/scene/SceneManagerProxy.ts:88-92 | from an active scene, a drained `showModal(k)` leaves that scene Paused, `k` on top with the others in their old order, and `k` Loading |
| Scenes.SceneManager.constructor | src/scene/SceneManager.ts:10-20 | a new manager has an empty queue, no scenes and an empty lookup map, and uses the engine's bus |
| Scenes.SceneManager.GetScene | src/scene/SceneManager.ts:83-85 | `getScene(name)` yields a scene exactly when the name is registered, and that scene carries the name as its key |
| Scenes.SceneManager.EnqueueOp | src/scene/SceneManager.ts:129-131 | `enqueueOp` appends exactly the op to the queue |
| Scenes.SceneManager.Add | src/scene/SceneManager.ts:22-24 | `add` appends one Add op and changes nothing else |
| Scenes.SceneManager.Remove | src/scene/SceneManager.ts:26-28 | `remove` appends one Remove op and changes nothing else |
| Scenes.SceneManager.Start | src/scene/SceneManager.ts:30-32 | `start` appends one Start op and changes nothing else |
| Scenes.SceneManager.Restart | src/scene/SceneManager.ts:34-37 | `restart` appends a Stop op, then a Start op |
| Scenes.SceneManager.Pause | src/scene/SceneManager.ts:39-41 | `pause` appends one Pause op and changes nothing else |
| Scenes.SceneManager.Sleep | src/scene/SceneManager.ts:43-45 | `sleep` appends one Sleep op and changes nothing else |
| Scenes.SceneManager.Stop | src/scene/SceneManager.ts:47-49 | `stop` appends one Stop op and changes nothing else |
| Scenes.SceneManager.Shutdown | src/scene/SceneManager.ts:51-53 | `shutdown` appends one Shutdown op and changes nothing else |
| Scenes.SceneManager.BringToTop | src/scene/SceneManager.ts:55-57 | `bringToTop` appends one op and changes nothing else |
| Scenes.SceneManager.SendToBack | src/scene/SceneManager.ts:59-61 | `sendToBack` appends one op and changes nothing else |
| Scenes.SceneManager.MoveUp | src/scene/SceneManager.ts:63-65 | `moveUp` appends one op and changes nothing else |
| Scenes.SceneManager.MoveDown | src/scene/SceneManager.ts:67-69 | `moveDown` appends one op and changes nothing else |
| Scenes.SceneManager.MoveAbove | src/scene/SceneManager.ts:71-73 | `moveAbove` appends one op and changes nothing else |
| Scenes.SceneManager.MoveBelow | src/scene/SceneManager.ts:75-77 | `moveBelow` appends one op and changes nothing else |
| Scenes.SceneManager.Swap | src/scene/SceneManager.ts:79-81 | `swap` appends one op and changes nothing else |
| Scenes.SceneManager.SetStatusOf | src/scene/SceneManager.ts:148 | a status assignment on the manager's state is `SceneWorld.SetStatus` |
| Scenes.SceneManager.InvokeHook | src/scene/SceneManager.ts:152 | `scene.hook?.()` logs exactly the call marker of `SceneWorld.HookCall` |
| Scenes.SceneManager.DoStop | src/scene/SceneManager.ts:253-262 | `_stop` on the fields is `StopStep` on the state, with its events appended to the log |
| Scenes.SceneManager.DoShutdown | src/scene/SceneManager.ts:264-275 | `_shutdown` on the fields is `ShutdownStep`, with its events appended |
| Scenes.SceneManager.DoRemove | src/scene/SceneManager.ts:277-290 | `_remove` on the fields is `RemoveStep`, with its events appended |
| Scenes.SceneManager.DoResume | src/scene/SceneManager.ts:231-240 | `_resume` on the fields is `ResumeStep`, with its events appended |
| Scenes.SceneManager.DoWakeup | src/scene/SceneManager.ts:242-251 | `_wakeup` on the fields is `WakeupStep`, with its events appended |
| Scenes.SceneManager.DoPause | src/scene/SceneManager.ts:209-218 | `_pause` on the fields is `PauseStep`, with its events appended |
| Scenes.SceneManager.DoSleep | src/scene/SceneManager.ts:220-229 | `_sleep` on the fields is `SleepStep`, with its events appended |
| Scenes.SceneManager.DoStart | src/scene/SceneManager.ts:159-193 | `_start` on the fields is `StartStep`, with its events appended |
| Scenes.SceneManager.DoCreate | src/scene/SceneManager.ts:195-207 | `_create` on the fields is `CreateStep`, with its events appended |
| Scenes.SceneManager.DoAdd | src/scene/SceneManager.ts:140-157 | `_add` on the fields is `AddStep`, with its events appended |
| Scenes.SceneManager.DoRegister | src/scene/SceneManager.ts:141-144 | the new scene's handle is the counter's old value and the fields are `Register` |
| Scenes.SceneManager.DoReorder | src/scene/SceneManager.ts:292-393 | the seven list operations change only the list, as `ApplyStep`, and publish nothing |
| Scenes.SceneManager.ApplyOp | src/scene/SceneManager.ts:136 | applying an op on the fields is `ApplyStep`, with its events appended |
| Scenes.SceneManager.ProcessQueue | src/scene/SceneManager.ts:133-138 | `_processQueue` applies every queued op in FIFO order (`DrainStep`) and leaves the queue empty, keeping the invariant |
| Scenes.SceneManager.DrainQueue | src/scene/SceneManager.ts:134-137 | the loop takes the ops queued at entry off the front, in order, applying each as `ApplyStep` does, and ends with the queue empty |
| Scenes.SceneManager.ProcessFirst | src/scene/SceneManager.ts:135-136 | one turn shifts the first op off the queue and applies it |
| Scenes.SceneManager.LoadResolved | src/scene/SceneManager.ts:180-185 | a resolved load on the fields is `LoadResolvedStep`, keeping the invariant |
| Scenes.SceneManager.LoadRejected | src/scene/SceneManager.ts:175-191 | a rejected load of a scene with a `load` hook, on the fields, is `LoadRejectedStep`, keeping the invariant |
| Scenes.SceneManager.VisitUpdate | src/scene/SceneManager.ts:94-100 | one visit logs BeforeUpdate, the update hook and AfterUpdate for a scene that should update, and nothing otherwise |
| Scenes.SceneManager.VisitRender | src/scene/SceneManager.ts:109-115 | one visit logs BeforeRender, the render hook and AfterRender for a scene that should render, and nothing otherwise |
| Scenes.SceneManager.Update | src/scene/SceneManager.ts:87-102 | `update` drains the whole queue before visiting any scene, then logs the top-down update pass; it completes exactly when no slot is `undefined` |
| Scenes.SceneManager.Render | src/scene/SceneManager.ts:104-117 | `render` logs the bottom-up render pass and changes no scene; it completes exactly when no slot is `undefined` |
| Scenes.SceneManager.TraverseUpdate | src/scene/SceneManager.ts:91-101 | the update loop from the last index down logs `UpdatePass` |
| Scenes.SceneManager.UpdateAt | src/scene/SceneManager.ts:92-100 | one turn of the update loop: an `undefined` slot throws, any other is visited |
| Scenes.SceneManager.TraverseRender | src/scene/SceneManager.ts:106-116 | the render loop from index 0 up logs `RenderPass` |
| Scenes.SceneManager.RenderAt | src/scene/SceneManager.ts:107-115 | one turn of the render loop: an `undefined` slot throws, any other is visited |
| Scenes.SceneManager.Destroy | src/scene/SceneManager.ts:119-127 | `destroy` shuts every scene down by name, then empties list, lookup and queue; a throw keeps them |
| Scenes.SceneManager.ShutdownAll | src/scene/SceneManager.ts:120-122 | the `forEach` of `destroy` is `ShutdownWalk` over the list |
| StableSort.Insert | src/system/SystemManager.ts:73 | insertion into a descending list keeps every element and adds exactly `x` (multiset) |
| StableSort.Sort | src/system/SystemManager.ts:73 | the sort is a permutation of its input |
| StableSort.InsertSorted | src/system/SystemManager.ts:73 | insertion keeps a descending list descending and grows it by one |
| StableSort.SortSorts | src/system/SystemManager.ts:73 | the sort yields a permutation whose priorities never increase |
| StableSort.WithKeyAppend | src/system/SystemManager.ts:73 | the equal-key sublist of a concatenation is the concatenation of the sublists |
| StableSort.NoneAbove | src/system/SystemManager.ts:73 | a descending list whose head is below `p` holds nothing with key `p` |
| StableSort.InsertKeepsTies | src/system/SystemManager.ts:73 | insertion puts `x` after every element with the same key |
| StableSort.SortIsStable | src/system/SystemManager.ts:73 | stability: elements with equal priority keep their relative order |
| StableSort.InsertLowest | src/system/SystemManager.ts:73 | an element no higher than any other goes to the end |
| StableSort.SortedUnchanged | src/system/SystemManager.ts:73 | a list already in descending order is left exactly as it is |
| Systems.DispatchCalls | src/system/SystemManager.ts:34-56 | a pass calls a system's hook exactly when the system is registered and defines the hook |
| Systems.DispatchBrackets | src/system/SystemManager.ts:34-56 | every hook call of a pass sits between that system's Before and After events |
| Systems.DestroyAnnouncesAll | src/system/SystemManager.ts:59-69 | `destroy` announces Destroyed for every registered system and calls exactly the destroy hooks that exist |
| Systems.SystemManager.constructor | src/system/SystemManager.ts:11-15 | a new manager has no systems and its dirty flag set |
| Systems.SystemManager.Add | src/system/SystemManager.ts:17-29 | the registration is appended, `init` is called if defined, the flag is set, and Added follows the init call |
| Systems.SystemManager.SortIfNeeded | src/system/SystemManager.ts:71-76 | sorts only when the flag is set and clears it; the list is a permutation of the old one in descending priority |
| Systems.SystemManager.Update | src/system/SystemManager.ts:31-43 | sort if needed, then the update pass over the list in order |
| Systems.SystemManager.Render | src/system/SystemManager.ts:45-57 | sort if needed, then the render pass over the list in order |
| Systems.SystemManager.Run | src/system/SystemManager.ts:34-56 | the `forEach` loop logs `Dispatch` over the list |
| Systems.SystemManager.RunOne | src/system/SystemManager.ts:35-55 | one system's turn: Before, hook, After if it defines the hook, else nothing |
| Systems.SystemManager.Destroy | src/system/SystemManager.ts:59-69 | each system calls its destroy hook if present and is announced Destroyed, in list order; the list ends empty |
| Systems.SystemManager.DestroyOne | src/system/SystemManager.ts:60-66 | one system's turn of `destroy` |
| Modules.AddEventsOrder | src/module/ModuleManager.ts:10-18 | `init` is called once exactly when the module defines it, and Added is published exactly once, last |
| Modules.AddAllAnnounces | src/module/ModuleManager.ts:10-18 | adding a list of modules announces every one and calls exactly the `init` hooks that exist |
| Modules.ModuleManager.constructor | src/module/ModuleManager.ts:6-8 | a new manager holds no modules |
| Modules.ModuleManager.Add | src/module/ModuleManager.ts:10-18 | the module is appended with earlier entries untouched and no duplicate check, then `init`, then Added |
| FrameClock.ToInt32 | src/clock/Clock.ts:91 | `| 0` yields a signed 32-bit value congruent to its operand modulo 2^32 |
| FrameClock.ToInt32InRange | src/clock/Clock.ts:91 | a value already in the signed 32-bit range passes `| 0` unchanged |
| FrameClock.Trunc | src/clock/Clock.ts:91 | number-to-integer conversion truncates toward zero |
| FrameClock.JsRem | src/clock/Clock.ts:97 | `%` with a positive divisor leaves a remainder smaller than the divisor with the sign of the dividend |
| FrameClock.QuotientSign | src/clock/Clock.ts:97 | the quotient by a positive divisor has the dividend's sign |
| FrameClock.DivBounds | src/clock/Clock.ts:97 | a quotient truncated toward zero leaves a remainder bounded by the divisor with the dividend's sign |
| FrameClock.Round | src/clock/Clock.ts:131 | `Math.round` gives the integer within half a unit, halves rounding up |
| FrameClock.Min | src/clock/Clock.ts:81-83 | the minimum is one of its arguments and no larger than either |
| FrameClock.Max | src/clock/Clock.ts:142 | the maximum is one of its arguments and no smaller than either |
| FrameClock.MaxFPSOf | src/clock/Clock.ts:129-135 | the `maxFPS` getter reads 0 when throttling is off |
| FrameClock.MinElapsedFor | src/clock/Clock.ts:137-146 | the setter turns throttling off exactly for 0; any other rate gives a positive interval no longer than `_maxElapsedMS` |
| FrameClock.MaxFPSRoundTrip | src/clock/Clock.ts:129-146 | a whole rate of 0, or at or above `minFPS`, set through `maxFPS` reads back unchanged |
| FrameClock.Clock.constructor | src/clock/Clock.ts:4-28 | the initial field values: deltaTime 1, deltaMS and elapsedMS `1 / TARGET_FPMS`, lastTime -1, speed 1, stopped, nothing pending, maxElapsedMS 100, minElapsedMS 0, lastFrame -1 |
| FrameClock.Clock.RequestIfNeeded | src/clock/Clock.ts:43-50 | with no frame pending, both time marks become `now` and one frame is requested; otherwise nothing changes |
| FrameClock.Clock.CancelIfNeeded | src/clock/Clock.ts:52-57 | a pending frame is cancelled once; after the call none is pending |
| FrameClock.Clock.Start | src/clock/Clock.ts:59-64 | only a stopped clock changes: it becomes started and requests a frame if none is pending |
| FrameClock.Clock.Stop | src/clock/Clock.ts:66-71 | only a running clock changes: it stops and cancels its pending frame |
| FrameClock.Clock.Update | src/clock/Clock.ts:73-109 | a non-advancing time zeroes the deltas without a callback; a throttled frame saves only the raw elapsed time; any other calls back once with the capped, speed-scaled delta times `TARGET_FPMS`, setting `_lastFrame` to `currentTime - (delta % _minElapsedMS)` with JavaScript's `%` when throttling is on, which is less than one interval behind |
| FrameClock.Clock.MaxFPS | src/clock/Clock.ts:129-135 | the getter reads 0 when throttling is off |
| FrameClock.Clock.SetMaxFPS | src/clock/Clock.ts:137-146 | the setter stores `MinElapsedFor`; setting 0 reads back 0 |
| FrameClock.Clock.Tick | src/clock/Clock.ts:30-40 | the pending frame is consumed; a started clock updates and asks for exactly one more frame; a stopped one does nothing |
| FrameClock.FrameDelta | src/clock/Clock.ts:91 | `(currentTime - _lastFrame) | 0` is a signed 32-bit value |
| FrameClock.ThrottleCarry | src/clock/Clock.ts:97 | the new `_lastFrame` lies less than one interval behind the current time |
| FrameClock.FrameDeltaExact | src/clock/Clock.ts:91 | without wrap-around, `| 0` of the difference is its floor |
| EngineCore.Registrations | src/engine/Engine.ts:52-58 | each static system is handed over once, in order, with its effective options |
| EngineCore.EffectiveDefaults | src/engine/Engine.ts:53-57 | with no options a system runs at NORMAL priority and clock rate 60; a given option always beats the default |
| EngineCore.Registry.constructor | src/engine/Engine.ts:17-18 | the static lists start empty |
| EngineCore.Registry.RegisterModule | src/engine/Engine.ts:37-39 | the module is appended to the static list |
| EngineCore.Registry.RegisterSystem | src/engine/Engine.ts:41-43 | the system and its options are appended to the static list |
| EngineCore.StartedLast | src/engine/Engine.ts:45-65 | Started is published once, as the last event of `start`, after every module and system is announced |
| EngineCore.PassHooks | src/system/SystemManager.ts:31-57 | the update pass never calls a render hook and the render pass never calls an update hook |
| EngineCore.TickOrder | src/engine/Engine.ts:67-79 | within a tick every system update comes after BeforeUpdate and before AfterUpdate, which precedes BeforeRender, which precedes every system render |
| EngineCore.ProviderPrecedence | src/engine/Engine.ts:109-119 | `useClass` beats `useFactory`, which beats `useValue` |
| EngineCore.Registered | src/engine/Engine.ts:81-87 | the provider is appended to its key's list, made when missing; other keys are untouched |
| EngineCore.ResolveIn | src/engine/Engine.ts:89-97 | `resolve` fails exactly when the key has no first provider |
| EngineCore.ResolveAllIn | src/engine/Engine.ts:99-107 | `resolveAll` fails exactly when the key was never registered, and otherwise maps every provider in order |
| EngineCore.RegisteredNonEmpty | src/engine/Engine.ts:81-87 | registering keeps every key's list non-empty |
| EngineCore.ResolveIsFirst | src/engine/Engine.ts:89-107 | on registered providers `resolve` fails exactly where `resolveAll` does and otherwise yields its first value |
| EngineCore.RegisterThenResolve | src/engine/Engine.ts:81-107 | registering appends the provider's value to `resolveAll`, keeps `resolve` on the first provider, and leaves other keys alone |
| EngineCore.Engine.constructor | src/engine/Engine.ts:25-35 | the collaborators are new, share one bus, start empty and stopped, and the scene system is registered statically with LOW priority |
| EngineCore.Engine.Start | src/engine/Engine.ts:45-65 | the first call adds every module, then every system with effective options, starts the clock and publishes Started; later calls change nothing |
| EngineCore.Engine.AddModules | src/engine/Engine.ts:50 | every static module is added in order |
| EngineCore.Engine.AddSystems | src/engine/Engine.ts:52-58 | every static system is added in order with its effective options |
| EngineCore.Engine.Update | src/engine/Engine.ts:67-79 | the update pass between BeforeUpdate and AfterUpdate, then the render pass between BeforeRender and AfterRender, in the same dispatch order |
| EngineCore.Engine.RegisterProvider | src/engine/Engine.ts:81-87 | the provider table becomes `Registered` |
| EngineCore.Engine.Resolve | src/engine/Engine.ts:89-97 | `resolve` fails exactly when the key has no provider, and otherwise yields the first registered provider's value |
| EngineCore.Engine.ResolveAll | src/engine/Engine.ts:99-107 | `resolveAll` fails exactly when the key was never registered, and otherwise yields every provider's value in registration order |
| ResourceCache.LoaderResource.constructor | src/resource/loader/Loader.ts:142-145 | a new resource is unfinished, with no data, no children, no handlers and a zero chunk |
| ResourceCache.LoaderResource.Complete | src/resource/middleware/caching.ts:9-12 | completion finishes the resource and fires every store handler registered before, each storing it under its url |
| ResourceCache.Repeat | src/resource/middleware/caching.ts:10-12 | `n` identical events |
| ResourceCache.Handles | src/resource/ResourceManager.ts:60-64 | Cleared carries exactly the old keys with their resources |
| ResourceCache.RemoveWalk | src/resource/ResourceManager.ts:49-58 | `remove` deletes exactly the listed keys |
| ResourceCache.RemoveAnnounces | src/resource/ResourceManager.ts:49-58 | a key is announced exactly when it was cached and listed |
| ResourceCache.RemoveAnnouncesOnce | src/resource/ResourceManager.ts:49-58 | a key is announced at most once however often it is listed |
| ResourceCache.RemoveOnlyListed | src/resource/ResourceManager.ts:49-58 | every announcement names a listed key that was cached, with the handle it was cached under |
| ResourceCache.RemoveSkips | src/resource/ResourceManager.ts:52-56 | a key already removed is never announced again |
| ResourceCache.ResourceManager.constructor | src/resource/ResourceManager.ts:26-34 | a new cache is empty with its one Loaded subscription live |
| ResourceCache.ResourceManager.Add | src/resource/ResourceManager.ts:36-39 | the key now maps to the resource, replacing any earlier entry, so `has` holds and `get` yields it, and Added is published |
| ResourceCache.ResourceManager.Has | src/resource/ResourceManager.ts:41-43 | `has` holds exactly for a key stored in the cache |
| ResourceCache.ResourceManager.Get | src/resource/ResourceManager.ts:41-47 | `get` yields a resource exactly when `has` holds |
| ResourceCache.ResourceManager.Remove | src/resource/ResourceManager.ts:49-58 | the cache and the log become `RemoveWalk` of the keys |
| ResourceCache.ResourceManager.Clear | src/resource/ResourceManager.ts:60-64 | Cleared is published with the old contents, then cache and listener list are emptied |
| ResourceCache.ResourceManager.Destroy | src/resource/ResourceManager.ts:66-69 | every listener still in the list is unsubscribed in order before the cache is cleared; the Loaded subscription ends only if its listener was still listed |
| ResourceCache.ClearThenDestroy | src/resource/ResourceManager.ts:29-69 | after `clear()` then `destroy()` the Loaded subscription is still live, so the next loaded resource is cached again |
| ResourceCache.ResourceManager.OnLoaderLoaded | src/resource/ResourceManager.ts:29-33 | while subscribed, each loaded resource is stored under its name |
| ResourceCache.Unsubscriptions | src/resource/ResourceManager.ts:67 | one Unsubscribed event per listener, in order |
| Caching.Run | src/resource/middleware/caching.ts:4-17 | on a hit the data comes from the cached entry and the resource completes; on a miss exactly one store handler is added and nothing else changes |
| ResourceLoader.PrepareUrl | src/resource/loader/Loader.ts:315-352 | an absolute url is kept as is; a relative one is the base, a slash exactly when neither side brings one, and the url |
| ResourceLoader.JoinAddsNoSlashWhenPresent | src/resource/loader/Loader.ts:324-332 | base and url meet at a slash, and no slash is added when either side already has one |
| ResourceLoader.EmptyBaseKeepsUrl | src/resource/loader/Loader.ts:324-332 | with an empty base a relative url is used unchanged |
| ResourceLoader.ShareSum | src/resource/loader/Loader.ts:164-165 | the new per-member chunk times the new family size is the old family total |
| ResourceLoader.FamilyTotal | src/resource/loader/Loader.ts:164-174 | the rebalanced family's chunks sum to the old total |
| ResourceLoader.ShareNonNegative | src/resource/loader/Loader.ts:164-165 | rebalancing never makes a chunk negative |
| ResourceLoader.ConstSum | src/resource/loader/Loader.ts:247-251 | `n` equal chunks sum to `n` times the chunk |
| ResourceLoader.EvenSplit | src/resource/loader/Loader.ts:246-251 | the chunks `start` hands out sum to the full progress of 100 |
| ResourceLoader.Chunks | src/resource/loader/Loader.ts:249-251 | the chunks of a list of resources, in order |
| ResourceLoader.EvenShareNonNegative | src/resource/loader/Loader.ts:247 | the even share `100 / n` is non-negative |
| ResourceLoader.SetChunks | src/resource/loader/Loader.ts:249-251 | every listed resource gets the given chunk |
| ResourceLoader.CollectIncomplete | src/resource/loader/Loader.ts:156-162 | the loop collects exactly `Incomplete` of the children |
| ResourceLoader.Incomplete | src/resource/loader/Loader.ts:156-162 | exactly the children that are not complete |
| ResourceLoader.PreStep | src/resource/loader/Loader.ts:363-368 | each middleware call is announced first; the chain stops exactly when the resource is complete; a completing middleware leaves no store handler behind |
| ResourceLoader.ChainFrom | src/resource/loader/Loader.ts:361-369 | past the end or once stopped the chain does nothing |
| ResourceLoader.Continue | src/resource/loader/Loader.ts:367 | a run after some events ends where the rest ends, with both event lists |
| ResourceLoader.ContinueAssoc | src/resource/loader/Loader.ts:367 | prefixing events in two steps is prefixing them at once |
| ResourceLoader.FirstCompleting | src/resource/loader/Loader.ts:363-368 | the first middleware from `i` that completes the resource, no earlier one doing so |
| ResourceLoader.PreIndicesAppend | src/resource/loader/Loader.ts:361-369 | the middleware calls of concatenated logs concatenate |
| ResourceLoader.PreIndicesRepeat | src/resource/middleware/caching.ts:10-12 | the store announcements hold no middleware call |
| ResourceLoader.Range | src/resource/loader/Loader.ts:361-369 | the indices from `a` up to `b`, in order |
| ResourceLoader.StepStops | src/resource/loader/Loader.ts:367 | a completing middleware ends the chain with its own call |
| ResourceLoader.StepContinues | src/resource/loader/Loader.ts:367 | a non-completing middleware lets the chain go on with only its call logged |
| ResourceLoader.ChainStopsAtFirstCompletion | src/resource/loader/Loader.ts:357-380 | the middleware run in order up to and including the first that completes the resource and no further; it ends complete exactly when some middleware completed it, with the cached data after a cache hit |
| ResourceLoader.PostCalls | src/resource/loader/Loader.ts:418-422 | one call per after-middleware, in registration order |
| ResourceLoader.FinishOutcome | src/resource/loader/Loader.ts:423-437 | exactly one of Failed and Loaded is published, chosen by the error, after Progress; the callback fires exactly when one was given |
| ResourceLoader.IndexIn | src/resource/loader/Loader.ts:439 | `indexOf` finds the first occurrence |
| ResourceLoader.RemoveFirst | src/resource/loader/Loader.ts:439 | `splice(indexOf(r), 1)` removes exactly one copy of `r` |
| ResourceLoader.RemoveFirstKeepsOrder | src/resource/loader/Loader.ts:439 | the other entries keep their order |
| ResourceLoader.Loader.constructor | src/resource/loader/Loader.ts:89-123 | the base url defaults to empty, the plugins' middleware are installed in order, and the queue starts paused and empty |
| ResourceLoader.Loader.Pre | src/resource/loader/Loader.ts:188-192 | the middleware is appended to the before list |
| ResourceLoader.Loader.Use | src/resource/loader/Loader.ts:198-202 | the middleware is appended to the after list |
| ResourceLoader.Loader.Add | src/resource/loader/Loader.ts:125-182 | adding while loading without a parent, or under a taken name, fails and changes nothing; otherwise the resource is stored and queued with its prepared url; while loading with a parent, the child is appended to the parent's children, the parent, the child and each of the k previously incomplete children all take the same new chunk, the parent's old chunk times k + 1 divided by k + 2, and complete children keep their chunk |
| ResourceLoader.Loader.Insert | src/resource/loader/Loader.ts:142-179 | the accepted `add`: created, stored and queued; while loading with a parent, the parent, the new child and each of the parent's k incomplete children take the parent's old chunk times k + 1 divided by k + 2, and complete children keep their chunk |
| ResourceLoader.Loader.Store | src/resource/loader/Loader.ts:144-179 | the resource is stored under its name and queued at the end |
| ResourceLoader.Loader.OnStart | src/resource/loader/Loader.ts:385-392 | progress 0, loading, Started published |
| ResourceLoader.Loader.OnComplete | src/resource/loader/Loader.ts:397-404 | progress 100, not loading, Complete published |
| ResourceLoader.Loader.Start | src/resource/loader/Loader.ts:235-261 | nothing while loading; an idle queue starts and completes at once; otherwise every pending task gets 100/n, Started fires and the queue resumes |
| ResourceLoader.Loader.Launch | src/resource/loader/Loader.ts:244-258 | the branch of `start` for a queue that is not idle: every pending task gets 100/n, progress resets to 0, Started fires and the queue is unpaused and loading |
| ResourceLoader.Loader.Distribute | src/resource/loader/Loader.ts:246-251 | every pending task gets 100/n and the chunks sum to 100 |
| ResourceLoader.Loader.Reset | src/resource/loader/Loader.ts:207-230 | progress 0, not loading, pending list emptied and paused, every load binding detached, every loading resource aborted, table emptied |
| ResourceLoader.Loader.AbortAll | src/resource/loader/Loader.ts:215-225 | each resource's binding is detached and a loading one aborted |
| ResourceLoader.Loader.Destroy | src/resource/loader/Loader.ts:455-457 | `destroy` is `reset` |
| ResourceLoader.Loader.ProcessNext | src/resource/loader/Loader.ts:357-415 | paused or empty, nothing happens; otherwise the head task is taken and runs the before-middleware as `PreChain`: the log gains the chain's events, the cache its store, the resource the chain's data and store handlers; a resource the chain completed is parsed at once and the after-middleware calls are logged, any other is left running, loading and bound to `_onLoad` |
| ResourceLoader.Loader.LoadResource | src/resource/loader/Loader.ts:357-380 | the middleware run as `ChainFrom` says; a complete resource goes to `_onLoad` and the after-middleware, any other is bound and starts loading |
| ResourceLoader.Loader.RunPre | src/resource/loader/Loader.ts:361-369 | the before-middleware chain on the fields is `PreChain` |
| ResourceLoader.Loader.RunFrom | src/resource/loader/Loader.ts:361-369 | each `next` goes on to the following middleware unless the resource is complete, as `ChainFrom` from `i` |
| ResourceLoader.Loader.RunOne | src/resource/loader/Loader.ts:363-368 | one middleware announced and run is `PreStep` |
| ResourceLoader.Loader.OnLoad | src/resource/loader/Loader.ts:410-422 | the binding is cleared, the resource moves from running to parsing, and every after-middleware is called in order |
| ResourceLoader.Loader.CallPost | src/resource/loader/Loader.ts:418-422 | one call per after-middleware, in order |
| ResourceLoader.Loader.ResourceFinished | src/resource/loader/Loader.ts:374-422 | a load ending completes the resource, fires its store handlers, and runs `_onLoad` exactly when it was still bound |
| ResourceLoader.Loader.FinishPost | src/resource/loader/Loader.ts:423-444 | after the after-middleware, progress grows by the chunk capped at 100, the outcome is published, the resource leaves the parsing list, and the loader completes exactly when nothing is pending, running or parsing |
| ResourceLoader.Loader.Advance | src/resource/loader/Loader.ts:423-439 | the callback fires once, progress becomes `min(100, progress + chunk)` and never decreases, the outcome is published, the resource leaves the parsing list |
| ResourceLoader.Loader.Announce | src/resource/loader/Loader.ts:424-437 | the callback, Progress, then Failed or Loaded |
| ResourceLoader.Loader.Rebalance | src/resource/loader/Loader.ts:152-176 | the child is appended, the parent, its incomplete children and the child all get the new share, complete children keep theirs |
| Messaging.MessageBus.constructor | src/messaging/MessageBus.ts:12-17 | a new bus has published nothing |
| Messaging.MessageBus.Publish | src/messaging/MessageBus.ts:19-21 | `publish` appends exactly its event to the log |
| Messaging.EachAppend | src/system/SystemManager.ts:34-42 | a `forEach` pass over a concatenation is the pass over each part in turn |
| Messaging.EachContains | src/system/SystemManager.ts:34-42 | an event occurs in a pass exactly when some element's turn emits it |

## Left out

- The message bus's emitter (`eventemitter2`), wildcard topics, async subscribers and `subscribe`/`destroy` of the bus: a publish is one entry appended to the log. Event arguments other than the scene, system, module or resource concerned (`delta`, the engine, the loader, the resource table) are not recorded.
- Scenes.SceneManager.DrainQueue: scene hooks and bus listeners are modelled as never calling back into the scene manager, so no op is enqueued while the queue drains; the source's `while` loop would also run such ops, and the model drains only the ops queued at entry (ProcessQueue likewise).
- Exceptions thrown by scene, system or module hooks and by signal handlers: hooks are modelled as returning normally. The `.catch` of a scene load also catching throws from the Loaded handlers and from `create` is therefore not modelled.
- The promise timing of a scene's `load()`: its settlement is the explicit steps `LoadResolved` and `LoadRejected`.
- `requestAnimationFrame`/`cancelAnimationFrame`: the clock keeps the pending-request flag and logs `RequestFrame`/`CancelFrame`; `performance.now()` is a parameter.
- The clock's `FPS` and `minFPS` getters and the `minFPS` setter: floating-point reciprocals with no bookkeeping; `_maxElapsedMS` therefore stays at its initial 100 (only its positivity is used).
- Floating-point rounding: progress, chunks, speeds and frame intervals are exact `real`s, so the drift of progress chunks across repeated rebalances is not modelled.
- Fractional timestamps: `performance.now()` and the `requestAnimationFrame` callback's time are fractional milliseconds in the source; the clock models them as `int` milliseconds, so sub-millisecond elapsed times and their rounding are not modelled.
- `AsyncQueue`: modelled as a pending list, a running set and a paused flag. Concurrency-limited parallel fetching is not modelled: `ProcessNext` takes one task at a time, and `concurrency` has no effect. `kill` empties the pending list only.
- `LoaderResource` internals (fetch/XHR, `load`, `abort`, timeouts, its signals): only the fields the loader and the cache touch are modelled, with `loading` and `aborted` as flags and the end of a load as the explicit step `ResourceFinished`.
- `parseUri`: its verdict is the parameter `parsedAbsolute`.
- The default-query-string branch of `_prepareUrl`: `_defaultQueryString` is never set, so the branch is dead.
- A custom before-middleware is abstract: whether middleware `i` completes the resource is the parameter `marks`; after-middleware are only logged calls.
- The loader's `onStart`/`onProgress`/`onError`/`onLoad`/`onComplete` registration methods and its `concurrency`/`baseUrl` accessors: signal subscription and plain field access.
- src/resource/ResourceModule.ts, src/resource/ScenePlugin.ts, src/resource/SceneInjector.ts: event and dependency-injection wiring with no logic of its own. The caching middleware closes over one `ResourceManager`, passed explicitly.
- src/scene/SceneSystem.ts and the `Engine.scenes` wiring: the scene system is a system definition registered by the engine constructor; its delegation to the scene manager is covered by `Scenes.SceneManager.Update` and `Render`.
- src/scene/Scene.ts: the initial scene state is Pending and not visible; the misaligned constructor arguments are not modelled.
- SceneProxy: the source forwards `this._scene.key`, but `Scene` declares no `key` (only `name`, which the constructor sets from `state.key`); `ownKey` is taken to be that registered name, the key under which the scene manager holds the scene.
- src/engine/EngineFactory.ts and src/engine/EngineSettings.ts: they call a constructor and an `init()` that the engine does not define. The `SystemPriority` values are not part of this model, so LOW and NORMAL are parameters.
- `Partial<SystemOptions>` is a record of two optional fields; object spread over other keys is not modelled.
- Prototype keys of plain objects (`"constructor"`, `"toString"`, ...) are not modelled: the provider dictionary and the resource cache's `_cache` are Dafny maps, so `has`, `get` and `remove` on the cache, and `resolve` on a provider key, see only keys that were stored, where the source also finds inherited prototype members.
- ResourceLoader.Loader.Add: a parent resource must belong to this loader's table; the source also accepts a parent from another loader (its children and chunk are then updated the same way), which the model does not cover because the rebalance is stated over this loader's resources.
- `new provider.useClass(this)` and `provider.useFactory(this)`: their results are the opaque `Constructed`/`Produced` values.
- src/utils/url.ts, the event-constant classes, the type-only files, `isUpdateable`/`isRenderable`, src/index.ts and rollup.config.js: no logic to model.
- ResourceLoader.Loader.Rebalance: the sum of the family's chunks is stated by the lemma `FamilyTotal` rather than in the method's own contract.
- ResourceLoader.Loader.Reset: the table is walked in an unspecified order; the order is irrelevant as each step touches one resource.
- ResourceLoader.ChainFrom: its own contract states only where the chain ends; the order and the stopping rule are stated by `ChainStopsAtFirstCompletion`.
- ResourceLoader.Loader.RunFrom: `eachSeries`' nested `next` callbacks become a recursive call per middleware.
- EngineCore.Engine.Start: of the clock it states only that it is started afterwards; the request it makes is stated by `FrameClock.Clock.Start`.
- FrameClock.Clock.Tick: what the inner `update` does is stated by `Update` and not repeated.
- FrameClock.MaxFPSOf: its own contract states only the disabled case; the round trip for other rates is `MaxFPSRoundTrip`.
- FrameClock.Clock.MaxFPS: its own contract states only the disabled case, as `MaxFPSOf`.
