# rendera-control, modelled in Dafny

This project models the bookkeeping core of rendera-control. That is a WebGL model
renderer ("rendera") plus a Construct 3 plugin ("renderaController") that drives it from
a host object. Everything is written as immutable datatypes and pure functions. WebGL
bindings, transforms, quaternions and animation data are opaque values. Calls the
controller makes into the engine go to an append-only effects log and are not
performed.

| file | module | models |
|---|---|---|
| `common.dfy` | `Common` | `Option`, `Vec3`, `Quat`, `position[axis]` indexing, distinctness of sequences |
| `decimal.dfy` | `Decimal` | decimal printing of integers, as template literals print integers of magnitude below 1e21, with its parse round trip |
| `assets.dfy` | `ModelAssets` | what the model loader holds for a model id: animation names, renderable nodes, primitives |
| `instance_manager.dfy` | `InstanceManager` | the instance table, id counter, model groups, dirty set, default animation, setters, animation gating |
| `manager_invariants.dfy` | `ManagerInvariants` | the table/group invariant, its preservation by every operation, ids never reused |
| `model_handle.dfy` | `ModelHandle` | the `Model` handle, which forwards to its manager |
| `node_visibility.dfy` | `NodeVisibility` | the per-instance tri-state: all enabled, an explicit disabled set, or all disabled |
| `node_filtering.dfy` | `NodeFiltering` | lookup names, the `'0'/'1'` visibility key and its decoding, render batches, the render loop's node skip |
| `gpu_resource_cache.dfy` | `GpuResourceCache` | save/restore of four GL bindings over an abstract GL state |
| `controller_state.dfy` | `ControllerState` | the controller's fields, deferred commands and the effects log |
| `commands.dfy` | `Commands` | the bodies of the deferred action closures and the FIFO queue drain |
| `runtime_instance.dfy` | `RuntimeInstance` | bone-position memo, model creation with retry, callbacks and events, per-tick sync, release, construction |
| `actions.dfy` | `Actions` | the immediate-or-queue dispatch of every action |
| `expressions.dfy` | `Expressions` | `Double`, `AnimationSpeed`, `ScaleX/Y/Z` |

Notes on how the source is read:

- `enableNode` clears the all-disabled flag. Every node not individually disabled
  becomes visible again, not only the named one. `NodeVisibility.EnableNode` and
  `NodeVisibility.EnableOneAfterDisableAll` state that.
- `getDisabledNodes` returns `["*"]` both when all nodes are disabled and when the
  only individually disabled node is literally named `*`. `NodeVisibility.GetDisabledNodes`
  states exactly that.
- JavaScript truthiness is modelled where the code relies on it:
  - an empty pending model path is "no path";
  - an empty node name means "unnamed";
  - an empty requested animation name means "none requested";
  - a missing `data.animationName` is read as `""`.
- The controller runs against an engine whose API is larger than the reference
  `InstanceManager.ts`: it has `removeInstance`, callback registration and an
  `animationSpeed` accessor. So the controller's engine calls are recorded as
  `ControllerState.Effect`s, not applied to an `InstanceManager.Manager`.
- Each queued closure becomes a `ControllerState.Command`. The closure's body is
  `Commands.RunCommand`.
- A creation attempt's outcome is a parameter (`CreateOutcome`): a model, `null`, or a
  throw. So is the engine's answer to a bone lookup.
- If the engine cannot unregister callbacks, the controller's "registered" flag stays
  set across `_createModel`'s teardown. A later model then never registers its own
  callback. The model keeps that behaviour: `RuntimeInstance.TearDown` clears the flag
  only through an unregistration, `RuntimeInstance.KeptCallbackFlag` names the flag
  the teardown leaves, and `RuntimeInstance.CreateModel` carries it into the attempt.

## Model

| member | source | states |
|---|---|---|
| InstanceManager.DefaultAnimation | rendera-reference/InstanceManager.ts:123-130 | a clip is chosen iff the model has animations; a requested, non-empty, known name is kept; otherwise the first clip is chosen; with no animations the clip is null even when one was requested |
| InstanceManager.AddToModelGroup | rendera-reference/InstanceManager.ts:300-307 | the id's model group gains exactly that id (created when missing); every other group is unchanged |
| InstanceManager.RemoveFromModelGroup | rendera-reference/InstanceManager.ts:309-317 | the group loses exactly that id; a group left empty is pruned; other groups are untouched |
| InstanceManager.UpdateAnimation | rendera-reference/InstanceManager.ts:319-324 | a no-op unless the clip is non-null and playing; otherwise only that instance's animation state advances and the id becomes dirty |
| InstanceManager.CreateModel | rendera-reference/InstanceManager.ts:107-166 | fails with RESOURCE_NOT_FOUND iff the model id is not loaded; on success the new id is the old counter, the counter grows by one, only the new entry is added to the table and to its model group, and the new instance has origin position, identity rotation, unit scale, time 0, speed 1, loop on, not playing, and the default clip |
| InstanceManager.DeleteModel | rendera-reference/InstanceManager.ts:541-559 | an unknown id changes nothing; otherwise the id leaves the table, the dirty set and its model group, and nothing else changes |
| InstanceManager.SetModelPosition | rendera-reference/InstanceManager.ts:240-246 | unknown instance: no change; live instance: only its position changes and it becomes dirty |
| InstanceManager.SetModelRotation | rendera-reference/InstanceManager.ts:248-254 | unknown instance: no change; live instance: only its rotation changes and it becomes dirty |
| InstanceManager.SetModelScale | rendera-reference/InstanceManager.ts:256-262 | unknown instance: no change; live instance: only its scale changes and it becomes dirty |
| InstanceManager.SetModelNormalMapEnabled | rendera-reference/InstanceManager.ts:561-567 | unknown instance: no change; live instance: only its normal-map flag changes and it becomes dirty |
| InstanceManager.StartAnimation | rendera-reference/InstanceManager.ts:526-539 | sets the clip, time 0 and playing; speed and loop are overwritten (defaults 1 and true) only when options are passed |
| InstanceManager.PlayModelAnimation | rendera-reference/InstanceManager.ts:271-280 | unknown instance: no change; otherwise only that instance's animation state is restarted |
| InstanceManager.StopModelAnimation | rendera-reference/InstanceManager.ts:289-294 | only the current clip of that instance becomes null, which stops its updates |
| InstanceManager.UpdateModelAnimation | rendera-reference/InstanceManager.ts:282-287 | an unknown or idle instance is left alone; an animating one advances and becomes dirty |
| InstanceManager.SetModelBindPose | rendera-reference/InstanceManager.ts:264-269 | unknown instance: no change; otherwise only that instance's animation state is set to the controller's bind pose |
| InstanceManager.UpdateInstance | rendera-reference/InstanceManager.ts:172-185 | unknown id: no change; otherwise the animation advances only when animating, and the world matrix is recomputed only when the instance is dirty |
| InstanceManager.Initialize | rendera-reference/InstanceManager.ts:45-71 | clears the dirty set and keeps the table, groups and counter |
| InstanceManager.SetDebugShadowMap | rendera-reference/InstanceManager.ts:569-571 | only the debug flag changes |
| ManagerInvariants.EmptyIsValid | rendera-reference/InstanceManager.ts:12-27 | the empty manager (counter 1) satisfies the invariant |
| ManagerInvariants.ChangesOnlyPreservesValid | rendera-reference/InstanceManager.ts:240-262 | an update that rewrites one live instance's data, not its id, and only dirties that id keeps the invariant |
| ManagerInvariants.CreatePreservesValid | rendera-reference/InstanceManager.ts:107-166 | a successful creation keeps the invariant (groups hold exactly their live instances, none empty) and hands out an id that was not live |
| ManagerInvariants.DeletePreservesValid | rendera-reference/InstanceManager.ts:541-559 | deletion keeps the invariant and leaves the id in no group |
| ManagerInvariants.DeleteIsIdempotent | rendera-reference/InstanceManager.ts:541-543 | deleting twice is deleting once |
| ManagerInvariants.StepPreservesValid | rendera-reference/InstanceManager.ts:118-121 | every operation keeps the invariant; only a successful creation moves the counter, by one, handing out the old counter |
| ManagerInvariants.TransformStepPreservesValid | rendera-reference/InstanceManager.ts:240-262 | the transform and normal-map setters keep the invariant and the counter |
| ManagerInvariants.AnimationStepPreservesValid | rendera-reference/InstanceManager.ts:264-294 | play, stop, update and bind pose keep the invariant and the counter |
| ManagerInvariants.FailedCreateAllocatesNothing | rendera-reference/InstanceManager.ts:109-121 | a creation for an unloaded id changes nothing, so the next successful creation gets the same id |
| ManagerInvariants.IdsNeverReused | rendera-reference/InstanceManager.ts:118-121 | over any operation sequence the handed-out ids strictly increase, none was live before, and the invariant holds at the end |
| ModelHandle.SetNormalMapEnabled | rendera-reference/Model.ts:12-14 | unknown instance: no change; live instance: only its normal-map flag changes, it becomes dirty, and no other instance, group or counter changes |
| ModelHandle.SetPosition | rendera-reference/Model.ts:16-18 | unknown instance: no change; live instance: only its position changes, it becomes dirty, and nothing else in the manager changes |
| ModelHandle.SetRotation | rendera-reference/Model.ts:20-22 | unknown instance: no change; live instance: only its rotation changes, it becomes dirty, and nothing else in the manager changes |
| ModelHandle.SetScale | rendera-reference/Model.ts:24-26 | unknown instance: no change; live instance: only its scale changes, it becomes dirty, and nothing else in the manager changes |
| ModelHandle.PlayAnimation | rendera-reference/Model.ts:28-30 | the name and the options reach `startAnimation` unchanged; only that instance's animation state changes, the dirty set is kept, and a deleted instance is a no-op |
| ModelHandle.UpdateAnimation | rendera-reference/Model.ts:32-34 | an animating live instance advances by the given time and becomes dirty, nothing else changes; otherwise the manager is unchanged |
| ModelHandle.StopAnimation | rendera-reference/Model.ts:36-38 | only the instance's clip becomes null, the dirty set is kept, and a deleted instance is a no-op |
| ModelHandle.SetBindPose | rendera-reference/Model.ts:40-42 | only the instance's animation state becomes the bind pose, the dirty set is kept, and a deleted instance is a no-op |
| ModelHandle.SetQuaternion | rendera-reference/Model.ts:45-51 | the rotation becomes `[x, y, z, w]`, the instance becomes dirty, and nothing else changes; a deleted instance is a no-op |
| ModelHandle.SetQuaternionIsSetRotation | rendera-reference/Model.ts:45-51 | `setQuaternion(x, y, z, w)` has exactly the effect of `setRotation([x, y, z, w])` |
| ModelHandle.DeletedHandleIsInert | rendera-reference/Model.ts:12-42 | once the instance is deleted, every call through the handle leaves the manager unchanged |
| NodeVisibility.SetAdd | rendera-reference/Model-node-visibility.ts:52 | `Set.add`: the members are the old ones plus the name, still without duplicates |
| NodeVisibility.SetDelete | rendera-reference/Model-node-visibility.ts:39 | `Set.delete`: the members are the old ones minus the name; deleting an absent name changes nothing |
| NodeVisibility.EnableAllNodes | rendera-reference/Model-node-visibility.ts:25-30 | every name is enabled and the disabled set is empty |
| NodeVisibility.DisableAllNodes | rendera-reference/Model-node-visibility.ts:32-36 | every name is disabled and the individual disabled set is untouched |
| NodeVisibility.EnableNode | rendera-reference/Model-node-visibility.ts:38-49 | the name is enabled, the all-disabled flag is cleared, and every other name is enabled iff it was not individually disabled |
| NodeVisibility.DisableNode | rendera-reference/Model-node-visibility.ts:51-55 | the name is disabled and every other name keeps its status |
| NodeVisibility.GetDisabledNodes | rendera-reference/Model-node-visibility.ts:68-73 | `["*"]` when all are disabled; otherwise exactly the disabled names, without duplicates |
| NodeVisibility.InitialShowsAll | rendera-reference/Model-node-visibility.ts:15-20 | a new handle reports every name enabled |
| NodeVisibility.EnableAllIsIdempotent | rendera-reference/Model-node-visibility.ts:25-30 | enabling all twice is enabling all once |
| NodeVisibility.EnableOneAfterDisableAll | rendera-reference/Model-node-visibility.ts:38-49 | after disable-all, enabling one name also re-enables every name not individually disabled |
| NodeVisibility.DisableThenEnable | rendera-reference/Model-node-visibility.ts:38-55 | disabling then enabling a name restores it and leaves the other names as they were |
| NodeFiltering.LookupName | rendera-reference/InstanceManager-node-filtering.ts:113 | a node's name when it is non-empty, else `node_<index>` |
| NodeFiltering.UnnamedNodesHaveDistinctNames | rendera-reference/InstanceManager-node-filtering.ts:33 | unnamed nodes with different indices get different lookup names |
| NodeFiltering.CreateVisibilityKey | rendera-reference/InstanceManager-node-filtering.ts:109-119 | one character per renderable node; character i is `'1'` iff node i is enabled and `'0'` iff it is not |
| NodeFiltering.ParseVisibilityKey | rendera-reference/InstanceManager-node-filtering.ts:124-134 | the nodes at `'1'` positions, in order, scanning only the first min(key length, node count) positions |
| NodeFiltering.KeyRoundTrip | rendera-reference/InstanceManager-node-filtering.ts:109-134 | decoding an instance's key gives exactly the nodes it shows, in order |
| NodeFiltering.MarkedPrefix | rendera-reference/InstanceManager-node-filtering.ts:124-134 | on every prefix, decoding a key that agrees with a visibility gives exactly the shown nodes of that prefix |
| NodeFiltering.AddToGroup | rendera-reference/InstanceManager-node-filtering.ts:86-89 | adding an id to its key's group (created when new) keeps keys distinct, groups homogeneous, members distinct and disjoint, and adds exactly that id |
| NodeFiltering.GroupByKey | rendera-reference/InstanceManager-node-filtering.ts:77-90 | one group per distinct key; each group holds exactly the instances with a handle and that key, each once, in no other group |
| NodeFiltering.BatchesFromGroups | rendera-reference/InstanceManager-node-filtering.ts:93-101 | one batch per group, in group order, carrying the group's members and the decode of its key |
| NodeFiltering.BatchesPartition | rendera-reference/InstanceManager-node-filtering.ts:79-101 | an instance is in some batch iff it is in the group and has a handle, and it is in only one batch |
| NodeFiltering.BatchesFollowKeys | rendera-reference/InstanceManager-node-filtering.ts:93-101 | every instance in a batch shows exactly the batch's nodes, and instances in different batches have different keys |
| NodeFiltering.CreateRenderBatches | rendera-reference/InstanceManager-node-filtering.ts:71-104 | no batches for unloaded model data; otherwise batches partition the instances that have a handle, are non-empty and duplicate-free, and carry the nodes their instances show; keys differ across batches |
| NodeFiltering.PrimitiveDraws | rendera-reference/InstanceManager-node-filtering.ts:41-62 | a draw is issued exactly for the node's primitives that have an index buffer |
| NodeFiltering.NodeDraws | rendera-reference/InstanceManager-node-filtering.ts:31-64 | draws exactly for the indexed primitives of the nodes the instance shows |
| NodeFiltering.RenderDraws | rendera-reference/InstanceManager-node-filtering.ts:13-66 | draws exactly for live instances of the group, their shown nodes and indexed primitives; missing instances are skipped |
| GpuResourceCache.Bound2D | rendera-reference/GPUResourceCache.ts:23 | the TEXTURE_2D binding of the active unit, null when nothing was bound there |
| GpuResourceCache.BindVertexArray | rendera-reference/GPUResourceCache.ts:44 | only the vertex-array binding changes |
| GpuResourceCache.BindTexture2D | rendera-reference/GPUResourceCache.ts:45 | only the active unit's 2D texture changes |
| GpuResourceCache.UseProgram | rendera-reference/GPUResourceCache.ts:46 | only the current program changes |
| GpuResourceCache.BindElementArrayBuffer | rendera-reference/GPUResourceCache.ts:47 | only the element-array-buffer binding changes |
| GpuResourceCache.Read | rendera-reference/GPUResourceCache.ts:20-29 | the four queried bindings of a GL state |
| GpuResourceCache.CacheModelMode | rendera-reference/GPUResourceCache.ts:17-38 | records the VAO, 2D texture, program and element-array buffer, and changes no GL state |
| GpuResourceCache.RestoreModelMode | rendera-reference/GPUResourceCache.ts:40-49 | no snapshot: no change; otherwise the four bindings read back as the snapshot, nothing else changes, and the snapshot is kept |
| GpuResourceCache.RestoreBeforeCacheIsNoop | rendera-reference/GPUResourceCache.ts:40-49 | restoring before any cache leaves the GL state and the cache unchanged |
| GpuResourceCache.CacheChangeRestore | rendera-reference/GPUResourceCache.ts:17-49 | cache, arbitrary changes, restore: the four bindings are the cached ones, with the texture rebound on the unit active at restore time |
| GpuResourceCache.SecondCacheReplacesFirst | rendera-reference/GPUResourceCache.ts:31-36 | a second cache replaces the first snapshot |
| GpuResourceCache.RestoreIsIdempotent | rendera-reference/GPUResourceCache.ts:40-49 | restoring twice is restoring once |
| GpuResourceCache.CacheThenRestoreIsIdentity | rendera-reference/GPUResourceCache.ts:17-49 | restoring straight after caching changes nothing, when the active unit has a binding entry |
| ControllerState.CallModel | src/c3runtime/actions.ts:44 | `this._currentModel?.f(...)`: with no model nothing happens; with one, exactly one call is logged and nothing else changes |
| Commands.EulerOrderOf | src/c3runtime/actions.ts:177-216 | orders 0 to 4 select XYZ, XZY, YXZ, YZX, ZXY; 5 and every other value select ZYX |
| Commands.Calls | src/c3runtime/instance.ts:355-358 | one call on the model per command, the i-th being the i-th command's call |
| Commands.CallsStep | src/c3runtime/instance.ts:355-358 | logging the head command's call and then the rest's logs the calls of the whole list |
| Commands.RunCommand | src/c3runtime/actions.ts:22-317 | a deferred action body logs one model call only when a model exists; Play and Stop set the playing clip either way; Position and Rotation set their override only with a model; every other field (queue, scale, callbacks, colour, flags, properties, memo) is kept |
| Commands.RunAll | src/c3runtime/instance.ts:355-358 | runs commands front to back; with a model the new effects are exactly `Calls(id, cmds)`, one call per command in queue order; without one nothing is logged; only the playing clip, the overrides and the last-synced position can change |
| Commands.ExecuteQueuedCommands | src/c3runtime/instance.ts:352-361 | drains the queue, leaving it empty; with a model the new effects are exactly the queued commands' calls, in queue order; otherwise only what the commands write (playing clip, override flags, last synced position) changes |
| Commands.RunAllAppend | src/c3runtime/instance.ts:355-358 | running `a + b` is running `a`, then `b` |
| Commands.RunAllIgnoresQueue | src/c3runtime/instance.ts:355-358 | commands do not read the queue, so its contents do not change what they do |
| Commands.DrainRunsHeadFirst | src/c3runtime/instance.ts:352-361 | draining runs the head first, then drains the rest |
| Commands.DrainInOrder | src/c3runtime/instance.ts:352-361 | draining `a + b` runs all of `a` before any of `b` |
| Commands.DrainEffectsFollowQueue | src/c3runtime/instance.ts:352-361 | with a model, the i-th new effect is the one the i-th queued command logs after the first i commands ran |
| RuntimeInstance.CachedBonePosition | src/c3runtime/instance.ts:139-157 | a new tick empties the memo and stamps it; a present key (even a null result) is answered without fetching; otherwise the fetched result is stored and returned; other entries are kept |
| RuntimeInstance.SecondLookupHitsCache | src/c3runtime/instance.ts:149-156 | within a tick the fetcher runs at most once per key and a null answer is cached too |
| RuntimeInstance.NameKey | src/c3runtime/instance.ts:167 | the memo key is `name:` followed by the bone name |
| RuntimeInstance.IndexKey | src/c3runtime/instance.ts:182 | the memo key is `index:` followed by the decimal index |
| RuntimeInstance.NameAndIndexKeysDiffer | src/c3runtime/instance.ts:159-187 | a name lookup and an index lookup never share a memo entry |
| RuntimeInstance.AxisOf | src/c3runtime/instance.ts:171 | 0 for a null position; otherwise the requested component, undefined outside 0..2 |
| RuntimeInstance.BonePosition | src/c3runtime/instance.ts:159-172 | 0 with no model or no manager, leaving the memo alone; otherwise the axis of the memoised position |
| RuntimeInstance.BonePositionByName | src/c3runtime/instance.ts:159-172 | the shared lookup under the `name:` key |
| RuntimeInstance.BonePositionByIndex | src/c3runtime/instance.ts:174-187 | the shared lookup under the `index:` key |
| RuntimeInstance.SameTickSameAnswer | src/c3runtime/instance.ts:139-172 | two reads of a bone in one tick agree, whatever the engine says the second time |
| RuntimeInstance.RegisterAnimationCallbacks | src/c3runtime/instance.ts:435-487 | registers (one logged registration, flag set) iff there is a model, the flag is clear and the engine offers registration; otherwise no change |
| RuntimeInstance.UnregisterAnimationCallbacks | src/c3runtime/instance.ts:489-499 | clears the flag and logs one unregistration iff there is a model, the flag is set and the engine offers unregistration; otherwise no change |
| RuntimeInstance.RegisterIsIdempotent | src/c3runtime/instance.ts:437-438 | registering twice registers once |
| RuntimeInstance.UnregisterUndoesRegister | src/c3runtime/instance.ts:435-499 | with a capable engine, unregister after register restores the state apart from the two log entries |
| RuntimeInstance.EventTrigger | src/c3runtime/instance.ts:453-482 | COMPLETE/complete, LOOP/loop, START/start, STOP/stop map to their four triggers, each iff; nothing else triggers |
| RuntimeInstance.OnAnimationEvent | src/c3runtime/instance.ts:451-483 | a known event records the clip name (`""` when missing) and fires its trigger; only completion clears the playing clip; unknown events change nothing |
| RuntimeInstance.ApplyInitialRotation | src/c3runtime/instance.ts:525-578 | nothing when all three initial angles are zero; otherwise one rotation call from the angles and the order |
| RuntimeInstance.ApplyInitialColorAndOpacity | src/c3runtime/instance.ts:512-523 | with a model: pushes opacity then tint and remembers both; without one: no change |
| RuntimeInstance.TryCreatePendingModel | src/c3runtime/instance.ts:363-399 | no path, no manager, a null result or a throw leave everything, path and queue included, for a retry; on success the model is set, the path cleared and the queue emptied, and the new effects are exactly `CreationEffects`: the placement, the initial rotation when one is set, each queued command's call in queue order, `RegisterCallback` iff the flag was clear and the engine offers registration, opacity, tint, and OnModelCreated; the playing clip, overrides and last-synced position are the ones running the queue left; the flag ends set iff it was set or registration is offered; every other field (scale, rotation angle and settings, model name, sprite visibility, memo, last animation name) is kept (`AdoptedFrom`) |
| RuntimeInstance.AdoptModel | src/c3runtime/instance.ts:370-393 | the success path: the state `PlaceAndDrain` leaves, with the callback flag, the remembered colour and the log replaced; the log gains exactly `CreationEffects`; only the fields `AdoptedFrom` allows differ from the input |
| RuntimeInstance.PlaceAndDrain | src/c3runtime/instance.ts:370-382 | the model is adopted and the path cleared; the new effects are the placement at the host position, the initial rotation when one is set, then each queued command's call in queue order; the queue ends empty; apart from what the queued commands write (playing clip, override flags, last synced position) nothing else changes |
| RuntimeInstance.Place | src/c3runtime/instance.ts:371-379 | model set and path cleared; the log gains the placement and the initial-rotation call, and nothing else changes |
| RuntimeInstance.PlaceIsPositionThenInitialRotation | src/c3runtime/instance.ts:371-379 | `Place` equals the source's steps: set the model, push the position through the model, then `_applyInitialRotation` |
| RuntimeInstance.InitialRotationCalls | src/c3runtime/instance.ts:379 | one call exactly when an initial angle is non-zero, none otherwise |
| RuntimeInstance.CreationEffects | src/c3runtime/instance.ts:376-393 | at least four effects, the placement first and OnModelCreated last |
| RuntimeInstance.CreationEffectsCompose | src/c3runtime/instance.ts:376-393 | the placement-and-drain effects followed by the announcement effects are the creation effects |
| RuntimeInstance.Announce | src/c3runtime/instance.ts:386-393 | the state given, with the flag set iff it was set or registration is offered, colour remembered, and the log extended by `RegisterCallback` (iff newly registered), opacity, tint and OnModelCreated |
| RuntimeInstance.TearDown | src/c3runtime/instance.ts:404-414 | with a model and a manager: the log gains `UnregisterCallback` iff the flag was set and the engine offers unregistration, then `RemoveInstance` of the old id; the flag is cleared only by that unregistration; model nulled, queue emptied, nothing else changes; otherwise no change |
| RuntimeInstance.CreateModel | src/c3runtime/instance.ts:402-428 | without a manager only the path becomes pending and an old model stays; with one, the teardown runs first (the old instance removed, callbacks unregistered when offered, the queue dropped) and one attempt follows: on success the new effects after the teardown are `CreationEffects` and the flag is `KeptCallbackFlag` or-ed with registration being offered; on failure the teardown state with the path pending; on success only the fields `AdoptedFrom` allows differ from the teardown state |
| RuntimeInstance.Recreate | src/c3runtime/instance.ts:404-423 | `_createModel` once the manager exists: the teardown, then one attempt, with the success and failure results of `CreateModel` |
| RuntimeInstance.TornDown | src/c3runtime/instance.ts:404-414 | after the teardown there is no model, the flag is `KeptCallbackFlag`, the queue is empty iff there was a model, a model-less state is unchanged, and an old instance's removal is logged |
| RuntimeInstance.AttemptPath | src/c3runtime/instance.ts:417-423 | the path becomes pending and one attempt runs: success gives the creation effects after the given state, failure leaves the path pending; on success only the fields `AdoptedFrom` allows differ |
| RuntimeInstance.SyncTarget | src/c3runtime/instance.ts:219 | the host position, using the total elevation when the object has a parent |
| RuntimeInstance.SyncPosition | src/c3runtime/instance.ts:216-231 | a position call is logged iff there is a model, no override, and x, y or z changed; the last-synced position is then updated; nothing else changes |
| RuntimeInstance.SyncRotation | src/c3runtime/instance.ts:234-254 | a rotation call is logged iff there is a model, no override, and the angle changed; the last-synced angle is then updated |
| RuntimeInstance.SyncColor | src/c3runtime/instance.ts:257-272 | with a model the log gains exactly opacity then tint iff either changed; without one nothing; both are then remembered and nothing else changes |
| RuntimeInstance.SyncPositionIsIdempotent | src/c3runtime/instance.ts:216-231 | a second position sync over the same host state does nothing |
| RuntimeInstance.SyncRotationIsIdempotent | src/c3runtime/instance.ts:234-254 | a second rotation sync over the same host state does nothing |
| RuntimeInstance.SyncColorIsIdempotent | src/c3runtime/instance.ts:257-272 | a second colour sync over the same host state does nothing |
| RuntimeInstance.SetPositionOverride | src/c3runtime/instance.ts:502-505 | sets the position override flag and nothing else |
| RuntimeInstance.SetRotationOverride | src/c3runtime/instance.ts:507-510 | sets the rotation override flag and nothing else |
| RuntimeInstance.OverridesSuppressSync | src/c3runtime/instance.ts:216-254 | once both overrides are set, the position and rotation syncs push nothing and change nothing |
| RuntimeInstance.SyncModel | src/c3runtime/instance.ts:213-279 | the log gains exactly: the position call iff not overridden and moved, the rotation call iff not overridden and turned, opacity and tint iff either changed, then the animation update; synced values remembered (an overridden angle is kept); both override flags end cleared; no other field changes |
| RuntimeInstance.Tick | src/c3runtime/instance.ts:201-281 | without a manager nothing happens; one creation attempt while a path is pending and no model exists; then, with a model, the sync, and the override flags end cleared |
| RuntimeInstance.SecondTickOnlyUpdatesAnimation | src/c3runtime/instance.ts:213-279 | over an unchanged host object a second tick logs only the animation update |
| RuntimeInstance.MovedHostIsPushed | src/c3runtime/instance.ts:216-230 | with a model and a manager, a tick over a moved host with no position override logs the new position |
| RuntimeInstance.TurnedHostIsRotated | src/c3runtime/instance.ts:234-254 | with a model and a manager, a tick over a turned host with no rotation override logs the new angle |
| RuntimeInstance.RecolouredHostIsPushed | src/c3runtime/instance.ts:257-272 | with a model and a manager, a tick over a host whose opacity or colour changed logs both |
| RuntimeInstance.HierarchyReady | src/c3runtime/instance.ts:189-198 | with a parent and a model, the model is placed at the total elevation; otherwise no change |
| RuntimeInstance.HierarchyReadyPlacesAtSyncTarget | src/c3runtime/instance.ts:189-198 | inside a hierarchy the placement is the point a tick aims at, and since the last synced position is untouched the next tick's position push is the same as without the event |
| RuntimeInstance.Release | src/c3runtime/instance.ts:123-137 | callbacks are unregistered first, which is the only way the flag is cleared; then, with a model and a manager, the instance removal is logged; model and path become null; no other field changes |
| RuntimeInstance.ReleaseAfterRegister | src/c3runtime/instance.ts:123-137 | with a capable engine and a reachable manager, releasing after a registration logs register, unregister, remove in that order and leaves the flag clear |
| RuntimeInstance.RotationOrderName | src/c3runtime/instance.ts:108-110 | indices 0..5 name XYZ, XZY, YXZ, YZX, ZXY, ZYX in that order; any other index gives "XYZ" |
| RuntimeInstance.RotationOrderNamesMatchActionOrders | src/c3runtime/instance.ts:108-110 | the property's order names and the SetRotation action's order switch (actions.ts:177-216) agree index by index |
| RuntimeInstance.Fresh | src/c3runtime/instance.ts:54-94 | no model, no path, empty queue, unit scale, flags clear, synced to the host position and angle, empty memo at tick -1, no playing or last animation; model name, debug flag, initial rotation and the rotation order named by the index come from the properties; sprite hidden; opacity and colour taken from the host |
| RuntimeInstance.Construct | src/c3runtime/instance.ts:54-120 | the fresh state; with a model name, `_createModel` runs, leaving the model set or the path pending (the result is exactly `CreateModel` on the fresh state); the scale starts at 1 |
| Actions.Dispatch | src/c3runtime/actions.ts:35-46 | with a model the action runs now, logging exactly its call and keeping the queue; without one exactly one command is appended and nothing else changes |
| Actions.DispatchAll | src/c3runtime/actions.ts:35-46 | dispatching a list with no model appends it to the queue and changes nothing else; with a model it is running the list |
| Actions.DeferredMatchesImmediate | src/c3runtime/actions.ts:35-46 | an action queued before the model existed does, when drained, exactly what it would have done immediately |
| Actions.DeferredAfterQueueMatchesImmediate | src/c3runtime/actions.ts:35-46 | with commands already queued, draining them plus a new deferred action equals draining them and then running the action with the model |
| Actions.CreationReplaysQueuedActions | src/c3runtime/instance.ts:371-382 | the creation that adopts a model runs the queued actions exactly as dispatching them, in issue order, with the model already placed |
| Actions.PlayAnimationOptions | src/c3runtime/actions.ts:24-33 | the given loop, speed 1, and a blend duration present iff it is positive |
| Actions.PlayAnimation | src/c3runtime/actions.ts:22-47 | with a model: the play call is logged and the playing clip recorded, nothing else changes; without one it is queued |
| Actions.StopAnimation | src/c3runtime/actions.ts:49-63 | with a model: the stop call is logged and the playing clip cleared, nothing else changes; without one it is queued |
| Actions.SetAnimationSpeed | src/c3runtime/actions.ts:65-79 | with a model the speed is set and nothing else changes; without one it is queued |
| Actions.SetDebugRendering | src/c3runtime/actions.ts:81-84 | only the debug flag changes |
| Actions.SetSpriteVisible | src/c3runtime/actions.ts:124-127 | only the sprite flag changes |
| Actions.SetScale | src/c3runtime/actions.ts:86-103 | the override flag and all three recorded components are set immediately, model or not; the scale call is logged or queued; no other field changes |
| Actions.SetScaleXYZ | src/c3runtime/actions.ts:105-122 | the override flag and the three recorded components are set immediately; the scale call is logged or queued; no other field changes |
| Actions.SetPosition | src/c3runtime/actions.ts:129-153 | with a model: position logged, override set, last-synced position recorded, nothing else changes; without one it is queued |
| Actions.QueuedPositionWithoutModelIsNoop | src/c3runtime/actions.ts:131-133 | a queued SetPosition that runs while the model is still missing does nothing |
| Actions.SetRotation | src/c3runtime/actions.ts:155-233 | with a model: rotation logged with the selected order and override set, nothing else changes; without one it is queued |
| Actions.OutOfRangeOrdersRotateAsZyx | src/c3runtime/actions.ts:209-215 | every order outside 0..4 rotates exactly as order 5 (ZYX) |
| Actions.EnableAllNodes | src/c3runtime/actions.ts:235-247 | logged with a model, queued without one |
| Actions.DisableAllNodes | src/c3runtime/actions.ts:249-261 | logged with a model, queued without one |
| Actions.EnableNode | src/c3runtime/actions.ts:263-275 | logged with a model, queued without one |
| Actions.DisableNode | src/c3runtime/actions.ts:277-289 | logged with a model, queued without one |
| Actions.SetMaterial | src/c3runtime/actions.ts:291-303 | logged with a model, queued without one |
| Actions.ResetMaterials | src/c3runtime/actions.ts:305-317 | logged with a model, queued without one |
| Actions.QueuedActionsKeepIssueOrder | src/c3runtime/actions.ts:41-45 | actions issued without a model are queued in issue order |
| Expressions.Double | src/c3runtime/expressions.ts:11-14 | twice the argument |
| Expressions.AnimationSpeed | src/c3runtime/expressions.ts:16-23 | the engine's speed with a model, 1 without |
| Expressions.ScaleX | src/c3runtime/expressions.ts:25-28 | the recorded x scale |
| Expressions.ScaleY | src/c3runtime/expressions.ts:30-33 | the recorded y scale |
| Expressions.ScaleZ | src/c3runtime/expressions.ts:35-38 | the recorded z scale |
| Expressions.ScalesAfterSetScaleXYZ | src/c3runtime/expressions.ts:25-38 | after SetScaleXYZ(a, b, c) the getters return a, b and c, model or not |
| Expressions.ScalesAfterSetScale | src/c3runtime/expressions.ts:25-38 | after SetScale(s) all three getters return s |
| Expressions.ScalesStartAtOne | src/c3runtime/expressions.ts:25-38 | before any scale action the getters return 1, whether or not construction created a model |
| Expressions.ScaleSurvivesTick | src/c3runtime/expressions.ts:25-38 | ticks do not change the recorded scale |
| Decimal.IntToString | src/c3runtime/instance.ts:182 | the decimal text of an integer: a leading `-` exactly for negatives, followed by the printed magnitude |
| Decimal.ParsePrinted | src/c3runtime/instance.ts:182 | reading back the printed digits of a natural number gives the number |
| Decimal.PrintingIsInjective | rendera-reference/InstanceManager-node-filtering.ts:113 | different numbers print differently, so template-literal keys built from distinct numbers differ |

## Left out

- Matrix, quaternion and trigonometric arithmetic is not modelled: the view projection,
  `updateWorldMatrix`, Euler to quaternion in SetRotation, the angle quaternion in
  `_tick`, and `_applyInitialRotation`'s matrices. A rotation call records where it came
  from (`RotationSource`) instead. A world-matrix update records the transform it was
  computed from.
- Float32 rounding is not modelled. Reals stand for JavaScript numbers, and NaN is not
  modelled.
- WebGL side effects are not modelled: `initialize`'s GL calls, uniforms, draw calls,
  shadow maps and `render`. The render loop of the node-filtering file is modelled as
  the list of draws it issues (`NodeFiltering.RenderDraws`).
- GpuResourceCache: in real WebGL the ELEMENT_ARRAY_BUFFER binding belongs to the
  bound VAO. The model keeps it as an independent field.
- GpuResourceCache.CacheThenRestoreIsIdentity: requires the active texture unit to have
  an entry. Restoring writes an explicit null where there was no entry, which reads
  the same but is a different map.
- The animation controller, worker pool and shadow-map manager are external. The
  controller is a parameter of two total functions (`advance`, `bindPose`). The others
  are not modelled.
- `markInstanceDirty?.()` in the node-visibility handle is not modelled: it is an
  optional callback into an undeclared manager method.
- The controller's engine is external. Its calls are logged effects. The result of
  `createModel` and of a bone lookup are parameters. The engine's speed is a
  parameter of `Expressions.AnimationSpeed`.
- RuntimeInstance.IndexKey: takes an integer index. JavaScript prints a number of
  magnitude 1e21 or more in exponent form (`1e+21`) and prints fractional numbers
  (`1.5`); neither is modelled, because number-to-text conversion of such values is
  floating-point formatting. The same holds for `node_${index}` in
  `NodeFiltering.LookupName`, whose glTF node indices are small naturals.
- InstanceManager.UpdateAnimation: is keyed by a live instance id. The source's public
  `updateAnimation(instance, dt)` takes an instance record and checks nothing; given a
  still-playing record of a deleted instance it would advance that orphan and put the
  dead id back in the dirty set. Every call inside `InstanceManager.ts` (lines 159, 178
  and 285) passes a record just put into or read from the instance table, so the model
  covers only that use.
- Event-sheet triggers are logged as `Trigger` effects, not run. In the source,
  `_trigger(OnModelCreated)` runs the event sheet synchronously inside `_tick`, so
  actions it runs (a SetPosition that sets the override, say) happen before that
  tick's sync. `RuntimeInstance.Tick` composes the creation attempt and the sync with
  nothing in between, and such re-entrant actions are outside it.
- NodeFiltering.RenderDraws: requires every live instance of the group to have a
  visibility handle. The source would throw on a missing handle.
- SetMaterial and ResetMaterials are called through `as any`. A model without those
  methods would throw. The model logs the call.
- A throw from the engine after `createModel` has returned (during placement, the
  queue drain or callbacks) is not modelled. Only a throw or null from `createModel`
  itself is.
- The constructor's path without editor properties is not modelled: the initial
  rotation fields then stay undefined. `RuntimeInstance.Properties` is always present.
- Editor and host glue is not modelled: `Alert`, conditions (a template placeholder),
  `_draw`, `_drawDebugInfo`, save/load JSON, the test property, plugin and type
  registration, and console logging.
- The `rendera-types` declaration files are not modelled. They are declarations
  without bodies.
