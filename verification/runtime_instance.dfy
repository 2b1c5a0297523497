/** The controller's own methods (src/c3runtime/instance.ts): construction, the bone
    position memo, pending-model creation with retry, callback registration, animation
    events, the per-tick sync and release. The engine is reached only through `Env`,
    the `CreateOutcome` of a creation attempt, and the effects log. */
module RuntimeInstance {
  import opened Common
  import opened Decimal
  import opened ControllerState
  import opened Commands

  // ---------------------------------------------------------------- bone positions

  /** The result of one memoised lookup, and whether the fetcher had to run. */
  datatype Lookup = Lookup(position: Option<Vec3>, cache: BoneCache, fetched: bool)

  /** `_getCachedBonePosition`: a new tick empties the memo; a key already present
      (even with a `null` result) is answered without running the fetcher, whose result
      `fetcherResult` is otherwise stored and returned. */
  function CachedBonePosition(cache: BoneCache, currentTick: int, key: string, fetcherResult: Option<Vec3>): (r: Lookup)
    ensures r.cache.tick == currentTick
    ensures r.fetched <==> !(cache.tick == currentTick && key in cache.entries)
    ensures !r.fetched ==> r.position == cache.entries[key] && r.cache == cache
    ensures r.fetched ==> r.position == fetcherResult
    ensures key in r.cache.entries && r.cache.entries[key] == r.position
    ensures cache.tick != currentTick ==> r.cache.entries.Keys == {key}
    ensures cache.tick == currentTick ==> r.cache.entries.Keys == cache.entries.Keys + {key}
    ensures cache.tick == currentTick ==>
              forall k :: k in cache.entries ==> r.cache.entries[k] == cache.entries[k]
  {
    var current := if cache.tick != currentTick then BoneCache(map[], currentTick) else cache;
    if key in current.entries then Lookup(current.entries[key], current, false)
    else Lookup(fetcherResult, current.(entries := current.entries[key := fetcherResult]), true)
  }

  /** Within one tick the fetcher runs at most once per key: a second lookup returns the
      first answer, whatever the fetcher would now say, and a `null` answer is kept too. */
  lemma SecondLookupHitsCache(cache: BoneCache, tick: int, key: string, first: Option<Vec3>, second: Option<Vec3>)
    ensures var a := CachedBonePosition(cache, tick, key, first);
            var b := CachedBonePosition(a.cache, tick, key, second);
            !b.fetched && b.position == a.position && b.cache == a.cache
  {
  }

  function NameKey(boneName: string): (k: string)
    ensures |k| >= 5 && k[..5] == "name:" && k[5..] == boneName
  {
    "name:" + boneName
  }

  function IndexKey(boneIndex: int): (k: string)
    ensures |k| >= 6 && k[..6] == "index:" && k[6..] == IntToString(boneIndex)
  {
    "index:" + IntToString(boneIndex)
  }

  /** The two lookups never share a memo entry. */
  lemma NameAndIndexKeysDiffer(boneName: string, boneIndex: int)
    ensures NameKey(boneName) != IndexKey(boneIndex)
  {
    assert NameKey(boneName)[0] == 'n';
    assert IndexKey(boneIndex)[0] == 'i';
  }

  /** `position ? position[axis] : 0`: 0 for a `null` position, and `undefined` (`None`)
      for an axis outside 0..2. */
  function AxisOf(position: Option<Vec3>, axis: int): (r: Option<real>)
    ensures position.None? ==> r == Some(0.0)
    ensures position.Some? ==> r == Component(position.value, axis)
  {
    match position
    case None => Some(0.0)
    case Some(p) => Component(p, axis)
  }

  datatype BoneRead = BoneRead(value: Option<real>, controller: Controller)

  /** The shared body of `_getBonePositionByName` and `_getBonePositionByIndex`. */
  function BonePosition(c: Controller, env: Env, currentTick: int, key: string, axis: int, fetcherResult: Option<Vec3>): (r: BoneRead)
    ensures c.model.None? || !ManagerReady(env) ==> r == BoneRead(Some(0.0), c)
    ensures c.model.Some? && ManagerReady(env) ==>
              var l := CachedBonePosition(c.boneCache, currentTick, key, fetcherResult);
              r.value == AxisOf(l.position, axis) && r.controller == c.(boneCache := l.cache)
  {
    if c.model.None? || !ManagerReady(env) then BoneRead(Some(0.0), c)
    else
      var l := CachedBonePosition(c.boneCache, currentTick, key, fetcherResult);
      BoneRead(AxisOf(l.position, axis), c.(boneCache := l.cache))
  }

  function BonePositionByName(c: Controller, env: Env, currentTick: int, boneName: string, axis: int, fetcherResult: Option<Vec3>): (r: BoneRead)
    ensures r == BonePosition(c, env, currentTick, NameKey(boneName), axis, fetcherResult)
  {
    BonePosition(c, env, currentTick, "name:" + boneName, axis, fetcherResult)
  }

  function BonePositionByIndex(c: Controller, env: Env, currentTick: int, boneIndex: int, axis: int, fetcherResult: Option<Vec3>): (r: BoneRead)
    ensures r == BonePosition(c, env, currentTick, IndexKey(boneIndex), axis, fetcherResult)
  {
    BonePosition(c, env, currentTick, "index:" + IntToString(boneIndex), axis, fetcherResult)
  }

  /** Reading the same bone twice in one tick gives the same answer both times, however
      the engine's answer changed in between. */
  lemma SameTickSameAnswer(c: Controller, env: Env, tick: int, boneName: string, axis: int,
                           first: Option<Vec3>, second: Option<Vec3>)
    ensures var a := BonePositionByName(c, env, tick, boneName, axis, first);
            var b := BonePositionByName(a.controller, env, tick, boneName, axis, second);
            b.value == a.value
  {
    var key := NameKey(boneName);
    if c.model.Some? && ManagerReady(env) {
      SecondLookupHitsCache(c.boneCache, tick, key, first, second);
    }
  }

  // ---------------------------------------------------------------- callbacks

  /** `_registerAnimationCallbacks`: at most once per model (the flag guards it), and only
      when the engine offers `registerAnimationCallback`. */
  function RegisterAnimationCallbacks(c: Controller, env: Env): (r: Controller)
    ensures r.callbacksRegistered ==
            (c.callbacksRegistered || (c.model.Some? && env.renderaPresent && env.canRegisterCallback))
    ensures r.callbacksRegistered && !c.callbacksRegistered ==>
              r == c.(callbacksRegistered := true, effects := c.effects + [RegisterCallback(c.model.value.instanceId)])
    ensures !(r.callbacksRegistered && !c.callbacksRegistered) ==> r == c
  {
    if c.model.None? || c.callbacksRegistered then c
    else if !env.renderaPresent then c
    else if env.canRegisterCallback then
      c.(effects := c.effects + [RegisterCallback(c.model.value.instanceId)], callbacksRegistered := true)
    else c
  }

  /** `_unregisterAnimationCallbacks`: clears the flag only when the engine offers
      `unregisterAnimationCallback`. */
  function UnregisterAnimationCallbacks(c: Controller, env: Env): (r: Controller)
    ensures r.callbacksRegistered ==
            (c.callbacksRegistered && !(c.model.Some? && env.renderaPresent && env.canUnregisterCallback))
    ensures c.callbacksRegistered && !r.callbacksRegistered ==>
              r == c.(callbacksRegistered := false, effects := c.effects + [UnregisterCallback(c.model.value.instanceId)])
    ensures !(c.callbacksRegistered && !r.callbacksRegistered) ==> r == c
  {
    if c.model.None? || !c.callbacksRegistered then c
    else if env.renderaPresent && env.canUnregisterCallback then
      c.(effects := c.effects + [UnregisterCallback(c.model.value.instanceId)], callbacksRegistered := false)
    else c
  }

  /** Registering twice registers once. */
  lemma RegisterIsIdempotent(c: Controller, env: Env)
    ensures RegisterAnimationCallbacks(RegisterAnimationCallbacks(c, env), env) == RegisterAnimationCallbacks(c, env)
  {
  }

  /** With a capable engine, unregistering undoes registering, apart from the two log entries. */
  lemma UnregisterUndoesRegister(c: Controller, env: Env)
    requires c.model.Some? && !c.callbacksRegistered
    requires env.renderaPresent && env.canRegisterCallback && env.canUnregisterCallback
    ensures var r := UnregisterAnimationCallbacks(RegisterAnimationCallbacks(c, env), env);
            r == c.(effects := c.effects + [RegisterCallback(c.model.value.instanceId), UnregisterCallback(c.model.value.instanceId)])
  {
  }

  /** The trigger an engine animation event fires, by its `eventType` in either case. */
  function EventTrigger(eventType: string): (t: Option<TriggerKind>)
    ensures t == Some(OnAnimationFinished) <==> eventType in {"COMPLETE", "complete"}
    ensures t == Some(OnAnimationLoop) <==> eventType in {"LOOP", "loop"}
    ensures t == Some(OnAnimationStart) <==> eventType in {"START", "start"}
    ensures t == Some(OnAnimationStop) <==> eventType in {"STOP", "stop"}
    ensures t != Some(OnModelCreated)
  {
    if eventType == "COMPLETE" || eventType == "complete" then Some(OnAnimationFinished)
    else if eventType == "LOOP" || eventType == "loop" then Some(OnAnimationLoop)
    else if eventType == "START" || eventType == "start" then Some(OnAnimationStart)
    else if eventType == "STOP" || eventType == "stop" then Some(OnAnimationStop)
    else None
  }

  /** The registered callback: records the event's clip name (`""` when missing), fires
      the matching trigger, and on completion clears the playing clip. Unknown events are
      ignored. */
  function OnAnimationEvent(c: Controller, eventType: string, animationName: Option<string>): (r: Controller)
    ensures EventTrigger(eventType).None? ==> r == c
    ensures EventTrigger(eventType).Some? ==>
              && r.lastAnimationName == animationName.GetOr("")
              && r.effects == c.effects + [Trigger(EventTrigger(eventType).value)]
    ensures r.currentPlayingAnimation ==
            (if EventTrigger(eventType) == Some(OnAnimationFinished) then "" else c.currentPlayingAnimation)
    ensures r.(lastAnimationName := c.lastAnimationName, currentPlayingAnimation := c.currentPlayingAnimation,
               effects := c.effects) == c
  {
    match EventTrigger(eventType)
    case None => c
    case Some(t) =>
      var named := c.(lastAnimationName := animationName.GetOr(""), effects := c.effects + [Trigger(t)]);
      if t == OnAnimationFinished then named.(currentPlayingAnimation := "") else named
  }

  // ---------------------------------------------------------------- model creation

  /** `_applyInitialRotation`: nothing when all three angles are zero; otherwise one
      rotation call built from the angles and the rotation order. */
  function ApplyInitialRotation(c: Controller): (r: Controller)
    ensures c.initialRotation == Origin ==> r == c
    ensures c.initialRotation != Origin ==>
              r == CallModel(c, SetRotationCall(FromInitialRotation(c.initialRotation.x, c.initialRotation.y,
                                                                      c.initialRotation.z, c.rotationOrder)))
  {
    if c.initialRotation.x == 0.0 && c.initialRotation.y == 0.0 && c.initialRotation.z == 0.0 then c
    else
      CallModel(c, SetRotationCall(FromInitialRotation(c.initialRotation.x, c.initialRotation.y,
                                                         c.initialRotation.z, c.rotationOrder)))
  }

  /** `_applyInitialColorAndOpacity`: pushes opacity and tint and remembers them. */
  function ApplyInitialColorAndOpacity(c: Controller, view: HostView): (r: Controller)
    ensures c.model.None? ==> r == c
    ensures c.model.Some? ==>
              && r.lastOpacity == view.opacity && r.lastColor == view.color
              && r.effects == c.effects + [Call(c.model.value.instanceId, SetOpacityCall(view.opacity)),
                                           Call(c.model.value.instanceId, SetTintColorCall(view.color))]
    ensures r.(lastOpacity := c.lastOpacity, lastColor := c.lastColor, effects := c.effects) == c
  {
    if c.model.None? then c
    else
      var c1 := CallModel(CallModel(c, SetOpacityCall(view.opacity)), SetTintColorCall(view.color));
      c1.(lastOpacity := view.opacity, lastColor := view.color)
  }

  /** A creation attempt happens: a non-empty pending path and a reachable manager. */
  predicate CanAttempt(c: Controller, env: Env) {
    HasPendingPath(c) && ManagerReady(env)
  }

  /** The call `_applyInitialRotation` makes on model `id`: none for all-zero angles. */
  function InitialRotationCalls(c: Controller, id: int): (es: seq<Effect>)
    ensures |es| <= 1
    ensures |es| == 1 <==> c.initialRotation != Origin
  {
    if c.initialRotation == Origin then []
    else [Call(id, SetRotationCall(FromInitialRotation(c.initialRotation.x, c.initialRotation.y,
                                                       c.initialRotation.z, c.rotationOrder)))]
  }

  /** Everything a successful `_tryCreatePendingModel` sends out, in order: the placement
      at the host position, the initial rotation, each queued command's call, the
      callback registration when it happens, opacity, tint, and OnModelCreated. */
  function CreationEffects(c: Controller, view: HostView, env: Env, id: int): (es: seq<Effect>)
    ensures |es| >= 4 && es[0] == Call(id, SetPositionCall(Vec3(view.x, view.y, view.zElevation)))
    ensures es[|es| - 1] == Trigger(OnModelCreated)
  {
    [Call(id, SetPositionCall(Vec3(view.x, view.y, view.zElevation)))]
    + InitialRotationCalls(c, id)
    + Calls(id, c.commandQueue)
    + (if !c.callbacksRegistered && env.canRegisterCallback then [RegisterCallback(id)] else [])
    + [Call(id, SetOpacityCall(view.opacity)), Call(id, SetTintColorCall(view.color)), Trigger(OnModelCreated)]
  }

  /** `_tryCreatePendingModel`. On success: the model is set, the pending path cleared,
      the model placed at the host position, the initial rotation applied, the queue
      drained in order, callbacks registered, colour and opacity applied, and
      OnModelCreated fired. A `null` result or a throw leaves everything as it was, so
      the next tick retries with the same path and queue. */
  function TryCreatePendingModel(c: Controller, view: HostView, env: Env, outcome: CreateOutcome): (r: Controller)
    ensures !CanAttempt(c, env) || !outcome.Returned? ==> r == c
    ensures CanAttempt(c, env) && outcome.Returned? ==>
              var d := PlaceAndDrain(c, view, outcome.model);
              && r.model == Some(outcome.model)
              && r.pendingModelPath.None?
              && r.commandQueue == []
              && r.lastOpacity == view.opacity && r.lastColor == view.color
              && r.callbacksRegistered == (c.callbacksRegistered || env.canRegisterCallback)
              && r.effects == c.effects + CreationEffects(c, view, env, outcome.model.instanceId)
              && r.currentPlayingAnimation == d.currentPlayingAnimation
              && r.positionOverridden == d.positionOverridden && r.lastSynced == d.lastSynced
              && r.rotationOverridden == d.rotationOverridden
              && AdoptedFrom(r, c, view)
    ensures Extends(r, c)
    ensures r.lastScale == c.lastScale
  {
    if !CanAttempt(c, env) then c
    else
      match outcome
      case ReturnedNull => c
      case Threw => c
      case Returned(m) => AdoptModel(c, view, env, m)
  }

  /** `r` is `c` after a successful creation at `view`: the model, the cleared pending
      path and queue, the callback flag and the colour are new, and otherwise only what
      the drained commands write (the playing clip, the override flags, the last synced
      position) and the effects log differ. */
  ghost predicate AdoptedFrom(r: Controller, c: Controller, view: HostView) {
    r == c.(model := r.model, pendingModelPath := None, commandQueue := [],
            callbacksRegistered := r.callbacksRegistered, lastOpacity := view.opacity, lastColor := view.color,
            currentPlayingAnimation := r.currentPlayingAnimation, positionOverridden := r.positionOverridden,
            lastSynced := r.lastSynced, rotationOverridden := r.rotationOverridden, effects := r.effects)
  }

  /** The success path of `_tryCreatePendingModel`, once `createModel` returned `m`:
      position, initial rotation and the queued commands (`PlaceAndDrain`), then
      callbacks, colour and the OnModelCreated trigger. Apart from the callback flag and
      the colour, the state is the one `PlaceAndDrain` leaves. */
  function AdoptModel(c: Controller, view: HostView, env: Env, m: ModelRef): (r: Controller)
    requires ManagerReady(env)
    ensures r.callbacksRegistered == (c.callbacksRegistered || env.canRegisterCallback)
    ensures r.model == Some(m) && r.pendingModelPath.None? && r.commandQueue == []
    ensures r.lastOpacity == view.opacity && r.lastColor == view.color
    ensures r.effects == c.effects + CreationEffects(c, view, env, m.instanceId)
    ensures var d := PlaceAndDrain(c, view, m);
            r == d.(callbacksRegistered := r.callbacksRegistered, lastOpacity := view.opacity,
                    lastColor := view.color, effects := r.effects)
    ensures AdoptedFrom(r, c, view)
    ensures Extends(r, c) && r.lastScale == c.lastScale
  {
    var d := PlaceAndDrain(c, view, m);
    var r := Announce(d, view, env);
    CreationEffectsCompose(c, view, env, m.instanceId, d.effects, r.effects);
    AnnouncedDrainIsAdopted(c, d, r, view, m);
    r
  }

  /** Announcing after `PlaceAndDrain` changes only fields `AdoptedFrom` allows. */
  lemma AnnouncedDrainIsAdopted(c: Controller, d: Controller, r: Controller, view: HostView, m: ModelRef)
    requires d == c.(model := Some(m), pendingModelPath := None, commandQueue := [],
                     currentPlayingAnimation := d.currentPlayingAnimation, positionOverridden := d.positionOverridden,
                     lastSynced := d.lastSynced, rotationOverridden := d.rotationOverridden, effects := d.effects)
    requires r == d.(callbacksRegistered := r.callbacksRegistered, lastOpacity := view.opacity,
                     lastColor := view.color, effects := r.effects)
    ensures AdoptedFrom(r, c, view) && r.model == Some(m)
  {
  }

  /** The creation effects are the placement-and-drain effects followed by the
      announcement effects. */
  lemma CreationEffectsCompose(c: Controller, view: HostView, env: Env, id: int, de: seq<Effect>, re: seq<Effect>)
    requires de == c.effects + [Call(id, SetPositionCall(Vec3(view.x, view.y, view.zElevation)))]
                              + InitialRotationCalls(c, id) + Calls(id, c.commandQueue)
    requires re == de + (if !c.callbacksRegistered && env.canRegisterCallback then [RegisterCallback(id)] else [])
                      + [Call(id, SetOpacityCall(view.opacity)), Call(id, SetTintColorCall(view.color)), Trigger(OnModelCreated)]
    ensures re == c.effects + CreationEffects(c, view, env, id)
    ensures |c.effects| <= |re| && re[..|c.effects|] == c.effects
  {
    var p := [Call(id, SetPositionCall(Vec3(view.x, view.y, view.zElevation)))];
    var (rot, calls) := (InitialRotationCalls(c, id), Calls(id, c.commandQueue));
    var reg := if !c.callbacksRegistered && env.canRegisterCallback then [RegisterCallback(id)] else [];
    var tail := [Call(id, SetOpacityCall(view.opacity)), Call(id, SetTintColorCall(view.color)), Trigger(OnModelCreated)];
    assert CreationEffects(c, view, env, id) == p + rot + calls + reg + tail;
    AppendRegroup(c.effects, p, rot, calls, reg, tail);
  }

  /** The last steps of a successful creation: callbacks registered when the engine
      offers it, colour and opacity applied, OnModelCreated fired. */
  function Announce(d: Controller, view: HostView, env: Env): (r: Controller)
    requires ManagerReady(env) && d.model.Some?
    ensures var id := d.model.value.instanceId;
            r == d.(callbacksRegistered := d.callbacksRegistered || env.canRegisterCallback,
                    lastOpacity := view.opacity, lastColor := view.color,
                    effects := d.effects
                               + (if !d.callbacksRegistered && env.canRegisterCallback then [RegisterCallback(id)] else [])
                               + [Call(id, SetOpacityCall(view.opacity)), Call(id, SetTintColorCall(view.color)),
                                  Trigger(OnModelCreated)])
  {
    var c5 := RegisterAnimationCallbacks(d, env);
    var c6 := ApplyInitialColorAndOpacity(c5, view);
    c6.(effects := c6.effects + [Trigger(OnModelCreated)])
  }

  /** The model is adopted and placed: set, pending path cleared, the position pushed
      and the initial rotation applied; nothing else changes. */
  function Place(c: Controller, view: HostView, m: ModelRef): (r: Controller)
    ensures r.model == Some(m) && r.pendingModelPath.None?
    ensures r.effects == c.effects + [Call(m.instanceId, SetPositionCall(Vec3(view.x, view.y, view.zElevation)))]
                                   + InitialRotationCalls(c, m.instanceId)
    ensures r.(model := c.model, pendingModelPath := c.pendingModelPath, effects := c.effects) == c
  {
    var placed := c.(model := Some(m), pendingModelPath := None,
                     effects := c.effects + [Call(m.instanceId, SetPositionCall(Vec3(view.x, view.y, view.zElevation)))]);
    placed.(effects := placed.effects + InitialRotationCalls(c, m.instanceId))
  }

  /** `Place` is the source's own sequence of steps: set the model, push the host
      position, then `_applyInitialRotation`. */
  lemma PlaceIsPositionThenInitialRotation(c: Controller, view: HostView, m: ModelRef)
    ensures Place(c, view, m)
            == ApplyInitialRotation(CallModel(c.(model := Some(m), pendingModelPath := None),
                                              SetPositionCall(Vec3(view.x, view.y, view.zElevation))))
  {
    var c2 := CallModel(c.(model := Some(m), pendingModelPath := None),
                        SetPositionCall(Vec3(view.x, view.y, view.zElevation)));
    assert c2.initialRotation == c.initialRotation && c2.rotationOrder == c.rotationOrder;
  }

  /** The first steps after a successful `createModel`: the model is placed, then the
      queued commands run in order, each making its call on the new model. */
  function PlaceAndDrain(c: Controller, view: HostView, m: ModelRef): (r: Controller)
    ensures r.model == Some(m) && r.pendingModelPath.None? && r.commandQueue == []
    ensures r.callbacksRegistered == c.callbacksRegistered && r.lastScale == c.lastScale
    ensures r.lastOpacity == c.lastOpacity && r.lastColor == c.lastColor
    ensures r.effects == c.effects + [Call(m.instanceId, SetPositionCall(Vec3(view.x, view.y, view.zElevation)))]
                                   + InitialRotationCalls(c, m.instanceId) + Calls(m.instanceId, c.commandQueue)
    ensures r == c.(model := Some(m), pendingModelPath := None, commandQueue := [],
                    currentPlayingAnimation := r.currentPlayingAnimation, positionOverridden := r.positionOverridden,
                    lastSynced := r.lastSynced, rotationOverridden := r.rotationOverridden, effects := r.effects)
    ensures Extends(r, c)
  {
    var p := Place(c, view, m);
    var r := ExecuteQueuedCommands(p);
    ExtendsTransitive(c, p, r);
    r
  }

  /** The first half of `_createModel`: with the manager reachable, an existing model
      has its callbacks unregistered (when the engine offers it), its instance removed
      and its queue discarded. */
  function TearDown(c: Controller, env: Env): (r: Controller)
    ensures !(c.model.Some? && ManagerReady(env)) ==> r == c
    ensures c.model.Some? && ManagerReady(env) ==>
              var id := c.model.value.instanceId;
              && r.model.None? && r.commandQueue == []
              && r.callbacksRegistered == (c.callbacksRegistered && !env.canUnregisterCallback)
              && r.effects == c.effects
                              + (if c.callbacksRegistered && env.canUnregisterCallback then [UnregisterCallback(id)] else [])
                              + [RemoveInstance(id)]
              && r.(model := c.model, commandQueue := c.commandQueue, callbacksRegistered := c.callbacksRegistered,
                    effects := c.effects) == c
    ensures Extends(r, c)
  {
    if c.model.Some? && ManagerReady(env) then
      var u := UnregisterAnimationCallbacks(c, env);
      u.(effects := u.effects + [RemoveInstance(c.model.value.instanceId)], model := None, commandQueue := [])
    else c
  }

  /** The callback flag after `_createModel`'s teardown: cleared only when an existing
      model was unregistered, which needs the engine to offer unregistration. */
  function KeptCallbackFlag(c: Controller, env: Env): bool {
    if c.model.Some? then c.callbacksRegistered && !env.canUnregisterCallback else c.callbacksRegistered
  }

  /** `_createModel(path)`: an existing model is first torn down when the manager is
      reachable; then the path becomes pending and, with the manager reachable, one
      creation attempt is made at once. A flag left set by a teardown that could not
      unregister stays set, so the new model registers no callback. */
  function CreateModel(c: Controller, view: HostView, env: Env, outcome: CreateOutcome, modelPath: string): (r: Controller)
    ensures !ManagerReady(env) ==> r == c.(pendingModelPath := Some(modelPath))
    ensures ManagerReady(env) ==> Extends(r, TearDown(c, env))
    ensures ManagerReady(env) && modelPath != "" && outcome.Returned? ==>
              var t := TearDown(c, env);
              && r.model == Some(outcome.model) && r.pendingModelPath.None? && r.commandQueue == []
              && r.callbacksRegistered == (KeptCallbackFlag(c, env) || env.canRegisterCallback)
              && r.effects == t.effects + CreationEffects(t, view, env, outcome.model.instanceId)
              && AdoptedFrom(r, t, view)
    ensures ManagerReady(env) && !(modelPath != "" && outcome.Returned?) ==>
              && r == TearDown(c, env).(pendingModelPath := Some(modelPath))
              && r.model.None? && r.commandQueue == (if c.model.Some? then [] else c.commandQueue)
              && r.callbacksRegistered == KeptCallbackFlag(c, env)
    ensures ManagerReady(env) && c.model.Some? ==> RemoveInstance(c.model.value.instanceId) in r.effects
    ensures ManagerReady(env) && c.model.None? && !(modelPath != "" && outcome.Returned?) ==>
              r == c.(pendingModelPath := Some(modelPath))
    ensures Extends(r, c)
    ensures r.lastScale == c.lastScale
  {
    if ManagerReady(env) then Recreate(c, view, env, outcome, modelPath)
    else c.(pendingModelPath := Some(modelPath))
  }

  /** `_createModel` once the manager exists: tear down, then one attempt on the new path. */
  function Recreate(c: Controller, view: HostView, env: Env, outcome: CreateOutcome, modelPath: string): (r: Controller)
    requires ManagerReady(env)
    ensures Extends(r, TearDown(c, env))
    ensures modelPath != "" && outcome.Returned? ==>
              var t := TearDown(c, env);
              && r.model == Some(outcome.model) && r.pendingModelPath.None? && r.commandQueue == []
              && r.callbacksRegistered == (KeptCallbackFlag(c, env) || env.canRegisterCallback)
              && r.effects == t.effects + CreationEffects(t, view, env, outcome.model.instanceId)
              && AdoptedFrom(r, t, view)
    ensures !(modelPath != "" && outcome.Returned?) ==>
              && r == TearDown(c, env).(pendingModelPath := Some(modelPath))
              && r.model.None? && r.commandQueue == (if c.model.Some? then [] else c.commandQueue)
              && r.callbacksRegistered == KeptCallbackFlag(c, env)
    ensures c.model.Some? ==> RemoveInstance(c.model.value.instanceId) in r.effects
    ensures c.model.None? && !(modelPath != "" && outcome.Returned?) ==>
              r == c.(pendingModelPath := Some(modelPath))
    ensures Extends(r, c)
    ensures r.lastScale == c.lastScale
  {
    var t := TearDown(c, env);
    TornDown(c, env);
    var r := AttemptPath(t, view, env, outcome, modelPath);
    assert c.model.Some? ==> RemoveInstance(c.model.value.instanceId) in r.effects by {
      if c.model.Some? {
        ExtendsKeeps(r, t, RemoveInstance(c.model.value.instanceId));
      }
    }
    ExtendsTransitive(c, t, r);
    r
  }

  /** What `_createModel`'s teardown leaves: no model, the flag `KeptCallbackFlag`
      names, and the queue emptied exactly when there was a model to remove. */
  lemma TornDown(c: Controller, env: Env)
    requires ManagerReady(env)
    ensures var t := TearDown(c, env);
            && t.model.None? && t.callbacksRegistered == KeptCallbackFlag(c, env)
            && t.commandQueue == (if c.model.Some? then [] else c.commandQueue)
            && (c.model.None? ==> t == c)
            && (c.model.Some? ==> RemoveInstance(c.model.value.instanceId) in t.effects)
  {
    var t := TearDown(c, env);
    if c.model.Some? {
      assert t.effects[|t.effects| - 1] == RemoveInstance(c.model.value.instanceId);
    }
  }

  /** The second half of `_createModel`: the path becomes pending and one creation
      attempt is made. */
  function AttemptPath(t: Controller, view: HostView, env: Env, outcome: CreateOutcome, modelPath: string): (r: Controller)
    requires ManagerReady(env)
    ensures modelPath != "" && outcome.Returned? ==>
              && r.model == Some(outcome.model) && r.pendingModelPath.None? && r.commandQueue == []
              && r.callbacksRegistered == (t.callbacksRegistered || env.canRegisterCallback)
              && r.effects == t.effects + CreationEffects(t, view, env, outcome.model.instanceId)
              && AdoptedFrom(r, t, view)
    ensures !(modelPath != "" && outcome.Returned?) ==> r == t.(pendingModelPath := Some(modelPath))
    ensures Extends(r, t) && r.lastScale == t.lastScale
  {
    var c2 := t.(pendingModelPath := Some(modelPath));
    assert outcome.Returned? ==>
             CreationEffects(c2, view, env, outcome.model.instanceId) == CreationEffects(t, view, env, outcome.model.instanceId) by {
      if outcome.Returned? {
        var id := outcome.model.instanceId;
        assert InitialRotationCalls(c2, id) == InitialRotationCalls(t, id);
      }
    }
    TryCreatePendingModel(c2, view, env, outcome)
  }

  // ---------------------------------------------------------------- per-tick sync

  /** Where the host wants the model: its z is the total elevation inside a hierarchy. */
  function SyncTarget(view: HostView): (p: Vec3)
    ensures p.x == view.x && p.y == view.y
    ensures p.z == (if view.hasParent then view.totalZElevation else view.zElevation)
  {
    Vec3(view.x, view.y, if view.hasParent then view.totalZElevation else view.zElevation)
  }

  /** The position call a tick makes on model `id`: one when the position is not
      overridden and the host moved since the last sync, none otherwise. */
  function PositionPush(c: Controller, view: HostView, id: int): seq<Effect> {
    if !c.positionOverridden && SyncTarget(view) != c.lastSynced then [Call(id, SetPositionCall(SyncTarget(view)))] else []
  }

  /** The rotation call a tick makes: one when not overridden and the angle moved. */
  function RotationPush(c: Controller, view: HostView, id: int): seq<Effect> {
    if !c.rotationOverridden && view.angle != c.lastSyncedAngle then [Call(id, SetRotationCall(FromAngle(view.angle)))] else []
  }

  /** The colour calls a tick makes: opacity then tint, both when either changed. */
  function ColorPush(c: Controller, view: HostView, id: int): seq<Effect> {
    if view.opacity != c.lastOpacity || view.color != c.lastColor then
      [Call(id, SetOpacityCall(view.opacity)), Call(id, SetTintColorCall(view.color))]
    else []
  }

  /** Position sync: only when not overridden this tick and only when x, y or z moved;
      then the synced values are remembered. */
  function SyncPosition(c: Controller, view: HostView): (r: Controller)
    ensures c.positionOverridden ==> r == c
    ensures !c.positionOverridden ==> r.lastSynced == SyncTarget(view)
    ensures |r.effects| > |c.effects| <==> c.model.Some? && !c.positionOverridden && SyncTarget(view) != c.lastSynced
    ensures |r.effects| > |c.effects| ==>
              r.effects == c.effects + [Call(c.model.value.instanceId, SetPositionCall(SyncTarget(view)))]
    ensures r.(lastSynced := c.lastSynced, effects := c.effects) == c
    ensures Extends(r, c)
  {
    var target := SyncTarget(view);
    if !c.positionOverridden && target != c.lastSynced then
      CallModel(c, SetPositionCall(target)).(lastSynced := target)
    else c
  }

  /** Rotation sync: only when not overridden and only when the angle moved. */
  function SyncRotation(c: Controller, view: HostView): (r: Controller)
    ensures c.rotationOverridden ==> r == c
    ensures !c.rotationOverridden ==> r.lastSyncedAngle == view.angle
    ensures |r.effects| > |c.effects| <==> c.model.Some? && !c.rotationOverridden && view.angle != c.lastSyncedAngle
    ensures |r.effects| > |c.effects| ==>
              r.effects == c.effects + [Call(c.model.value.instanceId, SetRotationCall(FromAngle(view.angle)))]
    ensures r.(lastSyncedAngle := c.lastSyncedAngle, effects := c.effects) == c
    ensures Extends(r, c)
  {
    if !c.rotationOverridden && view.angle != c.lastSyncedAngle then
      CallModel(c, SetRotationCall(FromAngle(view.angle))).(lastSyncedAngle := view.angle)
    else c
  }

  /** Colour and opacity sync: both are pushed when either changed. */
  function SyncColor(c: Controller, view: HostView): (r: Controller)
    ensures r.lastOpacity == view.opacity && r.lastColor == view.color
    ensures |r.effects| > |c.effects| <==> c.model.Some? && (view.opacity != c.lastOpacity || view.color != c.lastColor)
    ensures c.model.None? ==> r.effects == c.effects
    ensures c.model.Some? ==> r.effects == c.effects + ColorPush(c, view, c.model.value.instanceId)
    ensures r.(lastOpacity := c.lastOpacity, lastColor := c.lastColor, effects := c.effects) == c
    ensures Extends(r, c)
  {
    // When nothing changed `ColorPush` is empty and the remembered values are already the host's.
    var pushed := match c.model
      case None => c.effects
      case Some(m) => c.effects + ColorPush(c, view, m.instanceId);
    c.(lastOpacity := view.opacity, lastColor := view.color, effects := pushed)
  }

  lemma SyncPositionIsIdempotent(c: Controller, view: HostView)
    ensures SyncPosition(SyncPosition(c, view), view) == SyncPosition(c, view)
  {
  }

  lemma SyncRotationIsIdempotent(c: Controller, view: HostView)
    ensures SyncRotation(SyncRotation(c, view), view) == SyncRotation(c, view)
  {
  }

  lemma SyncColorIsIdempotent(c: Controller, view: HostView)
    ensures SyncColor(SyncColor(c, view), view) == SyncColor(c, view)
  {
  }

  /** `setPositionOverride()`: the host position is not pushed until the next tick
      clears the flag. */
  function SetPositionOverride(c: Controller): (r: Controller)
    ensures r.positionOverridden && r.(positionOverridden := c.positionOverridden) == c
  {
    c.(positionOverridden := true)
  }

  /** `setRotationOverride()`: the host angle is not pushed until the next tick clears
      the flag. */
  function SetRotationOverride(c: Controller): (r: Controller)
    ensures r.rotationOverridden && r.(rotationOverridden := c.rotationOverridden) == c
  {
    c.(rotationOverridden := true)
  }

  /** After the override setters, the position and rotation syncs push nothing. */
  lemma OverridesSuppressSync(c: Controller, view: HostView)
    ensures var o := SetRotationOverride(SetPositionOverride(c));
            SyncRotation(SyncPosition(o, view), view) == o
  {
  }

  /** The part of `_tick` that runs with a model and a reachable manager. */
  function SyncModel(c: Controller, view: HostView, dt: real): (r: Controller)
    requires c.model.Some?
    ensures !r.positionOverridden && !r.rotationOverridden
    ensures !c.positionOverridden ==> r.lastSynced == SyncTarget(view)
    ensures c.positionOverridden ==> r.lastSynced == c.lastSynced
    ensures !c.rotationOverridden ==> r.lastSyncedAngle == view.angle
    ensures c.rotationOverridden ==> r.lastSyncedAngle == c.lastSyncedAngle
    ensures r.lastOpacity == view.opacity && r.lastColor == view.color
    ensures r == c.(lastSynced := r.lastSynced, lastSyncedAngle := r.lastSyncedAngle,
                    lastOpacity := view.opacity, lastColor := view.color,
                    positionOverridden := false, rotationOverridden := false, effects := r.effects)
    ensures r.model == c.model && r.commandQueue == c.commandQueue && r.lastScale == c.lastScale
    ensures r.pendingModelPath == c.pendingModelPath
    ensures Extends(r, c)
    ensures |r.effects| > 0 && r.effects[|r.effects| - 1] == Call(c.model.value.instanceId, UpdateAnimationCall(dt))
    ensures var id := c.model.value.instanceId;
            r.effects == c.effects + PositionPush(c, view, id) + RotationPush(c, view, id) + ColorPush(c, view, id)
                                   + [Call(id, UpdateAnimationCall(dt))]
  {
    var id := c.model.value.instanceId;
    var c1 := SyncPosition(c, view);
    assert c1.effects == c.effects + PositionPush(c, view, id);
    var c2 := SyncRotation(c1, view);
    assert c2.effects == c1.effects + RotationPush(c, view, id);
    var c3 := SyncColor(c2, view);
    assert c3.effects == c2.effects + ColorPush(c, view, id);
    var r := CallModel(c3, UpdateAnimationCall(dt)).(positionOverridden := false, rotationOverridden := false);
    ExtendsTransitive(c, c1, c2);
    ExtendsTransitive(c, c2, c3);
    ExtendsTransitive(c, c3, r);
    r
  }

  /** `_tick`: one creation attempt while a path is pending and no model exists; then,
      with a model, the sync and the animation update, after which both override flags
      are cleared. Without a reachable manager nothing happens. */
  function Tick(c: Controller, view: HostView, env: Env, outcome: CreateOutcome, dt: real): (r: Controller)
    ensures !ManagerReady(env) ==> r == c
    ensures ManagerReady(env) && c.model.Some? ==> r == SyncModel(c, view, dt)
    ensures ManagerReady(env) && c.model.None? && !(CanAttempt(c, env) && outcome.Returned?) ==> r == c
    ensures ManagerReady(env) && c.model.None? && CanAttempt(c, env) && outcome.Returned? ==>
              r == SyncModel(TryCreatePendingModel(c, view, env, outcome), view, dt)
    ensures r.model.Some? && ManagerReady(env) ==> !r.positionOverridden && !r.rotationOverridden
    ensures r.lastScale == c.lastScale
    ensures Extends(r, c)
  {
    var c1 := if HasPendingPath(c) && c.model.None? && ManagerReady(env) then TryCreatePendingModel(c, view, env, outcome) else c;
    if c1.model.Some? && ManagerReady(env) then
      var r := SyncModel(c1, view, dt);
      ExtendsTransitive(c, c1, r);
      r
    else c1
  }

  /** Change detection: a second tick over an unchanged host object, with nothing
      overridden in between, pushes nothing but the animation update. */
  lemma SecondTickOnlyUpdatesAnimation(c: Controller, view: HostView, env: Env, o1: CreateOutcome, o2: CreateOutcome, dt1: real, dt2: real)
    requires ManagerReady(env) && c.model.Some?
    requires !c.positionOverridden && !c.rotationOverridden
    ensures var r1 := Tick(c, view, env, o1, dt1);
            var r2 := Tick(r1, view, env, o2, dt2);
            r2.effects == r1.effects + [Call(c.model.value.instanceId, UpdateAnimationCall(dt2))]
  {
    var r1 := Tick(c, view, env, o1, dt1);
    assert r1 == SyncModel(c, view, dt1);
    var a := SyncPosition(r1, view);
    assert a == r1;
    var b := SyncRotation(a, view);
    assert b == r1;
    var d := SyncColor(b, view);
    assert d == r1;
  }

  /** A tick over a host that moved, with the position not overridden, pushes the new
      position to the model. */
  lemma MovedHostIsPushed(c: Controller, view: HostView, env: Env, outcome: CreateOutcome, dt: real)
    requires ManagerReady(env) && c.model.Some?
    requires !c.positionOverridden && SyncTarget(view) != c.lastSynced
    ensures Call(c.model.value.instanceId, SetPositionCall(SyncTarget(view))) in Tick(c, view, env, outcome, dt).effects
  {
    var id := c.model.value.instanceId;
    var r := Tick(c, view, env, outcome, dt);
    assert r.effects[|c.effects|] == Call(id, SetPositionCall(SyncTarget(view)));
  }

  /** A tick over a host that turned, with the rotation not overridden, pushes the new
      angle to the model. */
  lemma TurnedHostIsRotated(c: Controller, view: HostView, env: Env, outcome: CreateOutcome, dt: real)
    requires ManagerReady(env) && c.model.Some?
    requires !c.rotationOverridden && view.angle != c.lastSyncedAngle
    ensures Call(c.model.value.instanceId, SetRotationCall(FromAngle(view.angle))) in Tick(c, view, env, outcome, dt).effects
  {
    var id := c.model.value.instanceId;
    var r := Tick(c, view, env, outcome, dt);
    var k := |c.effects| + |PositionPush(c, view, id)|;
    assert r.effects[k] == Call(id, SetRotationCall(FromAngle(view.angle)));
  }

  /** A tick over a host whose opacity or colour changed pushes both to the model. */
  lemma RecolouredHostIsPushed(c: Controller, view: HostView, env: Env, outcome: CreateOutcome, dt: real)
    requires ManagerReady(env) && c.model.Some?
    requires view.opacity != c.lastOpacity || view.color != c.lastColor
    ensures var es := Tick(c, view, env, outcome, dt).effects;
            var id := c.model.value.instanceId;
            Call(id, SetOpacityCall(view.opacity)) in es && Call(id, SetTintColorCall(view.color)) in es
  {
    var id := c.model.value.instanceId;
    var r := Tick(c, view, env, outcome, dt);
    var k := |c.effects| + |PositionPush(c, view, id)| + |RotationPush(c, view, id)|;
    assert r.effects[k] == Call(id, SetOpacityCall(view.opacity));
    assert r.effects[k + 1] == Call(id, SetTintColorCall(view.color));
  }

  /** `_onHierarchyReady`: a model with a parent is placed at the total elevation. */
  function HierarchyReady(c: Controller, view: HostView): (r: Controller)
    ensures view.hasParent && c.model.Some? ==>
              r.effects == c.effects + [Call(c.model.value.instanceId, SetPositionCall(Vec3(view.x, view.y, view.totalZElevation)))]
    ensures !(view.hasParent && c.model.Some?) ==> r == c
    ensures r.(effects := c.effects) == c
  {
    if view.hasParent && c.model.Some? then CallModel(c, SetPositionCall(Vec3(view.x, view.y, view.totalZElevation))) else c
  }

  /** Inside a hierarchy the placement goes to the same point a tick aims at, but
      `lastSynced` is not touched, so the next tick decides its position push exactly
      as it would have without the event. */
  lemma HierarchyReadyPlacesAtSyncTarget(c: Controller, view: HostView)
    requires view.hasParent && c.model.Some?
    ensures var r := HierarchyReady(c, view);
            var id := c.model.value.instanceId;
            && r.effects == c.effects + [Call(id, SetPositionCall(SyncTarget(view)))]
            && r.lastSynced == c.lastSynced
            && PositionPush(r, view, id) == PositionPush(c, view, id)
  {
  }

  /** `_release`: unregisters callbacks, removes the instance when the manager is
      reachable, and forgets both the model and the pending path. */
  function Release(c: Controller, env: Env): (r: Controller)
    ensures r.model.None? && r.pendingModelPath.None?
    ensures c.model.Some? && ManagerReady(env) ==>
              |r.effects| > 0 && r.effects[|r.effects| - 1] == RemoveInstance(c.model.value.instanceId)
    ensures !(c.model.Some? && ManagerReady(env)) ==>
              forall i :: |c.effects| <= i < |r.effects| ==> r.effects[i].UnregisterCallback?
    ensures !r.callbacksRegistered || c.callbacksRegistered
    ensures Extends(r, c)
    ensures r.commandQueue == c.commandQueue && r.lastScale == c.lastScale
    ensures var u := UnregisterAnimationCallbacks(c, env);
              r == u.(model := None, pendingModelPath := None,
                      effects := u.effects + (if c.model.Some? && ManagerReady(env)
                                              then [RemoveInstance(c.model.value.instanceId)] else []))
  {
    var u := UnregisterAnimationCallbacks(c, env);
    var u2 := if c.model.Some? && ManagerReady(env) then u.(effects := u.effects + [RemoveInstance(c.model.value.instanceId)]) else u;
    u2.(model := None, pendingModelPath := None)
  }

  /** Releasing an instance whose callbacks were registered, with an engine that
      offers both registration calls and a reachable manager, undoes the registration
      before removing the instance: the log shows register, unregister, remove, and the
      flag ends clear. */
  lemma ReleaseAfterRegister(c: Controller, env: Env)
    requires c.model.Some? && !c.callbacksRegistered
    requires ManagerReady(env) && env.canRegisterCallback && env.canUnregisterCallback
    ensures var r := Release(RegisterAnimationCallbacks(c, env), env);
            var id := c.model.value.instanceId;
            && r.effects == c.effects + [RegisterCallback(id), UnregisterCallback(id), RemoveInstance(id)]
            && !r.callbacksRegistered && r.model.None?
  {
    var id := c.model.value.instanceId;
    var g := RegisterAnimationCallbacks(c, env);
    assert g.effects == c.effects + [RegisterCallback(id)];
    var u := UnregisterAnimationCallbacks(g, env);
    assert u.effects == c.effects + [RegisterCallback(id)] + [UnregisterCallback(id)];
  }

  // ---------------------------------------------------------------- construction

  /** The editor properties the constructor reads. */
  datatype Properties = Properties(modelName: string, debugRendering: bool, initialRotation: Vec3, rotationOrderIndex: int)

  /** `rotationOrders[index] || "XYZ"`. */
  function RotationOrderName(index: int): (name: string)
    ensures !(0 <= index < 6) ==> name == "XYZ"
    ensures 0 <= index < 6 ==> name == ["XYZ", "XZY", "YXZ", "YZX", "ZXY", "ZYX"][index]
    ensures |name| == 3
  {
    if 0 <= index < 6 then ["XYZ", "XZY", "YXZ", "YZX", "ZXY", "ZYX"][index] else "XYZ"
  }

  /** The property combo and the SetRotation action's combo list the six orders in the
      same sequence: index i names the order the action selects for i. */
  lemma RotationOrderNamesMatchActionOrders(index: int)
    requires 0 <= index < 6
    ensures RotationOrderName(index) == EulerOrderName(EulerOrderOf(index))
  {
  }

  /** The state the constructor sets up before any model exists. */
  function Fresh(view: HostView, props: Properties): (c: Controller)
    ensures c.model.None? && c.pendingModelPath.None? && c.commandQueue == [] && c.effects == []
    ensures c.lastScale == UnitScale && !c.scaleOverridden
    ensures !c.positionOverridden && !c.rotationOverridden && !c.callbacksRegistered
    ensures c.lastSynced == Vec3(view.x, view.y, view.zElevation) && c.lastSyncedAngle == view.angle
    ensures c.boneCache.tick == -1 && c.boneCache.entries == map[]
    ensures c.currentPlayingAnimation == "" && c.lastAnimationName == ""
    ensures c.modelName == props.modelName && c.debugRendering == props.debugRendering
    ensures c.initialRotation == props.initialRotation
    ensures c.rotationOrder == RotationOrderName(props.rotationOrderIndex)
    ensures !c.spriteVisible && c.lastOpacity == view.opacity && c.lastColor == view.color
  {
    Controller(
      model := None, pendingModelPath := None, modelName := props.modelName,
      debugRendering := props.debugRendering, spriteVisible := false, commandQueue := [],
      initialRotation := props.initialRotation, rotationOrder := RotationOrderName(props.rotationOrderIndex),
      positionOverridden := false, lastSynced := Vec3(view.x, view.y, view.zElevation),
      rotationOverridden := false, lastSyncedAngle := view.angle,
      scaleOverridden := false, lastScale := UnitScale,
      lastAnimationName := "", callbacksRegistered := false, currentPlayingAnimation := "",
      lastOpacity := view.opacity, lastColor := view.color,
      boneCache := BoneCache(map[], -1), effects := [])
  }

  /** The constructor: the fresh state, then `_createModel` when a model name is set. */
  function Construct(view: HostView, props: Properties, env: Env, outcome: CreateOutcome): (r: Controller)
    ensures r.lastScale == UnitScale
    ensures props.modelName == "" ==> r == Fresh(view, props)
    ensures props.modelName != "" && !(ManagerReady(env) && outcome.Returned?) ==>
              r.model.None? && r.pendingModelPath == Some(props.modelName)
    ensures props.modelName != "" && ManagerReady(env) && outcome.Returned? ==>
              r.model == Some(outcome.model) && r.pendingModelPath.None?
    ensures props.modelName != "" ==> r == CreateModel(Fresh(view, props), view, env, outcome, props.modelName)
  {
    var c := Fresh(view, props);
    if props.modelName != "" then CreateModel(c, view, env, outcome, props.modelName) else c
  }
}
