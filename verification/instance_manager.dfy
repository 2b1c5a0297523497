/** The engine's instance table (rendera-reference/InstanceManager.ts): instance ids,
    per-model instance groups, the dirty set, and the animation state transitions.
    Matrices, GPU buffers and the animation controller's evaluation are opaque: the
    controller is passed in as a pair of functions. */
module InstanceManager {
  import opened Common
  import opened ModelAssets

  datatype ModelErrorCode = ResourceNotFound

  /** `createError(RESOURCE_NOT_FOUND, "Model <id> not found")`. */
  datatype ModelError = ModelError(code: ModelErrorCode, modelId: string)

  datatype Result<T> = Ok(value: T) | Err(error: ModelError)

  datatype InstanceId = InstanceId(id: int, modelId: string)

  /** The handle `createModel` returns (Model.ts). It remembers only its instance id;
      every operation on it goes through the manager. */
  datatype Model = Model(instanceId: InstanceId)

  datatype Transform = Transform(position: Vec3, rotation: Quat, scale: Vec3)

  datatype RenderOptions = RenderOptions(useNormalMap: bool)

  /** The controller's output (animation matrices, node transforms, bone matrices),
      opaque to the manager. */
  datatype Pose = Pose(animationMatrices: map<nat, seq<real>>, nodeTransforms: map<nat, seq<real>>, boneMatrices: map<nat, seq<real>>)

  const EmptyPose := Pose(map[], map[], map[])

  datatype AnimationState = AnimationState(
    currentAnimation: Option<string>,
    currentTime: real,
    speed: real,
    loop: bool,
    playing: bool,
    pose: Pose)

  /** `AnimationOptions`: every field optional. */
  datatype AnimationOptions = AnimationOptions(speed: Option<real>, loop: Option<bool>, blendDuration: Option<real>)

  /** `worldMatrix` is `None` while it is still the zero-filled array of a fresh instance,
      and `Some(t)` once it has been recomputed from transform `t`. */
  datatype InstanceData = InstanceData(
    instanceId: InstanceId,
    transform: Transform,
    renderOptions: RenderOptions,
    animationState: AnimationState,
    worldMatrix: Option<Transform>)

  /** The external animation controller: advancing a state by a time step, and
      resetting it to the bind pose. */
  datatype AnimationController = AnimationController(
    advance: (AnimationState, real) -> AnimationState,
    bindPose: AnimationState -> AnimationState)

  datatype Manager = Manager(
    instances: map<int, InstanceData>,
    instancesByModel: map<string, set<int>>,
    nextInstanceId: int,
    dirtyInstances: set<int>,
    debugShadowMap: bool)

  /** The manager as its constructor leaves it. */
  const Empty := Manager(map[], map[], 1, {}, false)

  datatype Created = Created(manager: Manager, model: Model)

  /** The group of model `k`, empty when the model has no entry. */
  function Group(byModel: map<string, set<int>>, k: string): set<int> {
    if k in byModel then byModel[k] else {}
  }

  /** The bookkeeping invariant: ids are below the counter and agree with their keys,
      groups hold exactly the live instances of their model, no group is empty, and
      only live instances are dirty. */
  ghost predicate Valid(m: Manager) {
    && 1 <= m.nextInstanceId
    && (forall id :: id in m.instances ==>
          m.instances[id].instanceId.id == id && 1 <= id < m.nextInstanceId)
    && (forall k :: k in m.instancesByModel ==> m.instancesByModel[k] != {})
    && (forall k, id :: k in m.instancesByModel && id in m.instancesByModel[k] ==>
          id in m.instances && m.instances[id].instanceId.modelId == k)
    && (forall id :: id in m.instances ==>
          id in Group(m.instancesByModel, m.instances[id].instanceId.modelId))
    && m.dirtyInstances <= m.instances.Keys
  }

  /** `r` differs from `m` at most in the data (not the id) of instance `id` and in the dirty set. */
  ghost predicate ChangesOnly(m: Manager, r: Manager, id: int) {
    && r.instancesByModel == m.instancesByModel
    && r.nextInstanceId == m.nextInstanceId
    && r.debugShadowMap == m.debugShadowMap
    && r.instances.Keys == m.instances.Keys
    && (forall j :: j in m.instances && j != id ==> r.instances[j] == m.instances[j])
    && (id in m.instances ==> r.instances[id].instanceId == m.instances[id].instanceId)
  }

  /** The clip a new instance starts with. */
  function DefaultAnimation(model: ModelData, requested: Option<string>): (r: Option<string>)
    ensures r.Some? <==> |model.animations| > 0
    ensures r.Some? ==> r.value in model.animations
    ensures requested.Some? && requested.value != "" && requested.value in model.animations ==> r == requested
    ensures |model.animations| > 0 && (requested.None? || requested.value == "" || requested.value !in model.animations) ==>
              r == Some(model.animations[0])
  {
    if |model.animations| > 0 then
      // `!animationName` also treats the empty name as absent
      if requested.None? || requested.value == "" || requested.value !in model.animations
      then Some(model.animations[0])
      else requested
    else None
  }

  function NewInstanceData(instanceId: InstanceId, animation: Option<string>): InstanceData {
    InstanceData(
      instanceId,
      Transform(Origin, IdentityRotation, UnitScale),
      RenderOptions(false),
      AnimationState(animation, 0.0, 1.0, true, false, EmptyPose),
      None)
  }

  function AddToModelGroup(byModel: map<string, set<int>>, instanceId: InstanceId): (r: map<string, set<int>>)
    ensures r.Keys == byModel.Keys + {instanceId.modelId}
    ensures forall k :: Group(r, k) == Group(byModel, k) + (if k == instanceId.modelId then {instanceId.id} else {})
  {
    var k := instanceId.modelId;
    if k in byModel then byModel[k := byModel[k] + {instanceId.id}] else byModel[k := {instanceId.id}]
  }

  function RemoveFromModelGroup(byModel: map<string, set<int>>, instanceId: InstanceId): (r: map<string, set<int>>)
    ensures forall k :: Group(r, k) == Group(byModel, k) - (if k == instanceId.modelId then {instanceId.id} else {})
    ensures r.Keys <= byModel.Keys
    ensures forall k :: k in byModel && k != instanceId.modelId ==> k in r && r[k] == byModel[k]
    ensures instanceId.modelId in r ==> r[instanceId.modelId] != {}
  {
    var k := instanceId.modelId;
    if k in byModel then
      var g := byModel[k] - {instanceId.id};
      if g == {} then byModel - {k} else byModel[k := g]
    else byModel
  }

  /** True when `updateAnimation` does any work. */
  predicate IsAnimating(s: AnimationState) {
    s.currentAnimation.Some? && s.playing
  }

  /** `updateAnimation(instance, dt)` on the live instance `id`. */
  function UpdateAnimation(m: Manager, ctl: AnimationController, id: int, dt: real): (r: Manager)
    ensures id !in m.instances || !IsAnimating(m.instances[id].animationState) ==> r == m
    ensures id in m.instances && IsAnimating(m.instances[id].animationState) ==>
              && ChangesOnly(m, r, id)
              && r.dirtyInstances == m.dirtyInstances + {id}
              && r.instances[id] == m.instances[id].(animationState := ctl.advance(m.instances[id].animationState, dt))
  {
    if id in m.instances && IsAnimating(m.instances[id].animationState) then
      var d := m.instances[id];
      m.(instances := m.instances[id := d.(animationState := ctl.advance(d.animationState, dt))],
         dirtyInstances := m.dirtyInstances + {id})
    else m
  }

  function CreateModel(m: Manager, loader: Loader, ctl: AnimationController, modelId: string, animationName: Option<string>): (r: Result<Created>)
    ensures r.Err? <==> modelId !in loader
    ensures r.Err? ==> r.error == ModelError(ResourceNotFound, modelId)
    ensures r.Ok? ==>
              var id := m.nextInstanceId;
              var n := r.value.manager;
              && r.value.model.instanceId == InstanceId(id, modelId)
              && n.nextInstanceId == id + 1
              && n.instances.Keys == m.instances.Keys + {id}
              && (forall j :: j in m.instances && j != id ==> n.instances[j] == m.instances[j])
              && n.instancesByModel == AddToModelGroup(m.instancesByModel, InstanceId(id, modelId))
              && n.dirtyInstances == m.dirtyInstances
              && n.debugShadowMap == m.debugShadowMap
    ensures r.Ok? ==>
              var d := r.value.manager.instances[m.nextInstanceId];
              && d.instanceId == InstanceId(m.nextInstanceId, modelId)
              && d.transform == Transform(Vec3(0.0, 0.0, 0.0), Quat(0.0, 0.0, 0.0, 1.0), Vec3(1.0, 1.0, 1.0))
              && !d.renderOptions.useNormalMap
              && d.animationState.currentAnimation == DefaultAnimation(loader[modelId], animationName)
              && d.animationState.currentTime == 0.0
              && d.animationState.speed == 1.0
              && d.animationState.loop
              && !d.animationState.playing
  {
    if modelId !in loader then Err(ModelError(ResourceNotFound, modelId))
    else
      var instanceId := InstanceId(m.nextInstanceId, modelId);
      var data := NewInstanceData(instanceId, DefaultAnimation(loader[modelId], animationName));
      var stored := m.(instances := m.instances[instanceId.id := data], nextInstanceId := m.nextInstanceId + 1);
      // the bind-pose update for 0 seconds: gated off, a fresh instance is not playing
      var posed := UpdateAnimation(stored, ctl, instanceId.id, 0.0);
      Ok(Created(posed.(instancesByModel := AddToModelGroup(posed.instancesByModel, instanceId)), Model(instanceId)))
  }

  /** `deleteModel(id)`, i.e. `cleanupInstance(id)`. */
  function DeleteModel(m: Manager, instanceId: int): (r: Manager)
    ensures instanceId !in m.instances ==> r == m
    ensures instanceId in m.instances ==>
              && r.instances == m.instances - {instanceId}
              && r.dirtyInstances == m.dirtyInstances - {instanceId}
              && r.instancesByModel == RemoveFromModelGroup(m.instancesByModel, m.instances[instanceId].instanceId)
              && r.nextInstanceId == m.nextInstanceId
              && r.debugShadowMap == m.debugShadowMap
  {
    if instanceId !in m.instances then m
    else
      var d := m.instances[instanceId];
      m.(instancesByModel := RemoveFromModelGroup(m.instancesByModel, d.instanceId),
         instances := m.instances - {instanceId},
         dirtyInstances := m.dirtyInstances - {instanceId})
  }

  function SetModelPosition(m: Manager, x: real, y: real, z: real, instance: Model): (r: Manager)
    ensures r.instances.Keys == m.instances.Keys
    ensures instance.instanceId.id !in m.instances ==> r == m
    ensures instance.instanceId.id in m.instances ==>
              var id := instance.instanceId.id;
              var (d, e) := (m.instances[id], r.instances[id]);
              && ChangesOnly(m, r, id)
              && r.dirtyInstances == m.dirtyInstances + {id}
              && e.transform.position == Vec3(x, y, z)
              && e.transform.rotation == d.transform.rotation && e.transform.scale == d.transform.scale
              && e.renderOptions == d.renderOptions && e.animationState == d.animationState
              && e.worldMatrix == d.worldMatrix
  {
    var id := instance.instanceId.id;
    if id in m.instances then
      var d := m.instances[id];
      m.(instances := m.instances[id := d.(transform := d.transform.(position := Vec3(x, y, z)))],
         dirtyInstances := m.dirtyInstances + {id})
    else m
  }

  function SetModelRotation(m: Manager, quaternion: Quat, instance: Model): (r: Manager)
    ensures r.instances.Keys == m.instances.Keys
    ensures instance.instanceId.id !in m.instances ==> r == m
    ensures instance.instanceId.id in m.instances ==>
              var id := instance.instanceId.id;
              var (d, e) := (m.instances[id], r.instances[id]);
              && ChangesOnly(m, r, id)
              && r.dirtyInstances == m.dirtyInstances + {id}
              && e.transform.rotation == quaternion
              && e.transform.position == d.transform.position && e.transform.scale == d.transform.scale
              && e.renderOptions == d.renderOptions && e.animationState == d.animationState
              && e.worldMatrix == d.worldMatrix
  {
    var id := instance.instanceId.id;
    if id in m.instances then
      var d := m.instances[id];
      m.(instances := m.instances[id := d.(transform := d.transform.(rotation := quaternion))],
         dirtyInstances := m.dirtyInstances + {id})
    else m
  }

  function SetModelScale(m: Manager, x: real, y: real, z: real, instance: Model): (r: Manager)
    ensures r.instances.Keys == m.instances.Keys
    ensures instance.instanceId.id !in m.instances ==> r == m
    ensures instance.instanceId.id in m.instances ==>
              var id := instance.instanceId.id;
              var (d, e) := (m.instances[id], r.instances[id]);
              && ChangesOnly(m, r, id)
              && r.dirtyInstances == m.dirtyInstances + {id}
              && e.transform.scale == Vec3(x, y, z)
              && e.transform.position == d.transform.position && e.transform.rotation == d.transform.rotation
              && e.renderOptions == d.renderOptions && e.animationState == d.animationState
              && e.worldMatrix == d.worldMatrix
  {
    var id := instance.instanceId.id;
    if id in m.instances then
      var d := m.instances[id];
      m.(instances := m.instances[id := d.(transform := d.transform.(scale := Vec3(x, y, z)))],
         dirtyInstances := m.dirtyInstances + {id})
    else m
  }

  function SetModelNormalMapEnabled(m: Manager, enabled: bool, instance: Model): (r: Manager)
    ensures r.instances.Keys == m.instances.Keys
    ensures instance.instanceId.id !in m.instances ==> r == m
    ensures instance.instanceId.id in m.instances ==>
              var id := instance.instanceId.id;
              var (d, e) := (m.instances[id], r.instances[id]);
              && ChangesOnly(m, r, id)
              && r.dirtyInstances == m.dirtyInstances + {id}
              && e.renderOptions.useNormalMap == enabled
              && e.transform == d.transform && e.animationState == d.animationState
              && e.worldMatrix == d.worldMatrix
  {
    var id := instance.instanceId.id;
    if id in m.instances then
      var d := m.instances[id];
      m.(instances := m.instances[id := d.(renderOptions := d.renderOptions.(useNormalMap := enabled))],
         dirtyInstances := m.dirtyInstances + {id})
    else m
  }

  /** `startAnimation`: the named clip from time 0, playing; speed and loop are
      overwritten only when options are passed. `blendDuration` is not read. */
  function StartAnimation(s: AnimationState, animationName: string, options: Option<AnimationOptions>): (r: AnimationState)
    ensures r.currentAnimation == Some(animationName) && r.currentTime == 0.0 && r.playing
    ensures options.None? ==> r.speed == s.speed && r.loop == s.loop
    ensures options.Some? ==>
              && r.speed == (if options.value.speed.Some? then options.value.speed.value else 1.0)
              && r.loop == (if options.value.loop.Some? then options.value.loop.value else true)
    ensures r.pose == s.pose
  {
    var started := s.(currentAnimation := Some(animationName), currentTime := 0.0, playing := true);
    match options
    case None => started
    case Some(o) => started.(speed := o.speed.GetOr(1.0), loop := o.loop.GetOr(true))
  }

  function PlayModelAnimation(m: Manager, animationName: string, instance: Model, options: Option<AnimationOptions>): (r: Manager)
    ensures instance.instanceId.id !in m.instances ==> r == m
    ensures instance.instanceId.id in m.instances ==>
              var id := instance.instanceId.id;
              && ChangesOnly(m, r, id)
              && r.dirtyInstances == m.dirtyInstances
              && r.instances[id] == m.instances[id].(animationState := StartAnimation(m.instances[id].animationState, animationName, options))
  {
    var id := instance.instanceId.id;
    if id in m.instances then
      var d := m.instances[id];
      m.(instances := m.instances[id := d.(animationState := StartAnimation(d.animationState, animationName, options))])
    else m
  }

  /** `stopModelAnimation`: only the current clip is cleared; `playing` is left as it was. */
  function StopModelAnimation(m: Manager, instance: Model): (r: Manager)
    ensures r.instances.Keys == m.instances.Keys
    ensures instance.instanceId.id !in m.instances ==> r == m
    ensures instance.instanceId.id in m.instances ==>
              var id := instance.instanceId.id;
              var (s, t) := (m.instances[id].animationState, r.instances[id].animationState);
              && ChangesOnly(m, r, id)
              && r.dirtyInstances == m.dirtyInstances
              && r.instances[id] == m.instances[id].(animationState := t)
              && t == s.(currentAnimation := None)
              && !IsAnimating(t)
  {
    var id := instance.instanceId.id;
    if id in m.instances then
      var d := m.instances[id];
      m.(instances := m.instances[id := d.(animationState := d.animationState.(currentAnimation := None))])
    else m
  }

  function UpdateModelAnimation(m: Manager, ctl: AnimationController, instance: Model, deltaTime: real): (r: Manager)
    ensures instance.instanceId.id !in m.instances || !IsAnimating(m.instances[instance.instanceId.id].animationState) ==> r == m
    ensures instance.instanceId.id in m.instances && IsAnimating(m.instances[instance.instanceId.id].animationState) ==>
              var id := instance.instanceId.id;
              && ChangesOnly(m, r, id)
              && r.dirtyInstances == m.dirtyInstances + {id}
              && r.instances[id] == m.instances[id].(animationState := ctl.advance(m.instances[id].animationState, deltaTime))
  {
    var id := instance.instanceId.id;
    if id in m.instances then UpdateAnimation(m, ctl, id, deltaTime) else m
  }

  function SetModelBindPose(m: Manager, ctl: AnimationController, instance: Model): (r: Manager)
    ensures instance.instanceId.id !in m.instances ==> r == m
    ensures instance.instanceId.id in m.instances ==>
              var id := instance.instanceId.id;
              && ChangesOnly(m, r, id)
              && r.dirtyInstances == m.dirtyInstances
              && r.instances[id] == m.instances[id].(animationState := ctl.bindPose(m.instances[id].animationState))
  {
    var id := instance.instanceId.id;
    if id in m.instances then
      var d := m.instances[id];
      m.(instances := m.instances[id := d.(animationState := ctl.bindPose(d.animationState))])
    else m
  }

  /** `updateInstance(id, dt)`: advance the animation when a clip is set (still gated on
      `playing`), then recompute the world matrix when the instance is dirty. The dirty
      mark is not cleared. */
  function UpdateInstance(m: Manager, ctl: AnimationController, instanceId: int, deltaTime: real): (r: Manager)
    ensures r.instances.Keys == m.instances.Keys
    ensures instanceId !in m.instances ==> r == m
    ensures instanceId in m.instances ==>
              var (d, e) := (m.instances[instanceId], r.instances[instanceId]);
              && ChangesOnly(m, r, instanceId)
              && e.transform == d.transform
              && e.renderOptions == d.renderOptions
              && e.animationState == (if IsAnimating(d.animationState) then ctl.advance(d.animationState, deltaTime) else d.animationState)
              && r.dirtyInstances == m.dirtyInstances + (if IsAnimating(d.animationState) then {instanceId} else {})
              && e.worldMatrix == (if instanceId in r.dirtyInstances then Some(d.transform) else d.worldMatrix)
  {
    if instanceId !in m.instances then m
    else
      var animated := if m.instances[instanceId].animationState.currentAnimation.Some?
                      then UpdateAnimation(m, ctl, instanceId, deltaTime) else m;
      if instanceId in animated.dirtyInstances then
        var d := animated.instances[instanceId];
        animated.(instances := animated.instances[instanceId := d.(worldMatrix := Some(d.transform))])
      else animated
  }

  /** The bookkeeping part of `initialize()`: the dirty set is emptied. */
  function Initialize(m: Manager): (r: Manager)
    ensures r.dirtyInstances == {}
    ensures r.instances == m.instances && r.instancesByModel == m.instancesByModel
    ensures r.nextInstanceId == m.nextInstanceId && r.debugShadowMap == m.debugShadowMap
  {
    m.(dirtyInstances := {})
  }

  function SetDebugShadowMap(m: Manager, enabled: bool): (r: Manager)
    ensures r.debugShadowMap == enabled
    ensures r.(debugShadowMap := m.debugShadowMap) == m
  {
    m.(debugShadowMap := enabled)
  }
}
