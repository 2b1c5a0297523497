/** The host-side controller's state (src/c3runtime/instance.ts): the fields of one
    plugin instance, the deferred commands it queues, and the calls it makes into the
    engine, which are recorded in an effects log instead of being performed. */
module ControllerState {
  import opened Common

  /** A colour as the host reports it, each channel in 0..1. */
  type Rgb = Vec3

  /** What the host object reports at a given moment. */
  datatype HostView = HostView(
    x: real, y: real, zElevation: real, totalZElevation: real, hasParent: bool,
    angle: real, opacity: real, color: Rgb)

  /** Which parts of the engine singleton are reachable right now. */
  datatype Env = Env(renderaPresent: bool, hasInstanceManager: bool,
                     canRegisterCallback: bool, canUnregisterCallback: bool)

  /** `globalThis.rendera?.instanceManager` is truthy. */
  predicate ManagerReady(env: Env) {
    env.renderaPresent && env.hasInstanceManager
  }

  /** The engine's model handle, as far as the controller uses it: its instance id. */
  datatype ModelRef = ModelRef(instanceId: int)

  /** What `instanceManager.createModel(path)` did: returned a model, returned `null`
      while the asset is still loading, or threw. */
  datatype CreateOutcome = Returned(model: ModelRef) | ReturnedNull | Threw

  /** The six Euler orders of the SetRotation action's combo. */
  datatype EulerOrder = XYZ | XZY | YXZ | YZX | ZXY | ZYX

  /** The three-letter name of an order. */
  function EulerOrderName(o: EulerOrder): (name: string)
    ensures |name| == 3
  {
    match o
    case XYZ => "XYZ"
    case XZY => "XZY"
    case YXZ => "YXZ"
    case YZX => "YZX"
    case ZXY => "ZXY"
    case ZYX => "ZYX"
  }

  /** Where a rotation handed to the engine came from; the quaternion arithmetic itself
      is not modelled. */
  datatype RotationSource =
    | FromEuler(x: real, y: real, z: real, order: EulerOrder)
    | FromAngle(angle: real)
    | FromInitialRotation(rx: real, ry: real, rz: real, rotationOrder: string)

  /** The options object PlayAnimation passes: loop, speed, and an optional blend. */
  datatype PlayOptions = PlayOptions(loop: bool, speed: real, blendDuration: Option<real>)

  /** A call on the engine's model handle. */
  datatype ModelCall =
    | SetPositionCall(position: Vec3)
    | SetRotationCall(rotation: RotationSource)
    | SetScaleCall(scale: Vec3)
    | PlayAnimationCall(animationName: string, options: PlayOptions)
    | StopAnimationCall
    | SetAnimationSpeedCall(speed: real)
    | UpdateAnimationCall(deltaTime: real)
    | SetOpacityCall(opacity: real)
    | SetTintColorCall(color: Rgb)
    | EnableAllNodesCall
    | DisableAllNodesCall
    | EnableNodeCall(nodeName: string)
    | DisableNodeCall(nodeName: string)
    | SetMaterialCall(materialNode: string, materialIndex: int)
    | ResetMaterialsCall

  /** The plugin's condition triggers. */
  datatype TriggerKind = OnModelCreated | OnAnimationFinished | OnAnimationLoop | OnAnimationStart | OnAnimationStop

  /** Everything the controller does to the outside world, in order. */
  datatype Effect =
    | Call(target: int, call: ModelCall)
    | RemoveInstance(removed: int)
    | RegisterCallback(registered: int)
    | UnregisterCallback(unregistered: int)
    | Trigger(kind: TriggerKind)

  /** A deferred action: the closure an action pushes when no model exists yet. */
  datatype Command =
    | PlayCmd(animationName: string, options: PlayOptions)
    | StopCmd
    | SpeedCmd(speed: real)
    | ScaleCmd(scale: Vec3)
    | PositionCmd(position: Vec3)
    | RotationCmd(rx: real, ry: real, rz: real, order: int)
    | EnableAllNodesCmd
    | DisableAllNodesCmd
    | EnableNodeCmd(nodeName: string)
    | DisableNodeCmd(nodeName: string)
    | SetMaterialCmd(materialNode: string, materialIndex: int)
    | ResetMaterialsCmd

  /** The per-tick bone-position memo: cached results (a `null` result included) and
      the tick they belong to. */
  datatype BoneCache = BoneCache(entries: map<string, Option<Vec3>>, tick: int)

  datatype Controller = Controller(
    model: Option<ModelRef>,
    pendingModelPath: Option<string>,
    modelName: string,
    debugRendering: bool,
    spriteVisible: bool,
    commandQueue: seq<Command>,
    initialRotation: Vec3,
    rotationOrder: string,
    positionOverridden: bool,
    lastSynced: Vec3,
    rotationOverridden: bool,
    lastSyncedAngle: real,
    scaleOverridden: bool,
    lastScale: Vec3,
    lastAnimationName: string,
    callbacksRegistered: bool,
    currentPlayingAnimation: string,
    lastOpacity: real,
    lastColor: Rgb,
    boneCache: BoneCache,
    effects: seq<Effect>)

  /** `this._pendingModelPath` is truthy: set and not the empty string. */
  predicate HasPendingPath(c: Controller) {
    c.pendingModelPath.Some? && c.pendingModelPath.value != ""
  }

  /** Appends one call on the current model; with no model (`?.`) nothing happens. */
  function CallModel(c: Controller, call: ModelCall): (r: Controller)
    ensures c.model.None? ==> r == c
    ensures c.model.Some? ==> r.effects == c.effects + [Call(c.model.value.instanceId, call)]
    ensures r.(effects := c.effects) == c
  {
    match c.model
    case None => c
    case Some(m) => c.(effects := c.effects + [Call(m.instanceId, call)])
  }

  /** The effects log only grows. */
  ghost predicate Extends(r: Controller, c: Controller) {
    |c.effects| <= |r.effects| && r.effects[..|c.effects|] == c.effects
  }

  /** An effect once logged stays logged. */
  lemma ExtendsKeeps(r: Controller, c: Controller, e: Effect)
    requires Extends(r, c) && e in c.effects
    ensures e in r.effects
  {
    var k :| 0 <= k < |c.effects| && c.effects[k] == e;
    assert r.effects[k] == r.effects[..|c.effects|][k];
  }

  lemma ExtendsTransitive(a: Controller, b: Controller, c: Controller)
    requires Extends(b, a) && Extends(c, b)
    ensures Extends(c, a)
  {
    assert c.effects[..|a.effects|] == c.effects[..|b.effects|][..|a.effects|];
  }
}
