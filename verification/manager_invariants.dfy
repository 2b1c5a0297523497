/** The instance manager's bookkeeping invariant is kept by every operation, and ids
    handed out over any run of operations are strictly increasing and never reused. */
module ManagerInvariants {
  import opened Common
  import opened ModelAssets
  import opened InstanceManager

  lemma EmptyIsValid()
    ensures Valid(Empty)
  {
  }

  /** Any operation that changes only one instance's data, and marks at most that
      (live) instance dirty, keeps the invariant. */
  lemma ChangesOnlyPreservesValid(m: Manager, r: Manager, id: int)
    requires Valid(m)
    requires ChangesOnly(m, r, id)
    requires r.dirtyInstances <= m.dirtyInstances + (if id in m.instances then {id} else {})
    ensures Valid(r)
  {
    forall j | j in r.instances
      ensures r.instances[j].instanceId == m.instances[j].instanceId
    {
    }
  }

  /** Creation keeps the invariant, and the id it hands out was not live. */
  lemma CreatePreservesValid(m: Manager, loader: Loader, ctl: AnimationController, modelId: string, animationName: Option<string>)
    requires Valid(m)
    ensures var r := CreateModel(m, loader, ctl, modelId, animationName);
            r.Ok? ==> Valid(r.value.manager) && r.value.model.instanceId.id !in m.instances
  {
    var r := CreateModel(m, loader, ctl, modelId, animationName);
    if r.Ok? {
      var n := r.value.manager;
      var id := m.nextInstanceId;
      assert id !in m.instances;
      forall k, j | k in n.instancesByModel && j in n.instancesByModel[k]
        ensures j in n.instances && n.instances[j].instanceId.modelId == k
      {
        assert j in Group(n.instancesByModel, k);
        if j != id {
          assert j in Group(m.instancesByModel, k);
        }
      }
      forall j | j in n.instances
        ensures j in Group(n.instancesByModel, n.instances[j].instanceId.modelId)
      {
        if j != id {
          assert j in Group(m.instancesByModel, m.instances[j].instanceId.modelId);
        }
      }
    }
  }

  /** Deletion keeps the invariant; afterwards the id is gone from every group. */
  lemma DeletePreservesValid(m: Manager, instanceId: int)
    requires Valid(m)
    ensures Valid(DeleteModel(m, instanceId))
    ensures forall k :: instanceId !in Group(DeleteModel(m, instanceId).instancesByModel, k)
  {
    var r := DeleteModel(m, instanceId);
    if instanceId in m.instances {
      var gone := m.instances[instanceId].instanceId;
      assert gone.id == instanceId;
      forall k, j | k in r.instancesByModel && j in r.instancesByModel[k]
        ensures j in r.instances && r.instances[j].instanceId.modelId == k
      {
        assert j in Group(r.instancesByModel, k);
        assert j in Group(m.instancesByModel, k);
      }
      forall j | j in r.instances
        ensures j in Group(r.instancesByModel, r.instances[j].instanceId.modelId)
      {
        assert j in Group(m.instancesByModel, m.instances[j].instanceId.modelId);
      }
      forall k ensures instanceId !in Group(r.instancesByModel, k) {
        if instanceId in Group(m.instancesByModel, k) {
          assert k == gone.modelId;
        }
      }
    } else {
      forall k ensures instanceId !in Group(r.instancesByModel, k) {
      }
    }
  }

  /** Deleting twice is deleting once. */
  lemma DeleteIsIdempotent(m: Manager, instanceId: int)
    ensures DeleteModel(DeleteModel(m, instanceId), instanceId) == DeleteModel(m, instanceId)
  {
  }

  /** One call on the manager's public surface. */
  datatype Op =
    | CreateOp(modelId: string, requestedClip: Option<string>)
    | DeleteOp(instanceId: int)
    | SetPositionOp(x: real, y: real, z: real, target: Model)
    | SetRotationOp(quaternion: Quat, target: Model)
    | SetScaleOp(x: real, y: real, z: real, target: Model)
    | SetNormalMapOp(enabled: bool, target: Model)
    | PlayOp(clip: string, target: Model, options: Option<AnimationOptions>)
    | StopOp(target: Model)
    | UpdateAnimationOp(target: Model, deltaTime: real)
    | BindPoseOp(target: Model)
    | UpdateInstanceOp(instanceId: int, deltaTime: real)
    | InitializeOp
    | DebugShadowMapOp(enabled: bool)

  /** The manager after `op`, and the id it handed out, if any. A failed creation
      leaves the manager as it was. */
  datatype Outcome = Outcome(manager: Manager, issued: Option<int>)

  function Step(m: Manager, loader: Loader, ctl: AnimationController, op: Op): Outcome {
    match op
    case CreateOp(modelId, name) =>
      (match CreateModel(m, loader, ctl, modelId, name)
       case Ok(c) => Outcome(c.manager, Some(c.model.instanceId.id))
       case Err(_) => Outcome(m, None))
    case DeleteOp(id) => Outcome(DeleteModel(m, id), None)
    case SetPositionOp(x, y, z, t) => Outcome(SetModelPosition(m, x, y, z, t), None)
    case SetRotationOp(q, t) => Outcome(SetModelRotation(m, q, t), None)
    case SetScaleOp(x, y, z, t) => Outcome(SetModelScale(m, x, y, z, t), None)
    case SetNormalMapOp(e, t) => Outcome(SetModelNormalMapEnabled(m, e, t), None)
    case PlayOp(name, t, o) => Outcome(PlayModelAnimation(m, name, t, o), None)
    case StopOp(t) => Outcome(StopModelAnimation(m, t), None)
    case UpdateAnimationOp(t, dt) => Outcome(UpdateModelAnimation(m, ctl, t, dt), None)
    case BindPoseOp(t) => Outcome(SetModelBindPose(m, ctl, t), None)
    case UpdateInstanceOp(id, dt) => Outcome(UpdateInstance(m, ctl, id, dt), None)
    case InitializeOp => Outcome(Initialize(m), None)
    case DebugShadowMapOp(e) => Outcome(SetDebugShadowMap(m, e), None)
  }

  /** Every operation keeps the invariant; only a successful creation moves the
      counter, by exactly one, and the id it hands out is the old counter. */
  lemma StepPreservesValid(m: Manager, loader: Loader, ctl: AnimationController, op: Op)
    requires Valid(m)
    ensures var o := Step(m, loader, ctl, op);
            && Valid(o.manager)
            && (o.issued.Some? ==> o.issued.value == m.nextInstanceId && o.manager.nextInstanceId == m.nextInstanceId + 1)
            && (o.issued.None? ==> o.manager.nextInstanceId == m.nextInstanceId)
  {
    match op
    case CreateOp(modelId, name) => CreatePreservesValid(m, loader, ctl, modelId, name);
    case DeleteOp(id) => DeletePreservesValid(m, id);
    case UpdateInstanceOp(id, dt) => ChangesOnlyPreservesValid(m, Step(m, loader, ctl, op).manager, id);
    case InitializeOp =>
    case DebugShadowMapOp(e) =>
    case _ =>
      if op.SetPositionOp? || op.SetRotationOp? || op.SetScaleOp? || op.SetNormalMapOp? {
        TransformStepPreservesValid(m, loader, ctl, op);
      } else {
        AnimationStepPreservesValid(m, loader, ctl, op);
      }
  }

  lemma TransformStepPreservesValid(m: Manager, loader: Loader, ctl: AnimationController, op: Op)
    requires Valid(m)
    requires op.SetPositionOp? || op.SetRotationOp? || op.SetScaleOp? || op.SetNormalMapOp?
    ensures var o := Step(m, loader, ctl, op);
            Valid(o.manager) && o.issued.None? && o.manager.nextInstanceId == m.nextInstanceId
  {
    ChangesOnlyPreservesValid(m, Step(m, loader, ctl, op).manager, op.target.instanceId.id);
  }

  lemma AnimationStepPreservesValid(m: Manager, loader: Loader, ctl: AnimationController, op: Op)
    requires Valid(m)
    requires op.PlayOp? || op.StopOp? || op.UpdateAnimationOp? || op.BindPoseOp?
    ensures var o := Step(m, loader, ctl, op);
            Valid(o.manager) && o.issued.None? && o.manager.nextInstanceId == m.nextInstanceId
  {
    ChangesOnlyPreservesValid(m, Step(m, loader, ctl, op).manager, op.target.instanceId.id);
  }

  /** A creation on a model id the loader does not know fails before any id is taken,
      so the next successful creation receives the id the failed one would have had. */
  lemma FailedCreateAllocatesNothing(m: Manager, loader: Loader, ctl: AnimationController,
                                     missing: string, present: string, a: Option<string>, b: Option<string>)
    requires missing !in loader && present in loader
    ensures var failed := Step(m, loader, ctl, CreateOp(missing, a));
            && failed.manager == m && failed.issued.None?
            && Step(failed.manager, loader, ctl, CreateOp(present, b)).issued == Some(m.nextInstanceId)
  {
  }

  datatype RunOutcome = RunOutcome(manager: Manager, issued: seq<int>)

  /** Apply `ops` in order, collecting the ids handed out. */
  function Run(m: Manager, loader: Loader, ctl: AnimationController, ops: seq<Op>): RunOutcome
    decreases |ops|
  {
    if |ops| == 0 then RunOutcome(m, [])
    else
      var o := Step(m, loader, ctl, ops[0]);
      var rest := Run(o.manager, loader, ctl, ops[1..]);
      RunOutcome(rest.manager, (if o.issued.Some? then [o.issued.value] else []) + rest.issued)
  }

  ghost predicate StrictlyIncreasing(s: seq<int>) {
    forall i, j :: 0 <= i < j < |s| ==> s[i] < s[j]
  }

  /** Over any sequence of operations from a valid manager, the ids handed out are
      strictly increasing, lie between the old and the new counter (so none was ever
      live before), and the invariant holds at the end. */
  lemma {:induction false} IdsNeverReused(m: Manager, loader: Loader, ctl: AnimationController, ops: seq<Op>)
    requires Valid(m)
    ensures var r := Run(m, loader, ctl, ops);
            && Valid(r.manager)
            && StrictlyIncreasing(r.issued)
            && m.nextInstanceId <= r.manager.nextInstanceId
            && (forall i :: 0 <= i < |r.issued| ==> m.nextInstanceId <= r.issued[i] < r.manager.nextInstanceId)
            && (forall i :: 0 <= i < |r.issued| ==> r.issued[i] !in m.instances)
    decreases |ops|
  {
    if |ops| > 0 {
      var o := Step(m, loader, ctl, ops[0]);
      StepPreservesValid(m, loader, ctl, ops[0]);
      IdsNeverReused(o.manager, loader, ctl, ops[1..]);
    }
  }
}
