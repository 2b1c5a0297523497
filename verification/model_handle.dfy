/** The `Model` handle (rendera-reference/Model.ts). A handle holds a fixed instance id
    and forwards every call, with itself as the target, to its manager; it owns no state. */
module ModelHandle {
  import opened Common
  import opened InstanceManager

  function SetNormalMapEnabled(h: Model, m: Manager, enabled: bool): (r: Manager)
    ensures h.instanceId.id !in m.instances ==> r == m
    ensures h.instanceId.id in m.instances ==>
              var id := h.instanceId.id;
              var d := m.instances[id];
              && ChangesOnly(m, r, id)
              && r.dirtyInstances == m.dirtyInstances + {id}
              && r.instances[id] == d.(renderOptions := d.renderOptions.(useNormalMap := enabled))
  {
    SetModelNormalMapEnabled(m, enabled, h)
  }

  function SetPosition(h: Model, m: Manager, x: real, y: real, z: real): (r: Manager)
    ensures h.instanceId.id !in m.instances ==> r == m
    ensures h.instanceId.id in m.instances ==>
              var id := h.instanceId.id;
              var d := m.instances[id];
              && ChangesOnly(m, r, id)
              && r.dirtyInstances == m.dirtyInstances + {id}
              && r.instances[id] == d.(transform := d.transform.(position := Vec3(x, y, z)))
  {
    SetModelPosition(m, x, y, z, h)
  }

  function SetRotation(h: Model, m: Manager, quaternion: Quat): (r: Manager)
    ensures h.instanceId.id !in m.instances ==> r == m
    ensures h.instanceId.id in m.instances ==>
              var id := h.instanceId.id;
              var d := m.instances[id];
              && ChangesOnly(m, r, id)
              && r.dirtyInstances == m.dirtyInstances + {id}
              && r.instances[id] == d.(transform := d.transform.(rotation := quaternion))
  {
    SetModelRotation(m, quaternion, h)
  }

  function SetScale(h: Model, m: Manager, x: real, y: real, z: real): (r: Manager)
    ensures h.instanceId.id !in m.instances ==> r == m
    ensures h.instanceId.id in m.instances ==>
              var id := h.instanceId.id;
              var d := m.instances[id];
              && ChangesOnly(m, r, id)
              && r.dirtyInstances == m.dirtyInstances + {id}
              && r.instances[id] == d.(transform := d.transform.(scale := Vec3(x, y, z)))
  {
    SetModelScale(m, x, y, z, h)
  }

  /** The name and the options reach `startAnimation` unchanged. */
  function PlayAnimation(h: Model, m: Manager, animationName: string, options: Option<AnimationOptions>): (r: Manager)
    ensures h.instanceId.id !in m.instances ==> r == m
    ensures h.instanceId.id in m.instances ==>
              var id := h.instanceId.id;
              var s := m.instances[id].animationState;
              && ChangesOnly(m, r, id)
              && r.dirtyInstances == m.dirtyInstances
              && r.instances[id] == m.instances[id].(animationState := StartAnimation(s, animationName, options))
  {
    PlayModelAnimation(m, animationName, h, options)
  }

  function UpdateAnimation(h: Model, m: Manager, ctl: AnimationController, deltaTime: real): (r: Manager)
    ensures h.instanceId.id !in m.instances || !IsAnimating(m.instances[h.instanceId.id].animationState) ==> r == m
    ensures h.instanceId.id in m.instances && IsAnimating(m.instances[h.instanceId.id].animationState) ==>
              var id := h.instanceId.id;
              && ChangesOnly(m, r, id)
              && r.dirtyInstances == m.dirtyInstances + {id}
              && r.instances[id] == m.instances[id].(animationState := ctl.advance(m.instances[id].animationState, deltaTime))
  {
    UpdateModelAnimation(m, ctl, h, deltaTime)
  }

  function StopAnimation(h: Model, m: Manager): (r: Manager)
    ensures h.instanceId.id !in m.instances ==> r == m
    ensures h.instanceId.id in m.instances ==>
              var id := h.instanceId.id;
              var s := m.instances[id].animationState;
              && ChangesOnly(m, r, id)
              && r.dirtyInstances == m.dirtyInstances
              && r.instances[id] == m.instances[id].(animationState := s.(currentAnimation := None))
  {
    StopModelAnimation(m, h)
  }

  function SetBindPose(h: Model, m: Manager, ctl: AnimationController): (r: Manager)
    ensures h.instanceId.id !in m.instances ==> r == m
    ensures h.instanceId.id in m.instances ==>
              var id := h.instanceId.id;
              && ChangesOnly(m, r, id)
              && r.dirtyInstances == m.dirtyInstances
              && r.instances[id] == m.instances[id].(animationState := ctl.bindPose(m.instances[id].animationState))
  {
    SetModelBindPose(m, ctl, h)
  }

  /** `setQuaternion(x, y, z, w)`: the rotation becomes `[x, y, z, w]`. */
  function SetQuaternion(h: Model, m: Manager, x: real, y: real, z: real, w: real): (r: Manager)
    ensures h.instanceId.id !in m.instances ==> r == m
    ensures h.instanceId.id in m.instances ==>
              var id := h.instanceId.id;
              var d := m.instances[id];
              && ChangesOnly(m, r, id)
              && r.dirtyInstances == m.dirtyInstances + {id}
              && r.instances[id] == d.(transform := d.transform.(rotation := Quat(x, y, z, w)))
  {
    SetModelRotation(m, Quat(x, y, z, w), h)
  }

  /** `setQuaternion(x, y, z, w)` is `setRotation([x, y, z, w])`. */
  lemma SetQuaternionIsSetRotation(h: Model, m: Manager, x: real, y: real, z: real, w: real)
    ensures SetQuaternion(h, m, x, y, z, w) == SetRotation(h, m, Quat(x, y, z, w))
  {
  }

  /** Once its instance is deleted, every call through a handle leaves the manager as it is. */
  lemma DeletedHandleIsInert(h: Model, m: Manager, ctl: AnimationController, x: real, y: real, z: real,
                             q: Quat, enabled: bool, name: string, options: Option<AnimationOptions>, dt: real)
    ensures var d := DeleteModel(m, h.instanceId.id);
            && SetNormalMapEnabled(h, d, enabled) == d
            && SetPosition(h, d, x, y, z) == d
            && SetRotation(h, d, q) == d
            && SetScale(h, d, x, y, z) == d
            && PlayAnimation(h, d, name, options) == d
            && UpdateAnimation(h, d, ctl, dt) == d
            && StopAnimation(h, d) == d
            && SetBindPose(h, d, ctl) == d
  {
  }
}
