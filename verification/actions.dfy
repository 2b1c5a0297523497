/** The plugin's actions (src/c3runtime/actions.ts). Every action that needs the model
    runs at once when there is one and is otherwise queued, exactly once, as a deferred
    command; the scale actions record the scale immediately either way. */
module Actions {
  import opened Common
  import opened ControllerState
  import opened Commands
  import RuntimeInstance

  /** Immediate-or-queue: with a model the action body runs now; without one it is
      appended to the queue and nothing else changes. */
  function Dispatch(c: Controller, cmd: Command): (r: Controller)
    ensures c.model.None? ==> r == c.(commandQueue := c.commandQueue + [cmd])
    ensures c.model.Some? ==> r.commandQueue == c.commandQueue && |r.effects| == |c.effects| + 1
    ensures c.model.Some? ==> r.effects[|c.effects|] == Call(c.model.value.instanceId, CommandCall(cmd))
    ensures Extends(r, c) && r.model == c.model
    ensures r.lastScale == c.lastScale && r.scaleOverridden == c.scaleOverridden
  {
    if c.model.Some? then RunCommand(c, cmd) else c.(commandQueue := c.commandQueue + [cmd])
  }

  /** Dispatches `cmds` one after the other, as a sequence of action calls does. */
  function DispatchAll(c: Controller, cmds: seq<Command>): (r: Controller)
    ensures c.model.None? ==> r == c.(commandQueue := c.commandQueue + cmds)
    ensures c.model.Some? ==> r == RunAll(c, cmds)
    decreases |cmds|
  {
    if |cmds| == 0 then
      assert c.commandQueue + cmds == c.commandQueue;
      c
    else
      var r := DispatchAll(Dispatch(c, cmds[0]), cmds[1..]);
      assert c.model.None? ==> c.commandQueue + [cmds[0]] + cmds[1..] == c.commandQueue + cmds by {
        assert [cmds[0]] + cmds[1..] == cmds;
      }
      r
  }

  /** What the creation that adopts model `m` does with the queue: once the model is
      placed, the queued actions run exactly as if each had been dispatched, in issue
      order, with the model already there. */
  lemma CreationReplaysQueuedActions(c: Controller, view: HostView, m: ModelRef)
    ensures RuntimeInstance.PlaceAndDrain(c, view, m) ==
            DispatchAll(RuntimeInstance.Place(c, view, m).(commandQueue := []), c.commandQueue)
  {
    var p := RuntimeInstance.Place(c, view, m);
    assert p.commandQueue == c.commandQueue;
    RunAllIgnoresQueue(p, [], c.commandQueue);
    assert p.(commandQueue := c.commandQueue) == p;
  }

  /** A command queued while no model existed does, once the model is there and the
      queue is drained, exactly what it would have done had it run immediately. */
  lemma DeferredMatchesImmediate(c: Controller, cmd: Command, m: ModelRef)
    requires c.model.None? && c.commandQueue == []
    ensures ExecuteQueuedCommands(Dispatch(c, cmd).(model := Some(m))) == Dispatch(c.(model := Some(m)), cmd)
  {
    var withModel := c.(model := Some(m));
    var queued := withModel.(commandQueue := [cmd]);
    var y := RunCommand(withModel, cmd);
    calc {
      ExecuteQueuedCommands(Dispatch(c, cmd).(model := Some(m)));
      { assert Dispatch(c, cmd).(model := Some(m)) == queued; }
      ExecuteQueuedCommands(queued);
      { DrainSingle(queued, cmd); }
      RunCommand(queued, cmd).(commandQueue := []);
      { RunCommandIgnoresQueue(withModel, [cmd], cmd); }
      y.(commandQueue := [cmd]).(commandQueue := []);
      { assert y.commandQueue == []; }
      y;
      Dispatch(withModel, cmd);
    }
  }

  /** The same with commands already waiting: draining `q + [cmd]` once the model
      exists is draining `q` and then dispatching `cmd` with the model. */
  lemma DeferredAfterQueueMatchesImmediate(c: Controller, cmd: Command, m: ModelRef)
    requires c.model.None?
    ensures ExecuteQueuedCommands(Dispatch(c, cmd).(model := Some(m))) ==
            Dispatch(ExecuteQueuedCommands(c.(model := Some(m))), cmd)
  {
    var withModel := c.(model := Some(m));
    var q := c.commandQueue;
    var queued := withModel.(commandQueue := q + [cmd]);
    var x := RunAll(queued, q);
    calc {
      ExecuteQueuedCommands(Dispatch(c, cmd).(model := Some(m)));
      { assert Dispatch(c, cmd).(model := Some(m)) == queued; }
      ExecuteQueuedCommands(queued);
      { DrainInOrder(queued, q, [cmd]); }
      RunAll(x, [cmd]).(commandQueue := []);
      { assert [cmd][1..] == []; }
      RunCommand(x, cmd).(commandQueue := []);
      { RunCommandIgnoresQueue(x, [], cmd); }
      RunCommand(x.(commandQueue := []), cmd);
      { RunAllIgnoresQueue(withModel, q + [cmd], q);
        RunAllIgnoresQueue(withModel, [], q);
        assert queued == withModel.(commandQueue := q + [cmd]); }
      RunCommand(RunAll(withModel, q).(commandQueue := []), cmd);
      Dispatch(ExecuteQueuedCommands(withModel), cmd);
    }
  }

  lemma DrainSingle(x: Controller, cmd: Command)
    requires x.commandQueue == [cmd]
    ensures ExecuteQueuedCommands(x) == RunCommand(x, cmd).(commandQueue := [])
  {
    assert [cmd][1..] == [];
    var y := RunCommand(x, cmd);
    assert RunAll(y, []) == y;
    assert RunAll(x, [cmd]) == y;
  }

  /** The PlayAnimation options: the given loop flag, speed 1, and a blend duration only
      when it is positive. */
  function PlayAnimationOptions(loop: bool, blendDuration: real): (o: PlayOptions)
    ensures o.loop == loop && o.speed == 1.0
    ensures o.blendDuration.Some? <==> blendDuration > 0.0
    ensures o.blendDuration.Some? ==> o.blendDuration.value == blendDuration
  {
    PlayOptions(loop, 1.0, if blendDuration > 0.0 then Some(blendDuration) else None)
  }

  function PlayAnimation(c: Controller, animationName: string, loop: bool, blendDuration: real): (r: Controller)
    ensures c.model.Some? ==>
              && r.currentPlayingAnimation == animationName
              && r.effects == c.effects + [Call(c.model.value.instanceId,
                                                PlayAnimationCall(animationName, PlayAnimationOptions(loop, blendDuration)))]
    ensures c.model.Some? ==> r == c.(currentPlayingAnimation := animationName, effects := r.effects)
    ensures c.model.None? ==>
              r == c.(commandQueue := c.commandQueue + [PlayCmd(animationName, PlayAnimationOptions(loop, blendDuration))])
  {
    Dispatch(c, PlayCmd(animationName, PlayAnimationOptions(loop, blendDuration)))
  }

  function StopAnimation(c: Controller): (r: Controller)
    ensures c.model.Some? ==>
              r.currentPlayingAnimation == "" && r.effects == c.effects + [Call(c.model.value.instanceId, StopAnimationCall)]
    ensures c.model.Some? ==> r == c.(currentPlayingAnimation := "", effects := r.effects)
    ensures c.model.None? ==> r == c.(commandQueue := c.commandQueue + [StopCmd])
  {
    Dispatch(c, StopCmd)
  }

  function SetAnimationSpeed(c: Controller, speed: real): (r: Controller)
    ensures c.model.Some? ==> r == c.(effects := c.effects + [Call(c.model.value.instanceId, SetAnimationSpeedCall(speed))])
    ensures c.model.None? ==> r == c.(commandQueue := c.commandQueue + [SpeedCmd(speed)])
  {
    Dispatch(c, SpeedCmd(speed))
  }

  function SetDebugRendering(c: Controller, enabled: bool): (r: Controller)
    ensures r.debugRendering == enabled && r.(debugRendering := c.debugRendering) == c
  {
    c.(debugRendering := enabled)
  }

  function SetSpriteVisible(c: Controller, visible: bool): (r: Controller)
    ensures r.spriteVisible == visible && r.(spriteVisible := c.spriteVisible) == c
  {
    c.(spriteVisible := visible)
  }

  /** SetScale: the override flag and all three recorded components are set at once,
      with or without a model; the engine call itself is immediate or queued. */
  function SetScale(c: Controller, scale: real): (r: Controller)
    ensures r.scaleOverridden && r.lastScale == Vec3(scale, scale, scale)
    ensures c.model.None? ==>
              r.commandQueue == c.commandQueue + [ScaleCmd(Vec3(scale, scale, scale))] && r.effects == c.effects
    ensures c.model.Some? ==>
              r.commandQueue == c.commandQueue &&
              r.effects == c.effects + [Call(c.model.value.instanceId, SetScaleCall(Vec3(scale, scale, scale)))]
    ensures r == c.(scaleOverridden := true, lastScale := r.lastScale, commandQueue := r.commandQueue, effects := r.effects)
  {
    Dispatch(c.(scaleOverridden := true, lastScale := Vec3(scale, scale, scale)), ScaleCmd(Vec3(scale, scale, scale)))
  }

  function SetScaleXYZ(c: Controller, scaleX: real, scaleY: real, scaleZ: real): (r: Controller)
    ensures r.scaleOverridden && r.lastScale == Vec3(scaleX, scaleY, scaleZ)
    ensures c.model.None? ==>
              r.commandQueue == c.commandQueue + [ScaleCmd(Vec3(scaleX, scaleY, scaleZ))] && r.effects == c.effects
    ensures c.model.Some? ==>
              r.commandQueue == c.commandQueue &&
              r.effects == c.effects + [Call(c.model.value.instanceId, SetScaleCall(Vec3(scaleX, scaleY, scaleZ)))]
    ensures r == c.(scaleOverridden := true, lastScale := r.lastScale, commandQueue := r.commandQueue, effects := r.effects)
  {
    Dispatch(c.(scaleOverridden := true, lastScale := Vec3(scaleX, scaleY, scaleZ)), ScaleCmd(Vec3(scaleX, scaleY, scaleZ)))
  }

  /** SetPosition: when it runs with a model it marks the position overridden and
      records it as synced, so the next tick does not push the host position over it. */
  function SetPosition(c: Controller, x: real, y: real, z: real): (r: Controller)
    ensures c.model.Some? ==>
              && r.positionOverridden && r.lastSynced == Vec3(x, y, z)
              && r.effects == c.effects + [Call(c.model.value.instanceId, SetPositionCall(Vec3(x, y, z)))]
    ensures c.model.Some? ==> r == c.(positionOverridden := true, lastSynced := Vec3(x, y, z), effects := r.effects)
    ensures c.model.None? ==> r == c.(commandQueue := c.commandQueue + [PositionCmd(Vec3(x, y, z))])
  {
    Dispatch(c, PositionCmd(Vec3(x, y, z)))
  }

  /** A queued SetPosition that runs while the model is still missing does nothing. */
  lemma QueuedPositionWithoutModelIsNoop(c: Controller, p: Vec3)
    requires c.model.None?
    ensures RunCommand(c, PositionCmd(p)) == c
  {
  }

  /** SetRotation: marks the rotation overridden; orders outside 0..4 rotate as ZYX. */
  function SetRotation(c: Controller, x: real, y: real, z: real, order: int): (r: Controller)
    ensures c.model.Some? ==>
              && r.rotationOverridden
              && r.effects == c.effects + [Call(c.model.value.instanceId, SetRotationCall(FromEuler(x, y, z, EulerOrderOf(order))))]
    ensures c.model.Some? ==> r == c.(rotationOverridden := true, effects := r.effects)
    ensures c.model.None? ==> r == c.(commandQueue := c.commandQueue + [RotationCmd(x, y, z, order)])
  {
    Dispatch(c, RotationCmd(x, y, z, order))
  }

  /** The five-or-beyond orders all produce the same rotation call. */
  lemma OutOfRangeOrdersRotateAsZyx(c: Controller, x: real, y: real, z: real, order: int)
    requires c.model.Some? && !(0 <= order < 5)
    ensures SetRotation(c, x, y, z, order) == SetRotation(c, x, y, z, 5)
  {
  }

  function EnableAllNodes(c: Controller): (r: Controller)
    ensures c.model.Some? ==> r == c.(effects := c.effects + [Call(c.model.value.instanceId, EnableAllNodesCall)])
    ensures c.model.None? ==> r == c.(commandQueue := c.commandQueue + [EnableAllNodesCmd])
  {
    Dispatch(c, EnableAllNodesCmd)
  }

  function DisableAllNodes(c: Controller): (r: Controller)
    ensures c.model.Some? ==> r == c.(effects := c.effects + [Call(c.model.value.instanceId, DisableAllNodesCall)])
    ensures c.model.None? ==> r == c.(commandQueue := c.commandQueue + [DisableAllNodesCmd])
  {
    Dispatch(c, DisableAllNodesCmd)
  }

  function EnableNode(c: Controller, nodeName: string): (r: Controller)
    ensures c.model.Some? ==> r == c.(effects := c.effects + [Call(c.model.value.instanceId, EnableNodeCall(nodeName))])
    ensures c.model.None? ==> r == c.(commandQueue := c.commandQueue + [EnableNodeCmd(nodeName)])
  {
    Dispatch(c, EnableNodeCmd(nodeName))
  }

  function DisableNode(c: Controller, nodeName: string): (r: Controller)
    ensures c.model.Some? ==> r == c.(effects := c.effects + [Call(c.model.value.instanceId, DisableNodeCall(nodeName))])
    ensures c.model.None? ==> r == c.(commandQueue := c.commandQueue + [DisableNodeCmd(nodeName)])
  {
    Dispatch(c, DisableNodeCmd(nodeName))
  }

  function SetMaterial(c: Controller, nodeName: string, materialIndex: int): (r: Controller)
    ensures c.model.Some? ==>
              r == c.(effects := c.effects + [Call(c.model.value.instanceId, SetMaterialCall(nodeName, materialIndex))])
    ensures c.model.None? ==> r == c.(commandQueue := c.commandQueue + [SetMaterialCmd(nodeName, materialIndex)])
  {
    Dispatch(c, SetMaterialCmd(nodeName, materialIndex))
  }

  function ResetMaterials(c: Controller): (r: Controller)
    ensures c.model.Some? ==> r == c.(effects := c.effects + [Call(c.model.value.instanceId, ResetMaterialsCall)])
    ensures c.model.None? ==> r == c.(commandQueue := c.commandQueue + [ResetMaterialsCmd])
  {
    Dispatch(c, ResetMaterialsCmd)
  }

  /** Actions issued before the model exists are all kept, in issue order. */
  lemma QueuedActionsKeepIssueOrder(c: Controller, a: Command, b: Command)
    requires c.model.None?
    ensures Dispatch(Dispatch(c, a), b).commandQueue == c.commandQueue + [a, b]
  {
  }
}
