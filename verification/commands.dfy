/** What each action does once it runs (the bodies of the closures in
    src/c3runtime/actions.ts), and the draining of the deferred command queue
    (`_executeQueuedCommands` in src/c3runtime/instance.ts). */
module Commands {
  import opened Common
  import opened ControllerState

  /** The SetRotation action's `switch (order)`: 0..4 pick their own order; 5 and every
      other value fall to the ZYX branch. */
  function EulerOrderOf(order: int): (r: EulerOrder)
    ensures r == ZYX <==> !(0 <= order < 5)
    ensures order == 0 <==> r == XYZ
    ensures order == 1 <==> r == XZY
    ensures order == 2 <==> r == YXZ
    ensures order == 3 <==> r == YZX
    ensures order == 4 <==> r == ZXY
  {
    if order == 0 then XYZ
    else if order == 1 then XZY
    else if order == 2 then YXZ
    else if order == 3 then YZX
    else if order == 4 then ZXY
    else ZYX
  }

  /** A command writes at most the playing clip, the two override flags, the last
      synced position and the effects log; every other field is kept. */
  ghost predicate KeepsBookkeeping(r: Controller, c: Controller) {
    r.(currentPlayingAnimation := c.currentPlayingAnimation, positionOverridden := c.positionOverridden,
       lastSynced := c.lastSynced, rotationOverridden := c.rotationOverridden, effects := c.effects) == c
  }

  /** The call on the model an action body makes. */
  function CommandCall(cmd: Command): (call: ModelCall)
    ensures cmd.PlayCmd? ==> call == PlayAnimationCall(cmd.animationName, cmd.options)
    ensures cmd.PositionCmd? ==> call == SetPositionCall(cmd.position)
    ensures cmd.RotationCmd? ==> call == SetRotationCall(FromEuler(cmd.rx, cmd.ry, cmd.rz, EulerOrderOf(cmd.order)))
  {
    match cmd
    case PlayCmd(name, options) => PlayAnimationCall(name, options)
    case StopCmd => StopAnimationCall
    case SpeedCmd(speed) => SetAnimationSpeedCall(speed)
    case ScaleCmd(scale) => SetScaleCall(scale)
    case PositionCmd(p) => SetPositionCall(p)
    case RotationCmd(x, y, z, order) => SetRotationCall(FromEuler(x, y, z, EulerOrderOf(order)))
    case EnableAllNodesCmd => EnableAllNodesCall
    case DisableAllNodesCmd => DisableAllNodesCall
    case EnableNodeCmd(n) => EnableNodeCall(n)
    case DisableNodeCmd(n) => DisableNodeCall(n)
    case SetMaterialCmd(n, i) => SetMaterialCall(n, i)
    case ResetMaterialsCmd => ResetMaterialsCall
  }

  /** The calls a sequence of commands makes on model `id`, one per command, in order. */
  function Calls(id: int, cmds: seq<Command>): (es: seq<Effect>)
    ensures |es| == |cmds|
    ensures forall i :: 0 <= i < |cmds| ==> es[i] == Call(id, CommandCall(cmds[i]))
    decreases |cmds|
  {
    if |cmds| == 0 then [] else [Call(id, CommandCall(cmds[0]))] + Calls(id, cmds[1..])
  }

  /** Runs one action body against the current state. A call on the model needs a model
      (`?.` or an early return); PlayAnimation and StopAnimation record the playing name
      even when there is none. */
  function RunCommand(c: Controller, cmd: Command): (r: Controller)
    ensures KeepsBookkeeping(r, c) && Extends(r, c)
    ensures c.model.None? ==> r.effects == c.effects
    ensures c.model.Some? ==> r.effects == c.effects + [Call(c.model.value.instanceId, CommandCall(cmd))]
    ensures cmd.PlayCmd? ==> r.currentPlayingAnimation == cmd.animationName
    ensures cmd.StopCmd? ==> r.currentPlayingAnimation == ""
    ensures !cmd.PlayCmd? && !cmd.StopCmd? ==> r.currentPlayingAnimation == c.currentPlayingAnimation
    ensures cmd.PositionCmd? && c.model.Some? ==>
              r.positionOverridden && r.lastSynced == cmd.position
    ensures !(cmd.PositionCmd? && c.model.Some?) ==>
              r.positionOverridden == c.positionOverridden && r.lastSynced == c.lastSynced
    ensures r.rotationOverridden == (c.rotationOverridden || (cmd.RotationCmd? && c.model.Some?))
  {
    var called := CallModel(c, CommandCall(cmd));
    match cmd
    case PlayCmd(name, _) => called.(currentPlayingAnimation := name)
    case StopCmd => called.(currentPlayingAnimation := "")
    case PositionCmd(p) =>
      if c.model.None? then c else called.(positionOverridden := true, lastSynced := p)
    case RotationCmd(_, _, _, _) =>
      if c.model.None? then c else called.(rotationOverridden := true)
    case _ => called
  }

  /** Runs `cmds` front to back. */
  function RunAll(c: Controller, cmds: seq<Command>): (r: Controller)
    ensures KeepsBookkeeping(r, c) && Extends(r, c)
    ensures c.model.None? ==> r.effects == c.effects
    ensures c.model.Some? ==> r.effects == c.effects + Calls(c.model.value.instanceId, cmds)
    decreases |cmds|
  {
    if |cmds| == 0 then c
    else
      var c1 := RunCommand(c, cmds[0]);
      var r := RunAll(c1, cmds[1..]);
      ExtendsTransitive(c, c1, r);
      if c.model.Some? then
        CallsStep(c.model.value.instanceId, c.effects, cmds);
        r
      else r
  }

  /** Logging the first command's call, then the rest's, logs all of them. */
  lemma CallsStep(id: int, log: seq<Effect>, cmds: seq<Command>)
    requires |cmds| > 0
    ensures (log + [Call(id, CommandCall(cmds[0]))]) + Calls(id, cmds[1..]) == log + Calls(id, cmds)
  {
  }

  /** `_executeQueuedCommands`: runs the queue in order and leaves it empty. */
  function ExecuteQueuedCommands(c: Controller): (r: Controller)
    ensures r.commandQueue == []
    ensures r.model == c.model && r.pendingModelPath == c.pendingModelPath
    ensures r.lastScale == c.lastScale && r.callbacksRegistered == c.callbacksRegistered
    ensures Extends(r, c)
    ensures c.model.None? ==> r.effects == c.effects
    ensures c.model.Some? ==> r.effects == c.effects + Calls(c.model.value.instanceId, c.commandQueue)
    ensures KeepsBookkeeping(r, c.(commandQueue := []))
  {
    RunAll(c, c.commandQueue).(commandQueue := [])
  }

  /** Running a concatenation is running its parts one after the other. */
  lemma {:induction false} RunAllAppend(c: Controller, a: seq<Command>, b: seq<Command>)
    ensures RunAll(c, a + b) == RunAll(RunAll(c, a), b)
    decreases |a|
  {
    if |a| > 0 {
      assert (a + b)[0] == a[0];
      assert (a + b)[1..] == a[1..] + b;
      RunAllAppend(RunCommand(c, a[0]), a[1..], b);
    } else {
      assert a + b == b;
    }
  }

  /** Commands never read the queue, so what it holds does not change what they do. */
  lemma {:induction false} RunAllIgnoresQueue(c: Controller, q: seq<Command>, cmds: seq<Command>)
    ensures RunAll(c.(commandQueue := q), cmds) == RunAll(c, cmds).(commandQueue := q)
    decreases |cmds|
  {
    if |cmds| > 0 {
      RunCommandIgnoresQueue(c, q, cmds[0]);
      RunAllIgnoresQueue(RunCommand(c, cmds[0]), q, cmds[1..]);
    }
  }

  lemma CallModelIgnoresQueue(c: Controller, q: seq<Command>, call: ModelCall)
    ensures CallModel(c.(commandQueue := q), call) == CallModel(c, call).(commandQueue := q)
  {
  }

  lemma RunCommandIgnoresQueue(c: Controller, q: seq<Command>, cmd: Command)
    ensures RunCommand(c.(commandQueue := q), cmd) == RunCommand(c, cmd).(commandQueue := q)
  {
    CallModelIgnoresQueue(c, q, CommandCall(cmd));
    if cmd.PlayCmd? {
      PlayIgnoresQueue(c, q, cmd);
    } else if cmd.StopCmd? {
      StopIgnoresQueue(c, q, cmd);
    } else if cmd.PositionCmd? {
      PositionIgnoresQueue(c, q, cmd);
    } else if cmd.RotationCmd? {
      RotationIgnoresQueue(c, q, cmd);
    }
  }

  lemma PlayIgnoresQueue(c: Controller, q: seq<Command>, cmd: Command)
    requires cmd.PlayCmd?
    ensures RunCommand(c.(commandQueue := q), cmd) == RunCommand(c, cmd).(commandQueue := q)
  {
    CallModelIgnoresQueue(c, q, CommandCall(cmd));
  }

  lemma StopIgnoresQueue(c: Controller, q: seq<Command>, cmd: Command)
    requires cmd.StopCmd?
    ensures RunCommand(c.(commandQueue := q), cmd) == RunCommand(c, cmd).(commandQueue := q)
  {
    CallModelIgnoresQueue(c, q, CommandCall(cmd));
  }

  lemma PositionIgnoresQueue(c: Controller, q: seq<Command>, cmd: Command)
    requires cmd.PositionCmd?
    ensures RunCommand(c.(commandQueue := q), cmd) == RunCommand(c, cmd).(commandQueue := q)
  {
    CallModelIgnoresQueue(c, q, CommandCall(cmd));
  }

  lemma RotationIgnoresQueue(c: Controller, q: seq<Command>, cmd: Command)
    requires cmd.RotationCmd?
    ensures RunCommand(c.(commandQueue := q), cmd) == RunCommand(c, cmd).(commandQueue := q)
  {
    CallModelIgnoresQueue(c, q, CommandCall(cmd));
  }

  /** FIFO: draining runs the head first, then drains the rest. */
  lemma DrainRunsHeadFirst(c: Controller)
    requires |c.commandQueue| > 0
    ensures ExecuteQueuedCommands(c) ==
            ExecuteQueuedCommands(RunCommand(c, c.commandQueue[0]).(commandQueue := c.commandQueue[1..]))
  {
    var q := c.commandQueue;
    var c1 := RunCommand(c, q[0]);
    RunAllIgnoresQueue(c1, q[1..], q[1..]);
  }

  /** Draining `a + b` runs all of `a` before any of `b`. */
  lemma DrainInOrder(c: Controller, a: seq<Command>, b: seq<Command>)
    requires c.commandQueue == a + b
    ensures ExecuteQueuedCommands(c) == RunAll(RunAll(c, a), b).(commandQueue := [])
  {
    RunAllAppend(c, a, b);
  }

  /** With a model, the effects of draining are the effects of the queued commands in
      queue order, one per command. */
  lemma {:induction false} DrainEffectsFollowQueue(c: Controller, i: int)
    requires c.model.Some? && 0 <= i < |c.commandQueue|
    ensures var r := ExecuteQueuedCommands(c);
            r.effects[|c.effects| + i] ==
            RunCommand(RunAll(c, c.commandQueue[..i]), c.commandQueue[i]).effects[|c.effects| + i]
  {
    var q := c.commandQueue;
    assert q == q[..i] + ([q[i]] + q[i + 1..]);
    RunAllAppend(c, q[..i], [q[i]] + q[i + 1..]);
    var before := RunAll(c, q[..i]);
    var after := RunCommand(before, q[i]);
    assert RunAll(before, [q[i]] + q[i + 1..]) == RunAll(after, q[i + 1..]) by {
      assert ([q[i]] + q[i + 1..])[0] == q[i];
      assert ([q[i]] + q[i + 1..])[1..] == q[i + 1..];
    }
    var r := RunAll(after, q[i + 1..]);
    assert |before.effects| == |c.effects| + i;
    assert r.effects[..|after.effects|] == after.effects;
    assert r.effects[|c.effects| + i] == r.effects[..|after.effects|][|c.effects| + i];
  }
}
