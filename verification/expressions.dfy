/** The plugin's expressions (src/c3runtime/expressions.ts), read off the controller. */
module Expressions {
  import opened Common
  import opened ControllerState
  import RuntimeInstance
  import Actions

  function Double(num: real): (r: real)
    ensures r - num == num
  {
    num * 2.0
  }

  /** The engine-reported speed of the current model, or 1 when there is no model.
      `engineSpeed` is what the engine's `animationSpeed` getter returns. */
  function AnimationSpeed(c: Controller, engineSpeed: real): (r: real)
    ensures c.model.None? ==> r == 1.0
    ensures c.model.Some? ==> r == engineSpeed
  {
    if c.model.Some? then engineSpeed else 1.0
  }

  /** The scale last recorded by a scale action, not a value read back from the engine. */
  function ScaleX(c: Controller): (r: real)
    ensures r == c.lastScale.x
  {
    c.lastScale.x
  }

  function ScaleY(c: Controller): (r: real)
    ensures r == c.lastScale.y
  {
    c.lastScale.y
  }

  function ScaleZ(c: Controller): (r: real)
    ensures r == c.lastScale.z
  {
    c.lastScale.z
  }

  /** After SetScaleXYZ(a, b, d) the getters return a, b and d, model or not. */
  lemma ScalesAfterSetScaleXYZ(c: Controller, a: real, b: real, d: real)
    ensures var r := Actions.SetScaleXYZ(c, a, b, d);
            ScaleX(r) == a && ScaleY(r) == b && ScaleZ(r) == d
  {
  }

  /** After SetScale(s) all three getters return s. */
  lemma ScalesAfterSetScale(c: Controller, s: real)
    ensures var r := Actions.SetScale(c, s);
            ScaleX(r) == s && ScaleY(r) == s && ScaleZ(r) == s
  {
  }

  /** Before any scale action every getter returns 1, whether or not the constructor
      created a model. */
  lemma ScalesStartAtOne(view: HostView, props: RuntimeInstance.Properties, env: Env, outcome: CreateOutcome)
    ensures var c := RuntimeInstance.Construct(view, props, env, outcome);
            ScaleX(c) == 1.0 && ScaleY(c) == 1.0 && ScaleZ(c) == 1.0
  {
  }

  /** Ticks do not disturb the recorded scale. */
  lemma ScaleSurvivesTick(c: Controller, view: HostView, env: Env, outcome: CreateOutcome, dt: real)
    ensures var r := RuntimeInstance.Tick(c, view, env, outcome, dt);
            ScaleX(r) == ScaleX(c) && ScaleY(r) == ScaleY(c) && ScaleZ(r) == ScaleZ(c)
  {
  }
}
