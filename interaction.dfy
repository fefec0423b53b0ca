/** `lib/gl/interaction.ts`: the rotation of the interactive model, driven by
    a gyroscope channel and a drag channel. Each channel keeps a velocity
    that eases towards its target as its acceleration timer ramps from 0 to
    1. `updateInteraction` writes the new velocities and timers into the
    caller's channel records and returns a fresh top-level record. `Math.sin`
    and `Math.PI` are parameters. */
module Interaction {
  import opened GlMath

  /** `INTERACTION_SETTINGS`. */
  const GYRO_FRICTION: real := 0.001
  const DRAG_SPEED: real := 3.0
  const DRAG_FRICTION: real := 0.0001

  datatype Vector2 = Vector2(x: real, y: real)

  /** A `GyroscopeData` record; `updateInteraction` updates it in place. */
  class Gyroscope {
    var beta: real
    var alpha: real
    var enabled: bool
    var decelerateTimer: real
    var accelerateTimer: real
    var velocity: Vector3

    constructor()
      ensures beta == 0.0 && alpha == 0.0 && !enabled
      ensures decelerateTimer == 1.0 && accelerateTimer == 0.0 && velocity == Zero
    {
      beta := 0.0;
      alpha := 0.0;
      enabled := false;
      decelerateTimer := 1.0;
      accelerateTimer := 0.0;
      velocity := Zero;
    }
  }

  /** A `DragData` record; `updateInteraction` updates it in place. */
  class Drag {
    var enabled: bool
    var isDragging: bool
    var position: Vector2
    var velocity: Vector3
    var dragVelocity: Vector2
    var decelerateTimer: real
    var accelerateTimer: real

    constructor()
      ensures !enabled && !isDragging && position == Vector2(0.0, 0.0) && velocity == Zero
      ensures dragVelocity == Vector2(0.0, 0.0) && decelerateTimer == 1.0 && accelerateTimer == 0.0
    {
      enabled := false;
      isDragging := false;
      position := Vector2(0.0, 0.0);
      velocity := Zero;
      dragVelocity := Vector2(0.0, 0.0);
      decelerateTimer := 1.0;
      accelerateTimer := 0.0;
    }
  }

  /** An `Interaction` record. */
  datatype Interaction = Interaction(gyroscope: Gyroscope, drag: Drag, rotation: Vector3, initialRotation: Vector3)

  /** `getInitialInteraction`: both channels off, deceleration timers at 1,
      acceleration timers at 0, no velocity, and the rotation (in degrees)
      converted to radians as both the current and the initial rotation. */
  method GetInitialInteraction(rotationFromUniforms: Vector3, pi: real) returns (i: Interaction)
    ensures fresh(i.gyroscope) && fresh(i.drag)
    ensures !i.gyroscope.enabled && !i.drag.enabled
    ensures i.gyroscope.decelerateTimer == 1.0 && i.gyroscope.accelerateTimer == 0.0 && i.gyroscope.velocity == Zero
    ensures i.drag.decelerateTimer == 1.0 && i.drag.accelerateTimer == 0.0 && i.drag.velocity == Zero
    ensures i.drag.dragVelocity == Vector2(0.0, 0.0)
    ensures i.rotation == i.initialRotation
    ensures i.initialRotation == Vector3(DegreesToRadians(rotationFromUniforms.x, pi),
                                         DegreesToRadians(rotationFromUniforms.y, pi),
                                         DegreesToRadians(rotationFromUniforms.z, pi))
  {
    var initialRotation := Vector3(DegreesToRadians(rotationFromUniforms.x, pi),
                                   DegreesToRadians(rotationFromUniforms.y, pi),
                                   DegreesToRadians(rotationFromUniforms.z, pi));
    var gyroscope := new Gyroscope();
    var drag := new Drag();
    i := Interaction(gyroscope, drag, initialRotation, initialRotation);
  }

  /** `updateDragTimer` and `updateGyroTimer` with their friction: a timer
      below 1 advances by the friction, clamped to [0, 1]; a timer at or above
      1 stays. So a timer in [0, 1] stays there and never decreases. */
  function StepTimer(timer: real, friction: real): (r: real)
    ensures timer >= 1.0 ==> r == timer
    ensures 0.0 <= timer <= 1.0 && friction >= 0.0 ==> timer <= r <= 1.0
    ensures timer < 1.0 && 0.0 <= timer + friction <= 1.0 ==> r == timer + friction
    ensures timer < 1.0 && timer + friction >= 1.0 ==> r == 1.0
  {
    if timer < 1.0 then Clamp(timer + friction, 0.0, 1.0) else timer
  }

  function UpdateDragTimer(timer: real): real
  {
    StepTimer(timer, DRAG_FRICTION)
  }

  function UpdateGyroTimer(timer: real): real
  {
    StepTimer(timer, GYRO_FRICTION)
  }

  /** The timer after `n` frames. */
  function StepTimerN(timer: real, friction: real, n: nat): real
    decreases n
  {
    if n == 0 then timer else StepTimerN(StepTimer(timer, friction), friction, n - 1)
  }

  /** From `t` in [0, 1], `n` frames bring the timer to `min(t + n * f, 1)`. */
  lemma {:induction false} TimerRamp(timer: real, friction: real, n: nat)
    requires 0.0 <= timer <= 1.0 && friction > 0.0
    ensures var linear := timer + (n as real) * friction;
      StepTimerN(timer, friction, n) == if linear <= 1.0 then linear else 1.0
    decreases n
  {
    if n > 0 {
      var next := StepTimer(timer, friction);
      TimerRamp(next, friction, n - 1);
      if timer + friction >= 1.0 {
        assert next == 1.0;
        assert timer + (n as real) * friction >= 1.0;
        TimerStaysAtOne(friction, n - 1);
      } else {
        assert timer + friction + ((n - 1) as real) * friction == timer + (n as real) * friction;
      }
    }
  }

  /** A timer that reached 1 stays there. */
  lemma {:induction false} TimerStaysAtOne(friction: real, n: nat)
    ensures StepTimerN(1.0, friction, n) == 1.0
    decreases n
  {
    if n > 0 {
      TimerStaysAtOne(friction, n - 1);
    }
  }

  /** The gyroscope's acceleration ramps from 0 to 1 in exactly 1000 frames. */
  lemma GyroRampLength()
    ensures StepTimerN(0.0, GYRO_FRICTION, 1000) == 1.0
    ensures StepTimerN(0.0, GYRO_FRICTION, 999) < 1.0
  {
    TimerRamp(0.0, GYRO_FRICTION, 1000);
    TimerRamp(0.0, GYRO_FRICTION, 999);
  }

  /** `applyDrag`: the drag velocity turns the model about x by its y
      component and about y by minus its x component. */
  function ApplyDrag(velocity: Vector3, rotation: Vector3): (r: Vector3)
    ensures r.z == rotation.z
    ensures velocity == Zero ==> r == rotation
  {
    Vector3(rotation.x + velocity.y, rotation.y - velocity.x, rotation.z)
  }

  /** `applyGyro`: the gyroscope velocity added to the rotation. */
  function ApplyGyro(velocity: Vector3, rotation: Vector3): (r: Vector3)
    ensures SubtractVectors(r, velocity) == rotation
    ensures velocity == Zero ==> r == rotation
  {
    AddVectors(rotation, velocity)
  }

  /** `updateDragVelocity`: the velocity eased towards three times the
      pointer's drag velocity (with no z part) by the acceleration timer. */
  function UpdateDragVelocity(velocity: Vector3, dragVelocity: Vector2, accelerateTimer: real): (r: Vector3)
    ensures accelerateTimer == 0.0 ==> r == velocity
    ensures accelerateTimer == 1.0 ==> r == Vector3(DRAG_SPEED * dragVelocity.x, DRAG_SPEED * dragVelocity.y, 0.0)
  {
    InterpolateVectors(velocity, Vector3(dragVelocity.x * DRAG_SPEED, dragVelocity.y * DRAG_SPEED, 0.0), accelerateTimer)
  }

  /** `normalizeOrientation`: the sines of twice the device's beta and of its
      alpha, in degrees. A device at rest gives no target velocity, and
      both components are sines, so they stay in [-1, 1]. */
  function NormalizeOrientation(alpha: real, beta: real, sin: real -> real, pi: real): (r: (real, real))
    ensures alpha == 0.0 && beta == 0.0 && sin(0.0) == 0.0 ==> r == (0.0, 0.0)
    ensures (forall x :: -1.0 <= sin(x) <= 1.0) ==> -1.0 <= r.0 <= 1.0 && -1.0 <= r.1 <= 1.0
  {
    (sin(DegreesToRadians(beta * 2.0, pi)), sin(DegreesToRadians(alpha, pi)))
  }

  /** `updateGyroVelocity`: an enabled gyroscope eases towards its normalized
      orientation by the acceleration timer, a disabled one towards zero by
      the deceleration timer. */
  function UpdateGyroVelocity(enabled: bool, alpha: real, beta: real, accelerateTimer: real, decelerateTimer: real,
                              velocity: Vector3, sin: real -> real, pi: real): (r: Vector3)
    ensures enabled && accelerateTimer == 0.0 ==> r == velocity
    ensures !enabled && decelerateTimer == 1.0 ==> r == Zero
    ensures enabled && accelerateTimer == 1.0 ==>
      var o := NormalizeOrientation(alpha, beta, sin, pi); r == Vector3(o.0, o.1, 0.0)
  {
    var o := NormalizeOrientation(alpha, beta, sin, pi);
    var target := if enabled then Vector3(o.0, o.1, 0.0) else Zero;
    if enabled then InterpolateVectors(velocity, target, accelerateTimer)
    else InterpolateVectors(velocity, target, decelerateTimer)
  }

  /** The rotation `updateInteraction` returns: the initial rotation, moved
      by the gyroscope velocity when that channel is on, then by the drag
      velocity when that one is on. The previous rotation plays no part. */
  function ComposedRotation(gyroOn: bool, gyroVelocity: Vector3, dragOn: bool, dragVelocity: Vector3,
                            initialRotation: Vector3): Vector3
  {
    var afterGyro := if gyroOn then ApplyGyro(gyroVelocity, initialRotation) else initialRotation;
    if dragOn then ApplyDrag(dragVelocity, afterGyro) else afterGyro
  }

  /** With both channels on, the two velocities add up component by
      component on the initial rotation; with neither, the initial rotation
      is returned unchanged. */
  lemma ComposedRotationSum(gyroOn: bool, g: Vector3, dragOn: bool, d: Vector3, init: Vector3)
    ensures !gyroOn && !dragOn ==> ComposedRotation(gyroOn, g, dragOn, d, init) == init
    ensures gyroOn && dragOn ==>
      ComposedRotation(gyroOn, g, dragOn, d, init) == Vector3(init.x + g.x + d.y, init.y + g.y - d.x, init.z + g.z)
  {
  }

  /** `updateInteraction`: each enabled channel gets its new velocity (from
      its timers before this frame) and advanced timers, written into the
      caller's record; the returned record shares those records and holds
      the composed rotation. */
  method UpdateInteraction(interaction: Interaction, sin: real -> real, pi: real) returns (r: Interaction)
    modifies interaction.gyroscope, interaction.drag
    ensures r.gyroscope == interaction.gyroscope && r.drag == interaction.drag
    ensures r.initialRotation == interaction.initialRotation
    ensures var g := interaction.gyroscope;
      && g.enabled == old(g.enabled) && g.alpha == old(g.alpha) && g.beta == old(g.beta)
      && (old(g.enabled) ==>
            && g.velocity == UpdateGyroVelocity(true, old(g.alpha), old(g.beta), old(g.accelerateTimer),
                                                old(g.decelerateTimer), old(g.velocity), sin, pi)
            && g.accelerateTimer == UpdateGyroTimer(old(g.accelerateTimer))
            && g.decelerateTimer == UpdateGyroTimer(old(g.decelerateTimer)))
      && (!old(g.enabled) ==>
            g.velocity == old(g.velocity) && g.accelerateTimer == old(g.accelerateTimer)
            && g.decelerateTimer == old(g.decelerateTimer))
    ensures var d := interaction.drag;
      && d.enabled == old(d.enabled) && d.dragVelocity == old(d.dragVelocity)
      && d.isDragging == old(d.isDragging) && d.position == old(d.position)
      && (old(d.enabled) ==>
            && d.velocity == UpdateDragVelocity(old(d.velocity), old(d.dragVelocity), old(d.accelerateTimer))
            && d.accelerateTimer == UpdateDragTimer(old(d.accelerateTimer))
            && d.decelerateTimer == UpdateDragTimer(old(d.decelerateTimer)))
      && (!old(d.enabled) ==>
            d.velocity == old(d.velocity) && d.accelerateTimer == old(d.accelerateTimer)
            && d.decelerateTimer == old(d.decelerateTimer))
    ensures r.rotation == ComposedRotation(interaction.gyroscope.enabled, interaction.gyroscope.velocity,
                                           interaction.drag.enabled, interaction.drag.velocity,
                                           interaction.initialRotation)
  {
    var gyroscope := interaction.gyroscope;
    var drag := interaction.drag;
    var newRotation := interaction.initialRotation;
    if gyroscope.enabled {
      gyroscope.velocity := UpdateGyroVelocity(gyroscope.enabled, gyroscope.alpha, gyroscope.beta,
                                               gyroscope.accelerateTimer, gyroscope.decelerateTimer,
                                               gyroscope.velocity, sin, pi);
      gyroscope.accelerateTimer := UpdateGyroTimer(gyroscope.accelerateTimer);
      gyroscope.decelerateTimer := UpdateGyroTimer(gyroscope.decelerateTimer);
      newRotation := ApplyGyro(gyroscope.velocity, interaction.initialRotation);
    }
    if drag.enabled {
      drag.velocity := UpdateDragVelocity(drag.velocity, drag.dragVelocity, drag.accelerateTimer);
      drag.accelerateTimer := UpdateDragTimer(drag.accelerateTimer);
      drag.decelerateTimer := UpdateDragTimer(drag.decelerateTimer);
      var sourceRotation := if gyroscope.enabled then newRotation else interaction.initialRotation;
      newRotation := ApplyDrag(drag.velocity, sourceRotation);
    }
    r := interaction.(rotation := newRotation);
  }

  /** `mapMouseToScreenSpace`: a pointer position in device pixels mapped
      to screen space, x running from 1 at the left edge to -1 at the
      right. */
  function MapMouseToScreenSpace(mousePos: Vector2, size: Vector2): (r: Vector2)
    requires size.x != 0.0 && size.y != 0.0
    ensures mousePos == Vector2(0.0, 0.0) ==> r == Vector2(1.0, 1.0)
  {
    Vector2(1.0 - 2.0 * (mousePos.x / size.x), (mousePos.y / size.y) * 2.0 + 1.0)
  }

  /** The mouse hook negates y, so a pointer inside the canvas has
      0 <= x <= width and -height <= y <= 0; such a position lands in
      [-1, 1] on both axes, the far corner at (-1, -1). */
  lemma ScreenSpaceRange(mousePos: Vector2, size: Vector2)
    requires size.x > 0.0 && size.y > 0.0
    requires 0.0 <= mousePos.x <= size.x && -size.y <= mousePos.y <= 0.0
    ensures var r := MapMouseToScreenSpace(mousePos, size); -1.0 <= r.x <= 1.0 && -1.0 <= r.y <= 1.0
    ensures mousePos == Vector2(size.x, -size.y) ==> MapMouseToScreenSpace(mousePos, size) == Vector2(-1.0, -1.0)
  {
    UnitFraction(mousePos.x, size.x);
    UnitFraction(-mousePos.y, size.y);
    assert mousePos.y / size.y == -((-mousePos.y) / size.y);
  }

  lemma UnitFraction(a: real, b: real)
    requires b > 0.0 && 0.0 <= a <= b
    ensures 0.0 <= a / b <= 1.0
    ensures a == b ==> a / b == 1.0
  {
    assert (a / b) * b == a;
  }
}
