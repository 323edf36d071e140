/**
 * The kinematic character controller shared by the three walking demos,
 * as pure functions over values: the five-key latch, the control step,
 * gravity and damping, the capsule translation and the contact response.
 * The per-demo classes update their fields to exactly these values; the
 * demos differ only in the constants they pass in.
 */
module Controller {
  import opened Vectors
  import opened Scene

  // ---------------------------------------------------------------------
  // Key latch

  /** The five flags of `keyStates`. */
  datatype Keys = Keys(keyW: bool, keyS: bool, keyA: bool, keyD: bool, space: bool)

  /** A keyboard event's `code`; any other code is carried as `OtherKey`. */
  datatype KeyCode = KeyW | KeyS | KeyA | KeyD | Space | OtherKey(code: string)

  /** All five flags start out false. */
  const Released := Keys(false, false, false, false, false)

  /** The flag a code controls; codes outside the five read as not pressed. */
  function Pressed(k: Keys, code: KeyCode): bool {
    match code
    case KeyW => k.keyW
    case KeyS => k.keyS
    case KeyA => k.keyA
    case KeyD => k.keyD
    case Space => k.space
    case OtherKey(_) => false
  }

  /** `keyStates[e.code] = down` for a keydown (true) or keyup (false) event. */
  function Latch(k: Keys, code: KeyCode, down: bool): Keys {
    match code
    case KeyW => k.(keyW := down)
    case KeyS => k.(keyS := down)
    case KeyA => k.(keyA := down)
    case KeyD => k.(keyD := down)
    case Space => k.(space := down)
    case OtherKey(_) => k
  }

  /** A key event sets its own flag and leaves every other flag as it was. */
  lemma LatchSetsOnlyItsFlag(k: Keys, code: KeyCode, down: bool, other: KeyCode)
    ensures Pressed(Latch(k, code, down), other) ==
            if other == code && !code.OtherKey? then down else Pressed(k, other)
  {
  }

  /** No key is pressed before the first event. */
  lemma ReleasedHasNoKeyPressed(code: KeyCode)
    ensures !Pressed(Released, code)
  {
  }

  // ---------------------------------------------------------------------
  // Control step

  /** `getForwardVector`: the view direction with y forced to 0, normalised. */
  function ForwardVector(look: Vec, sqrt: real -> real): (f: Vec)
    ensures f.y == 0.0
  {
    Normalize(look.(y := 0.0), sqrt)
  }

  /** `getSideVector`: the forward vector crossed with the camera's up. */
  function SideVector(look: Vec, sqrt: real -> real): (s: Vec)
    ensures s.y == 0.0
  {
    Cross(ForwardVector(look, sqrt), Up)
  }

  /**
   * The side vector is horizontal and perpendicular to the forward vector,
   * so W/S and A/D move along independent horizontal axes.
   */
  lemma SideIsPerpendicular(look: Vec, sqrt: real -> real)
    ensures Dot(SideVector(look, sqrt), ForwardVector(look, sqrt)) == 0.0
  {
    var f := ForwardVector(look, sqrt);
    assert SideVector(look, sqrt) == Vec(-f.z, 0.0, f.x);
  }

  /** The new velocity and the new value of the scratch `direction` vector. */
  datatype ControlResult = ControlResult(velocity: Vec, direction: Vec)

  /** The jump velocity set by Space while on the floor. */
  const JumpSpeed := 15.0

  /**
   * One movement key: while it is held, the scaled basis vector is written
   * into the scratch `direction` and added to the velocity.
   */
  function Push(r: ControlResult, held: bool, delta: Vec): ControlResult {
    if held then ControlResult(Add(r.velocity, delta), delta) else r
  }

  /**
   * The four movement keys in the order `handleControls` tests them: W/S
   * push the forward vector f scaled by +/-speedDelta, A/D the side vector
   * s scaled by -/+speedDelta.
   */
  function Moves(r: ControlResult, keys: Keys, f: Vec, s: Vec, speedDelta: real): ControlResult {
    var r1 := Push(r, keys.keyW, Scale(f, speedDelta));
    var r2 := Push(r1, keys.keyS, Scale(f, -speedDelta));
    var r3 := Push(r2, keys.keyA, Scale(s, -speedDelta));
    Push(r3, keys.keyD, Scale(s, speedDelta))
  }

  /**
   * `handleControls`: the four movement keys, each recomputing the scratch
   * `direction`, then Space sets velocity.y to 15 when on the floor.
   */
  function Controls(v: Vec, direction: Vec, keys: Keys, onFloor: bool, look: Vec,
                    speedDelta: real, sqrt: real -> real): ControlResult
  {
    var r := Moves(ControlResult(v, direction), keys, ForwardVector(look, sqrt), SideVector(look, sqrt), speedDelta);
    if keys.space && onFloor then r.(velocity := r.velocity.(y := JumpSpeed)) else r
  }

  /** The net push of two opposite keys: d when only `pos` is held, -d when only `neg` is. */
  function Net(pos: bool, neg: bool, d: real): real {
    (if pos then d else 0.0) - (if neg then d else 0.0)
  }

  /**
   * The vertical velocity becomes 15 exactly when Space is held on the
   * floor; W/S/A/D never change it.
   */
  lemma ControlsVertical(v: Vec, direction: Vec, keys: Keys, onFloor: bool, look: Vec,
                         speedDelta: real, sqrt: real -> real)
    ensures Controls(v, direction, keys, onFloor, look, speedDelta, sqrt).velocity.y ==
            if keys.space && onFloor then JumpSpeed else v.y
  {
  }

  /**
   * Two opposite keys pushing p and m = -p horizontally: the pair adds
   * the net push along p to the horizontal velocity.
   */
  lemma OppositePushes(r: ControlResult, pos: bool, neg: bool, p: Vec, m: Vec)
    requires m.x == -p.x && m.z == -p.z
    ensures var v := Push(Push(r, pos, p), neg, m).velocity;
            v.x == r.velocity.x + Net(pos, neg, p.x) && v.z == r.velocity.z + Net(pos, neg, p.z)
  {
  }

  /**
   * The movement keys add (W - S) * speedDelta along f and
   * (D - A) * speedDelta along s to the horizontal velocity.
   */
  lemma MovesHorizontal(r: ControlResult, keys: Keys, f: Vec, s: Vec, speedDelta: real)
    ensures var m := Moves(r, keys, f, s, speedDelta).velocity;
            && m.x == r.velocity.x + Net(keys.keyW, keys.keyS, Scale(f, speedDelta).x)
                                   + Net(keys.keyD, keys.keyA, Scale(s, speedDelta).x)
            && m.z == r.velocity.z + Net(keys.keyW, keys.keyS, Scale(f, speedDelta).z)
                                   + Net(keys.keyD, keys.keyA, Scale(s, speedDelta).z)
  {
    var fp, fm, sp, sm := Scale(f, speedDelta), Scale(f, -speedDelta), Scale(s, speedDelta), Scale(s, -speedDelta);
    var r2 := Push(Push(r, keys.keyW, fp), keys.keyS, fm);
    assert fm.x == -fp.x && fm.z == -fp.z;
    assert sp.x == -sm.x && sp.z == -sm.z;
    OppositePushes(r, keys.keyW, keys.keyS, fp, fm);
    OppositePushes(r2, keys.keyA, keys.keyD, sm, sp);
  }

  /**
   * Horizontally the control step adds (W - S) * speedDelta along the
   * forward vector and (D - A) * speedDelta along the side vector,
   * whatever the jump key does.
   */
  lemma ControlsHorizontal(v: Vec, direction: Vec, keys: Keys, onFloor: bool,
                           look: Vec, speedDelta: real, sqrt: real -> real)
    ensures var r := Controls(v, direction, keys, onFloor, look, speedDelta, sqrt).velocity;
            var f := ForwardVector(look, sqrt);
            var s := SideVector(look, sqrt);
            && r.x == v.x + Net(keys.keyW, keys.keyS, Scale(f, speedDelta).x)
                          + Net(keys.keyD, keys.keyA, Scale(s, speedDelta).x)
            && r.z == v.z + Net(keys.keyW, keys.keyS, Scale(f, speedDelta).z)
                          + Net(keys.keyD, keys.keyA, Scale(s, speedDelta).z)
  {
    MovesHorizontal(ControlResult(v, direction), keys, ForwardVector(look, sqrt), SideVector(look, sqrt), speedDelta);
  }

  /** Without any key held, the control step changes nothing. */
  lemma ControlsIdle(v: Vec, direction: Vec, onFloor: bool, look: Vec, speedDelta: real,
                     sqrt: real -> real)
    ensures Controls(v, direction, Released, onFloor, look, speedDelta, sqrt) ==
            ControlResult(v, direction)
  {
  }

  // ---------------------------------------------------------------------
  // Integration and contact response

  /** What `updatePlayer` and `playerCollisions` read and write. */
  datatype Body = Body(geometry: Capsule, velocity: Vec, onFloor: bool)

  /** The damping coefficient `exp(-4 dt) - 1`, scaled by `airScale` while airborne. */
  function Damping(onFloor: bool, decay: real, airScale: real): real {
    if onFloor then decay - 1.0 else (decay - 1.0) * airScale
  }

  /**
   * Gravity while airborne, then `velocity.addScaledVector(velocity, damping)`;
   * `decay` is the host's exp(-4 dt).
   */
  function Damped(v: Vec, onFloor: bool, gravity: real, dt: real, decay: real, airScale: real): Vec {
    var v1 := if onFloor then v else v.(y := v.y - gravity * dt);
    AddScaled(v1, v1, Damping(onFloor, decay, airScale))
  }

  /**
   * Gravity acts only while airborne, and the damped velocity is that
   * velocity scaled by 1 + damping.
   */
  lemma DampedIsScaled(v: Vec, onFloor: bool, gravity: real, dt: real, decay: real, airScale: real)
    ensures var v1 := if onFloor then v else Vec(v.x, v.y - gravity * dt, v.z);
            Damped(v, onFloor, gravity, dt, decay, airScale) ==
            Scale(v1, 1.0 + Damping(onFloor, decay, airScale))
  {
    var v1 := if onFloor then v else Vec(v.x, v.y - gravity * dt, v.z);
    var d := Damping(onFloor, decay, airScale);
    assert v1.x + v1.x * d == v1.x * (1.0 + d);
    assert v1.y + v1.y * d == v1.y * (1.0 + d);
    assert v1.z + v1.z * d == v1.z * (1.0 + d);
  }

  /**
   * The damping factor 1 + damping lies in (0, 1] when the decay is in
   * (0, 1] and the airborne scale in [0, 1]: damping never reverses or
   * amplifies the velocity.
   */
  lemma DampingFactorRange(onFloor: bool, decay: real, airScale: real)
    requires 0.0 < decay <= 1.0 && 0.0 <= airScale <= 1.0
    ensures 0.0 < 1.0 + Damping(onFloor, decay, airScale) <= 1.0
  {
    if !onFloor {
      var a := 1.0 - decay;
      assert a * (1.0 - airScale) >= 0.0;
      assert a * airScale == a - a * (1.0 - airScale);
      assert (decay - 1.0) * airScale == -(a * airScale);
    }
  }

  /** Velocity update then `geometry.translate(velocity * dt)`. */
  function Moved(b: Body, dt: real, gravity: real, decay: real, airScale: real): Body {
    var v := Damped(b.velocity, b.onFloor, gravity, dt, decay, airScale);
    Body(Translate(b.geometry, Scale(v, dt)), v, b.onFloor)
  }

  /** A zero step with exp(0) = 1 moves nothing and changes no velocity. */
  lemma MovedZeroStep(b: Body, gravity: real, airScale: real)
    ensures Moved(b, 0.0, gravity, 1.0, airScale) == b
  {
  }

  /**
   * `playerCollisions`: on a contact, onFloor becomes normal.y > 0; off the
   * floor the velocity loses its component along the normal; the capsule
   * is pushed out by normal * depth. Without a contact only onFloor changes.
   */
  function Collided(b: Body, hit: Option<Contact>): Body {
    match hit
    case None => b.(onFloor := false)
    case Some(c) =>
      var onFloor := c.normal.y > 0.0;
      var v := if !onFloor then AddScaled(b.velocity, c.normal, -Dot(c.normal, b.velocity)) else b.velocity;
      Body(Translate(b.geometry, Scale(c.normal, c.depth)), v, onFloor)
  }

  /**
   * The grounded/airborne state machine of `playerCollisions`: onFloor
   * afterwards holds iff there was a contact whose normal points up; the
   * capsule moves by exactly normal * depth; a floor contact keeps the
   * velocity, a non-floor contact removes the normal component of the
   * velocity (for a unit normal) and keeps the tangential part.
   */
  lemma CollidedResponse(b: Body, hit: Option<Contact>)
    ensures var r := Collided(b, hit);
            && (r.onFloor <==> hit.Some? && hit.value.normal.y > 0.0)
            && (hit.None? ==> r.geometry == b.geometry && r.velocity == b.velocity)
            && (hit.Some? ==> r.geometry == Translate(b.geometry, Scale(hit.value.normal, hit.value.depth)))
            && (r.onFloor ==> r.velocity == b.velocity)
            && (hit.Some? && !r.onFloor ==>
                  r.velocity == Sub(b.velocity, Along(hit.value.normal, b.velocity)))
    ensures hit.Some? && !Collided(b, hit).onFloor && Dot(hit.value.normal, hit.value.normal) == 1.0 ==>
            Dot(hit.value.normal, Collided(b, hit).velocity) == 0.0
  {
    if hit.Some? && !Collided(b, hit).onFloor && Dot(hit.value.normal, hit.value.normal) == 1.0 {
      var n := hit.value.normal;
      DotAddScaled(n, b.velocity, n, -Dot(n, b.velocity));
    }
  }

  /** One `updatePlayer`: integrate, translate, then resolve against the octree. */
  function Stepped(b: Body, dt: real, gravity: real, decay: real, airScale: real, world: Octree): Body {
    var m := Moved(b, dt, gravity, decay, airScale);
    Collided(m, world.capsuleIntersect(m.geometry))
  }

  /**
   * After a step the body is on the floor iff the octree reported a contact
   * with an upward normal for the translated capsule.
   */
  lemma SteppedOnFloor(b: Body, dt: real, gravity: real, decay: real, airScale: real, world: Octree)
    ensures var m := Moved(b, dt, gravity, decay, airScale);
            var hit := world.capsuleIntersect(m.geometry);
            Stepped(b, dt, gravity, decay, airScale, world).onFloor <==> hit.Some? && hit.value.normal.y > 0.0
  {
    var m := Moved(b, dt, gravity, decay, airScale);
    CollidedResponse(m, world.capsuleIntersect(m.geometry));
  }
}
