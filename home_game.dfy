/**
 * The shooter demo embedded in the Home view. Unlike the Fps copy, the
 * `Player` here is plain state and the `Game` owns the key latch and moves
 * the player's fields itself. The ground speed is 25 and the airborne
 * speed SPEED (30); airborne damping is scaled by 0.1. The ball pool and
 * the phantom `playerCollider` are as in the Fps copy.
 */
module HomeGame {
  import opened Vectors
  import opened Scene
  import opened Controller
  import opened Projectiles
  import opened SpherePool

  const GRAVITY := 30.0
  const SPEED := 30.0

  /** The control speed while on the floor. */
  const GROUND_SPEED := 25.0

  /** The factor on the damping while airborne. */
  const AIR_DAMPING := 0.1

  /** The camera height at or below which the player counts as out of bounds. */
  const FLOOR_LIMIT := -25.0

  class Player {
    var geometry: Capsule
    var velocity: Vec
    var direction: Vec
    var onFloor: bool

    constructor()
      ensures geometry == SpawnCapsule && velocity == Zero && direction == Zero && !onFloor
    {
      geometry := SpawnCapsule;
      velocity := Zero;
      direction := Zero;
      onFloor := false;
    }

    function Body(): Body
      reads this
    {
      Controller.Body(geometry, velocity, onFloor)
    }
  }

  /** `dt * (onFloor ? 25 : SPEED)` */
  function SpeedDelta(dt: real, onFloor: bool): real
  {
    dt * (if onFloor then GROUND_SPEED else SPEED)
  }

  class Game {
    const player: Player
    const spheres: Spheres
    const camera: Camera
    const worldOctree: Octree
    var keyStates: Keys
    var mouseTime: real
    var playerCollider: Capsule

    predicate Valid()
      reads this, spheres
    {
      spheres.Valid() && playerCollider == SpawnCapsule
    }

    constructor(lookOf: Vec -> Vec, worldOctree: Octree)
      ensures Valid() && fresh(player) && fresh(spheres) && fresh(spheres.list) && fresh(camera)
      ensures this.worldOctree == worldOctree && mouseTime == 0.0 && keyStates == Released
      ensures player.Body() == Controller.Body(SpawnCapsule, Zero, false)
      ensures forall k :: 0 <= k < spheres.list.Length ==> spheres.list[k] == Parked
      ensures spheres.sphereIdx == 0 && spheres.Scratch() == Projectiles.Scratch(Zero, Zero, Zero)
      ensures camera.position == Zero && camera.rotation == Zero
    {
      keyStates := Released;
      player := new Player();
      mouseTime := 0.0;
      this.worldOctree := worldOctree;
      playerCollider := SpawnCapsule;
      camera := new Camera(lookOf);
      spheres := new Spheres();
    }

    /** The `keydown` (down) and `keyup` (not down) listeners. */
    method OnKey(code: KeyCode, down: bool)
      modifies this
      ensures keyStates == Latch(old(keyStates), code, down)
      ensures mouseTime == old(mouseTime) && playerCollider == old(playerCollider)
    {
      match code
      case KeyW => keyStates := keyStates.(keyW := down);
      case KeyS => keyStates := keyStates.(keyS := down);
      case KeyA => keyStates := keyStates.(keyA := down);
      case KeyD => keyStates := keyStates.(keyD := down);
      case Space => keyStates := keyStates.(space := down);
      case OtherKey(_) =>
    }

    /** The `mousedown` listener: the charge starts now. */
    method OnMouseDown(now: real)
      modifies this
      ensures mouseTime == now && keyStates == old(keyStates) && playerCollider == old(playerCollider)
    {
      mouseTime := now;
    }

    /**
     * The `mouseup` listener: while the pointer is locked, the view
     * direction is written to `player.direction` and the next ball is
     * thrown from the player's real capsule with the charged impulse.
     */
    method OnMouseUp(locked: bool, now: real, math: MathLib)
      requires Valid()
      modifies player, spheres, spheres.list
      ensures Valid()
      ensures player.Body() == old(player.Body())
      ensures locked ==>
                && player.direction == camera.WorldDirection()
                && spheres.list[..] == old(spheres.list[..])[old(spheres.sphereIdx) :=
                     Thrown(old(spheres.list[spheres.sphereIdx]), player.geometry.end, player.geometry.radius,
                            camera.WorldDirection(), player.velocity, Impulse(mouseTime, now, math.exp))]
                && spheres.sphereIdx == NextIndex(old(spheres.sphereIdx), spheres.list.Length)
                && spheres.Scratch() == old(spheres.Scratch())
      ensures !locked ==> player.direction == old(player.direction) && unchanged(spheres, spheres.list)
    {
      if locked {
        player.direction := camera.WorldDirection();
        var impulse := Impulse(mouseTime, now, math.exp);
        spheres.ThrowBall(player.direction, player.geometry, player.velocity, impulse);
      }
    }

    /** `handleControls`, with `speedDelta = dt * (onFloor ? 25 : SPEED)`. */
    method HandleControls(dt: real, sqrt: real -> real)
      modifies player
      ensures var r := Controls(old(player.velocity), old(player.direction), keyStates, player.onFloor,
                                camera.WorldDirection(), SpeedDelta(dt, player.onFloor), sqrt);
              player.velocity == r.velocity && player.direction == r.direction
      ensures player.geometry == old(player.geometry) && player.onFloor == old(player.onFloor)
    {
      var onFloor := player.onFloor;
      var speedDelta := dt * (if onFloor then GROUND_SPEED else SPEED);
      var look := camera.WorldDirection();
      var velocity, direction := player.velocity, player.direction;
      if keyStates.keyW {
        direction := Scale(ForwardVector(look, sqrt), speedDelta);
        velocity := Add(velocity, direction);
      }
      if keyStates.keyS {
        direction := Scale(ForwardVector(look, sqrt), -speedDelta);
        velocity := Add(velocity, direction);
      }
      if keyStates.keyA {
        direction := Scale(SideVector(look, sqrt), -speedDelta);
        velocity := Add(velocity, direction);
      }
      if keyStates.keyD {
        direction := Scale(SideVector(look, sqrt), speedDelta);
        velocity := Add(velocity, direction);
      }
      if keyStates.space && onFloor {
        velocity := velocity.(y := JumpSpeed);
      }
      assert ControlResult(velocity, direction) ==
             Controls(player.velocity, player.direction, keyStates, onFloor, look, speedDelta, sqrt);
      player.velocity, player.direction := velocity, direction;
    }

    /**
     * `updatePlayer`: gravity and damping scaled by 0.1 while airborne, the
     * capsule translated by velocity * dt, the octree contact resolved, and
     * the camera put at the capsule's end.
     */
    method UpdatePlayer(dt: real, math: MathLib)
      modifies player, camera
      ensures player.Body() == Stepped(old(player.Body()), dt, GRAVITY, math.exp(-4.0 * dt), AIR_DAMPING, worldOctree)
      ensures camera.position == player.geometry.end && camera.rotation == old(camera.rotation)
      ensures player.direction == old(player.direction)
    {
      var damping := math.exp(-4.0 * dt) - 1.0;
      if !player.onFloor {
        player.velocity := player.velocity.(y := player.velocity.y - GRAVITY * dt);
        damping := damping * AIR_DAMPING;
      }
      player.velocity := AddScaled(player.velocity, player.velocity, damping);
      var deltaPosition := Scale(player.velocity, dt);
      player.geometry := Translate(player.geometry, deltaPosition);
      PlayerCollisions();
      camera.position := player.geometry.end;
    }

    /** `playerCollisions` against the world octree. */
    method PlayerCollisions()
      modifies player
      ensures player.Body() == Collided(old(player.Body()), worldOctree.capsuleIntersect(old(player.geometry)))
      ensures player.direction == old(player.direction)
    {
      var result := worldOctree.capsuleIntersect(player.geometry);
      if result.Some? {
        var n := result.value.normal;
        player.onFloor := n.y > 0.0;
        if !player.onFloor {
          player.velocity := AddScaled(player.velocity, n, -Dot(n, player.velocity));
        }
        player.geometry := Translate(player.geometry, Scale(n, result.value.depth));
      } else {
        player.onFloor := false;
      }
    }

    /**
     * One frame of `animate` with `dt = min(0.05, delta)`: controls, player
     * update, ball update against `playerCollider`, then the out-of-bounds
     * check.
     */
    method Animate(delta: real, math: MathLib)
      requires Valid()
      modifies this, player, camera, spheres, spheres.list
      ensures Valid() && mouseTime == old(mouseTime) && keyStates == old(keyStates)
      ensures var dt := Min(MaxStep, delta);
              var c := Controls(old(player.velocity), old(player.direction), keyStates, old(player.onFloor),
                                old(camera.WorldDirection()), SpeedDelta(dt, old(player.onFloor)), math.sqrt);
              var b := Stepped(Controller.Body(old(player.geometry), c.velocity, old(player.onFloor)),
                               dt, GRAVITY, math.exp(-4.0 * dt), AIR_DAMPING, worldOctree);
              var u := Updated(Pass(old(spheres.list[..]), b.velocity, old(spheres.Scratch())),
                               dt, GRAVITY, SpawnCapsule, worldOctree, math);
              && player.Body() == Controller.Body(b.geometry, u.playerVelocity, b.onFloor)
              && player.direction == c.direction
              && spheres.list[..] == u.balls && spheres.Scratch() == u.scratch
              && spheres.sphereIdx == old(spheres.sphereIdx)
              && camera.position == (if b.geometry.end.y <= FLOOR_LIMIT then SpawnCapsule.end else b.geometry.end)
              && camera.rotation == (if b.geometry.end.y <= FLOOR_LIMIT then Zero else old(camera.rotation))
    {
      var dt := Min(MaxStep, delta);
      MovePlayer(dt, math);
      player.velocity := spheres.UpdateSpheres(dt, GRAVITY, playerCollider, player.velocity, worldOctree, math);
      TeleportPlayerIfOob();
    }

    /** The player's part of a frame: `handleControls` then `updatePlayer`. */
    method MovePlayer(dt: real, math: MathLib)
      modifies player, camera
      ensures var c := Controls(old(player.velocity), old(player.direction), keyStates, old(player.onFloor),
                                old(camera.WorldDirection()), SpeedDelta(dt, old(player.onFloor)), math.sqrt);
              var b := Stepped(Controller.Body(old(player.geometry), c.velocity, old(player.onFloor)),
                               dt, GRAVITY, math.exp(-4.0 * dt), AIR_DAMPING, worldOctree);
              && player.Body() == b && player.direction == c.direction
              && camera.position == b.geometry.end && camera.rotation == old(camera.rotation)
    {
      HandleControls(dt, math.sqrt);
      UpdatePlayer(dt, math);
    }

    /**
     * `teleportPlayerIfOob`: when the camera is at or below y = -25,
     * `playerCollider` is reset to the spawn pose and the camera is put at
     * its end with the default rotation. The player is not touched.
     */
    method TeleportPlayerIfOob()
      requires Valid()
      modifies this, camera
      ensures Valid() && mouseTime == old(mouseTime) && keyStates == old(keyStates)
      ensures old(camera.position.y) <= FLOOR_LIMIT ==>
                camera.position == SpawnCapsule.end && camera.rotation == Zero
      ensures old(camera.position.y) > FLOOR_LIMIT ==> unchanged(camera)
      ensures unchanged(player)
    {
      if camera.position.y <= FLOOR_LIMIT {
        playerCollider := Capsule(Vec(0.0, 0.35, 0.0), Vec(0.0, 1.0, 0.0), 0.35);
        camera.position := playerCollider.end;
        camera.rotation := Zero;
      }
    }
  }
}
