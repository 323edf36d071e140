/**
 * The shooter demo of the Fps view: a `Player` that owns its key latch and
 * moves its capsule in place, and a `Game` that owns the player, the ball
 * pool, the camera, the world octree and a second capsule,
 * `playerCollider`, which is what the balls collide with.
 *
 * `playerCollider` is created in the spawn pose and only ever reset to the
 * spawn pose, so `Game.Valid` keeps it equal to `SpawnCapsule`: the balls
 * meet a capsule standing at the spawn point, wherever the player is.
 */
module FpsGame {
  import opened Vectors
  import opened Scene
  import opened Controller
  import opened Projectiles
  import opened SpherePool

  const GRAVITY := 30.0
  const SPEED := 30.0

  /** The factor on the damping while airborne. */
  const AIR_DAMPING := 0.5

  /** The camera height at or below which the player counts as out of bounds. */
  const FLOOR_LIMIT := -25.0

  class Player {
    var geometry: Capsule
    var velocity: Vec
    var direction: Vec
    var onFloor: bool
    var keyStates: Keys

    constructor()
      ensures geometry == SpawnCapsule && velocity == Zero && direction == Zero
      ensures !onFloor && keyStates == Released
    {
      geometry := SpawnCapsule;
      velocity := Zero;
      direction := Zero;
      onFloor := false;
      keyStates := Released;
    }

    /** The part of the player that `updatePlayer` reads and writes. */
    function Body(): Body
      reads this
    {
      Controller.Body(geometry, velocity, onFloor)
    }

    /** The `keydown` (down) and `keyup` (not down) listeners. */
    method OnKey(code: KeyCode, down: bool)
      modifies this
      ensures keyStates == Latch(old(keyStates), code, down)
      ensures Body() == old(Body()) && direction == old(direction)
    {
      match code
      case KeyW => keyStates := keyStates.(keyW := down);
      case KeyS => keyStates := keyStates.(keyS := down);
      case KeyA => keyStates := keyStates.(keyA := down);
      case KeyD => keyStates := keyStates.(keyD := down);
      case Space => keyStates := keyStates.(space := down);
      case OtherKey(_) =>
    }

    /** `handleControls`, with `speedDelta = dt * SPEED`. */
    method HandleControls(dt: real, camera: Camera, sqrt: real -> real)
      modifies this
      ensures var r := Controls(old(velocity), old(direction), keyStates, onFloor,
                                camera.WorldDirection(), dt * SPEED, sqrt);
              velocity == r.velocity && direction == r.direction
      ensures geometry == old(geometry) && onFloor == old(onFloor) && keyStates == old(keyStates)
    {
      var speedDelta := dt * SPEED;
      var look := camera.WorldDirection();
      if keyStates.keyW {
        direction := Scale(ForwardVector(look, sqrt), speedDelta);
        velocity := Add(velocity, direction);
      }
      if keyStates.keyS {
        direction := Scale(ForwardVector(look, sqrt), -speedDelta);
        velocity := Add(velocity, direction);
      }
      if keyStates.keyA {
        direction := Scale(SideVector(look, sqrt), -speedDelta);
        velocity := Add(velocity, direction);
      }
      if keyStates.keyD {
        direction := Scale(SideVector(look, sqrt), speedDelta);
        velocity := Add(velocity, direction);
      }
      if keyStates.space && onFloor {
        velocity := velocity.(y := JumpSpeed);
      }
    }

    /**
     * `updatePlayer`: gravity and halved damping while airborne, the
     * capsule translated by velocity * dt, the octree contact resolved, and
     * the camera put at the capsule's end.
     */
    method UpdatePlayer(dt: real, camera: Camera, world: Octree, math: MathLib)
      modifies this, camera
      ensures Body() == Stepped(old(Body()), dt, GRAVITY, math.exp(-4.0 * dt), AIR_DAMPING, world)
      ensures camera.position == geometry.end && camera.rotation == old(camera.rotation)
      ensures direction == old(direction) && keyStates == old(keyStates)
    {
      var damping := math.exp(-4.0 * dt) - 1.0;
      if !onFloor {
        velocity := velocity.(y := velocity.y - GRAVITY * dt);
        damping := damping * AIR_DAMPING;
      }
      velocity := AddScaled(velocity, velocity, damping);
      var deltaPosition := Scale(velocity, dt);
      geometry := Translate(geometry, deltaPosition);
      PlayerCollisions(world);
      camera.position := geometry.end;
    }

    /** `playerCollisions` against the world octree. */
    method PlayerCollisions(world: Octree)
      modifies this
      ensures Body() == Collided(old(Body()), world.capsuleIntersect(old(geometry)))
      ensures direction == old(direction) && keyStates == old(keyStates)
    {
      var result := world.capsuleIntersect(geometry);
      if result.Some? {
        var n := result.value.normal;
        onFloor := n.y > 0.0;
        if !onFloor {
          velocity := AddScaled(velocity, n, -Dot(n, velocity));
        }
        geometry := Translate(geometry, Scale(n, result.value.depth));
      } else {
        onFloor := false;
      }
    }
  }

  class Game {
    const player: Player
    const spheres: Spheres
    const camera: Camera
    const worldOctree: Octree
    var mouseTime: real
    var playerCollider: Capsule

    predicate Valid()
      reads this, spheres
    {
      spheres.Valid() && playerCollider == SpawnCapsule
    }

    constructor(lookOf: Vec -> Vec, worldOctree: Octree)
      ensures Valid() && fresh(player) && fresh(spheres) && fresh(spheres.list) && fresh(camera)
      ensures this.worldOctree == worldOctree && mouseTime == 0.0
      ensures player.Body() == Controller.Body(SpawnCapsule, Zero, false) && player.keyStates == Released
      ensures forall k :: 0 <= k < spheres.list.Length ==> spheres.list[k] == Parked
      ensures spheres.sphereIdx == 0 && spheres.Scratch() == Projectiles.Scratch(Zero, Zero, Zero)
      ensures camera.position == Zero && camera.rotation == Zero
    {
      player := new Player();
      camera := new Camera(lookOf);
      this.worldOctree := worldOctree;
      spheres := new Spheres();
      mouseTime := 0.0;
      playerCollider := SpawnCapsule;
    }

    /** The `mousedown` listener: the charge starts now. */
    method OnMouseDown(now: real)
      modifies this
      ensures mouseTime == now && playerCollider == old(playerCollider)
    {
      mouseTime := now;
    }

    /**
     * The `mouseup` listener: while the pointer is locked, the view
     * direction is written to `player.direction` and the next ball is
     * thrown from the player's real capsule with the charged impulse.
     */
    method OnMouseUp(locked: bool, now: real, math: MathLib)
      requires Valid()
      modifies player, spheres, spheres.list
      ensures Valid()
      ensures player.Body() == old(player.Body()) && player.keyStates == old(player.keyStates)
      ensures locked ==>
                && player.direction == camera.WorldDirection()
                && spheres.list[..] == old(spheres.list[..])[old(spheres.sphereIdx) :=
                     Thrown(old(spheres.list[spheres.sphereIdx]), player.geometry.end, player.geometry.radius,
                            camera.WorldDirection(), player.velocity, Impulse(mouseTime, now, math.exp))]
                && spheres.sphereIdx == NextIndex(old(spheres.sphereIdx), spheres.list.Length)
                && spheres.Scratch() == old(spheres.Scratch())
      ensures !locked ==> player.direction == old(player.direction) && unchanged(spheres, spheres.list)
    {
      if locked {
        player.direction := camera.WorldDirection();
        var impulse := Impulse(mouseTime, now, math.exp);
        spheres.ThrowBall(player.direction, player.geometry, player.velocity, impulse);
      }
    }

    /**
     * One frame of `editAnimate` with `dt = min(0.05, delta)`: controls,
     * player update, ball update against `playerCollider` (the player's
     * velocity takes part in the exchange), then the out-of-bounds check.
     */
    method EditAnimate(delta: real, math: MathLib)
      requires Valid()
      modifies this, player, camera, spheres, spheres.list
      ensures Valid() && mouseTime == old(mouseTime)
      ensures var dt := Min(MaxStep, delta);
              var c := Controls(old(player.velocity), old(player.direction), old(player.keyStates),
                                old(player.onFloor), old(camera.WorldDirection()), dt * SPEED, math.sqrt);
              var b := Stepped(Controller.Body(old(player.geometry), c.velocity, old(player.onFloor)),
                               dt, GRAVITY, math.exp(-4.0 * dt), AIR_DAMPING, worldOctree);
              var u := Updated(Pass(old(spheres.list[..]), b.velocity, old(spheres.Scratch())),
                               dt, GRAVITY, SpawnCapsule, worldOctree, math);
              && player.Body() == Controller.Body(b.geometry, u.playerVelocity, b.onFloor)
              && player.direction == c.direction && player.keyStates == old(player.keyStates)
              && spheres.list[..] == u.balls && spheres.Scratch() == u.scratch
              && spheres.sphereIdx == old(spheres.sphereIdx)
              && camera.position == (if b.geometry.end.y <= FLOOR_LIMIT then SpawnCapsule.end else b.geometry.end)
              && camera.rotation == (if b.geometry.end.y <= FLOOR_LIMIT then Zero else old(camera.rotation))
    {
      var dt := Min(MaxStep, delta);
      MovePlayer(dt, math);
      ghost var b := player.Body();
      ghost var u := Updated(Pass(spheres.list[..], player.velocity, spheres.Scratch()),
                             dt, GRAVITY, SpawnCapsule, worldOctree, math);
      var velocity := spheres.UpdateSpheres(dt, GRAVITY, playerCollider, player.velocity, worldOctree, math);
      assert velocity == u.playerVelocity;
      player.velocity := velocity;
      assert player.Body() == Controller.Body(b.geometry, u.playerVelocity, b.onFloor);
      TeleportPlayerIfOob();
    }

    /** The player's part of a frame: `handleControls` then `updatePlayer`. */
    method MovePlayer(dt: real, math: MathLib)
      modifies player, camera
      ensures var c := Controls(old(player.velocity), old(player.direction), old(player.keyStates),
                                old(player.onFloor), old(camera.WorldDirection()), dt * SPEED, math.sqrt);
              var b := Stepped(Controller.Body(old(player.geometry), c.velocity, old(player.onFloor)),
                               dt, GRAVITY, math.exp(-4.0 * dt), AIR_DAMPING, worldOctree);
              && player.Body() == b && player.direction == c.direction && player.keyStates == old(player.keyStates)
              && camera.position == b.geometry.end && camera.rotation == old(camera.rotation)
    {
      player.HandleControls(dt, camera, math.sqrt);
      player.UpdatePlayer(dt, camera, worldOctree, math);
    }

    /**
     * `teleportPlayerIfOob`: when the camera is at or below y = -25,
     * `playerCollider` is reset to the spawn pose and the camera is put at
     * its end, looking along the default rotation. The player's own
     * capsule, velocity and floor flag are not touched.
     */
    method TeleportPlayerIfOob()
      requires Valid()
      modifies this, camera
      ensures Valid() && mouseTime == old(mouseTime)
      ensures old(camera.position.y) <= FLOOR_LIMIT ==>
                camera.position == SpawnCapsule.end && camera.rotation == Zero
      ensures old(camera.position.y) > FLOOR_LIMIT ==> unchanged(camera)
      ensures unchanged(player)
    {
      if camera.position.y <= FLOOR_LIMIT {
        playerCollider := Capsule(Vec(0.0, 0.35, 0.0), Vec(0.0, 1.0, 0.0), 0.35);
        camera.position := playerCollider.end;
        camera.rotation := Zero;
      }
    }
  }
}
