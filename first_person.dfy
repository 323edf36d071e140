/**
 * The walking character of the FirstPerson view: a `Player` that owns its
 * key latch, its capsule and its constants (GRAVITY 30, SPEED 10), and a
 * `World` whose frame runs controls, update and the out-of-bounds respawn.
 * There is no ball pool here, and the respawn resets the player's own
 * capsule and the camera but keeps the velocity and the floor flag.
 */
module FirstPerson {
  import opened Vectors
  import opened Scene
  import opened Controller

  const GRAVITY := 30.0
  const SPEED := 10.0

  /** The factor on the damping while airborne. */
  const AIR_DAMPING := 0.5

  /** The camera height at or below which the player counts as out of bounds. */
  const FLOOR_LIMIT := -25.0

  class Player {
    var geometry: Capsule
    var velocity: Vec
    var direction: Vec
    var onFloor: bool
    var keyStates: Keys

    /** All five key flags start released; the capsule starts in the spawn pose. */
    constructor()
      ensures geometry == SpawnCapsule && velocity == Zero && direction == Zero
      ensures !onFloor && keyStates == Released
    {
      geometry := SpawnCapsule;
      velocity := Zero;
      direction := Zero;
      onFloor := false;
      keyStates := Released;
    }

    function Body(): Body
      reads this
    {
      Controller.Body(geometry, velocity, onFloor)
    }

    /** The `keydown` (down) and `keyup` (not down) listeners. */
    method OnKey(code: KeyCode, down: bool)
      modifies this
      ensures keyStates == Latch(old(keyStates), code, down)
      ensures Body() == old(Body()) && direction == old(direction)
    {
      match code
      case KeyW => keyStates := keyStates.(keyW := down);
      case KeyS => keyStates := keyStates.(keyS := down);
      case KeyA => keyStates := keyStates.(keyA := down);
      case KeyD => keyStates := keyStates.(keyD := down);
      case Space => keyStates := keyStates.(space := down);
      case OtherKey(_) =>
    }

    /** `handleControls`, with `speedDelta = dt * SPEED`. */
    method HandleControls(dt: real, camera: Camera, sqrt: real -> real)
      modifies this
      ensures var r := Controls(old(velocity), old(direction), keyStates, onFloor,
                                camera.WorldDirection(), dt * SPEED, sqrt);
              velocity == r.velocity && direction == r.direction
      ensures geometry == old(geometry) && onFloor == old(onFloor) && keyStates == old(keyStates)
    {
      var speedDelta := dt * SPEED;
      var look := camera.WorldDirection();
      if keyStates.keyW {
        direction := Scale(ForwardVector(look, sqrt), speedDelta);
        velocity := Add(velocity, direction);
      }
      if keyStates.keyS {
        direction := Scale(ForwardVector(look, sqrt), -speedDelta);
        velocity := Add(velocity, direction);
      }
      if keyStates.keyA {
        direction := Scale(SideVector(look, sqrt), -speedDelta);
        velocity := Add(velocity, direction);
      }
      if keyStates.keyD {
        direction := Scale(SideVector(look, sqrt), speedDelta);
        velocity := Add(velocity, direction);
      }
      if keyStates.space && onFloor {
        velocity := velocity.(y := JumpSpeed);
      }
    }

    /**
     * `updatePlayer`: gravity and halved damping while airborne, the
     * capsule translated by velocity * dt, the octree contact resolved, and
     * the camera put at the capsule's end.
     */
    method UpdatePlayer(dt: real, camera: Camera, sceneOctree: Octree, math: MathLib)
      modifies this, camera
      ensures Body() == Stepped(old(Body()), dt, GRAVITY, math.exp(-4.0 * dt), AIR_DAMPING, sceneOctree)
      ensures camera.position == geometry.end && camera.rotation == old(camera.rotation)
      ensures direction == old(direction) && keyStates == old(keyStates)
    {
      var damping := math.exp(-4.0 * dt) - 1.0;
      if !onFloor {
        velocity := velocity.(y := velocity.y - GRAVITY * dt);
        damping := damping * AIR_DAMPING;
      }
      velocity := AddScaled(velocity, velocity, damping);
      var deltaPosition := Scale(velocity, dt);
      geometry := Translate(geometry, deltaPosition);
      PlayerCollisions(sceneOctree);
      camera.position := geometry.end;
    }

    /** `playerCollisions` against the scene octree. */
    method PlayerCollisions(sceneOctree: Octree)
      modifies this
      ensures Body() == Collided(old(Body()), sceneOctree.capsuleIntersect(old(geometry)))
      ensures direction == old(direction) && keyStates == old(keyStates)
    {
      var result := sceneOctree.capsuleIntersect(geometry);
      if result.Some? {
        var n := result.value.normal;
        onFloor := n.y > 0.0;
        if !onFloor {
          velocity := AddScaled(velocity, n, -Dot(n, velocity));
        }
        geometry := Translate(geometry, Scale(n, result.value.depth));
      } else {
        onFloor := false;
      }
    }

    /**
     * `teleportPlayerIfOob`: when the camera is at or below y = -25, the
     * capsule's endpoints and radius are reset to the spawn pose and the
     * camera is put at its end with the default rotation; the velocity and
     * the floor flag are kept.
     */
    method TeleportPlayerIfOob(camera: Camera)
      modifies this, camera
      ensures old(camera.position.y) <= FLOOR_LIMIT ==>
                && geometry == SpawnCapsule
                && camera.position == SpawnCapsule.end && camera.rotation == Zero
      ensures old(camera.position.y) > FLOOR_LIMIT ==> geometry == old(geometry) && unchanged(camera)
      ensures velocity == old(velocity) && onFloor == old(onFloor)
      ensures direction == old(direction) && keyStates == old(keyStates)
    {
      if camera.position.y <= FLOOR_LIMIT {
        geometry := geometry.(start := Vec(0.0, 0.35, 0.0));
        geometry := geometry.(end := Vec(0.0, 1.0, 0.0));
        geometry := geometry.(radius := 0.35);
        camera.position := geometry.end;
        camera.rotation := Zero;
      }
    }
  }

  class World {
    const player: Player
    const camera: Camera
    const sceneOctree: Octree

    constructor(lookOf: Vec -> Vec, sceneOctree: Octree)
      ensures fresh(player) && fresh(camera) && this.sceneOctree == sceneOctree
      ensures player.Body() == Controller.Body(SpawnCapsule, Zero, false) && player.keyStates == Released
      ensures camera.position == Zero && camera.rotation == Zero
    {
      player := new Player();
      camera := new Camera(lookOf);
      this.sceneOctree := sceneOctree;
    }

    /**
     * One frame of `animate` with `dt = min(0.05, delta)`: controls, player
     * update, then the respawn check against the camera the update just
     * placed at the capsule's end.
     */
    method Animate(delta: real, math: MathLib)
      modifies player, camera
      ensures var dt := Min(MaxStep, delta);
              var c := Controls(old(player.velocity), old(player.direction), old(player.keyStates),
                                old(player.onFloor), old(camera.WorldDirection()), dt * SPEED, math.sqrt);
              var b := Stepped(Controller.Body(old(player.geometry), c.velocity, old(player.onFloor)),
                               dt, GRAVITY, math.exp(-4.0 * dt), AIR_DAMPING, sceneOctree);
              var out := b.geometry.end.y <= FLOOR_LIMIT;
              && player.Body() == Controller.Body(if out then SpawnCapsule else b.geometry, b.velocity, b.onFloor)
              && player.direction == c.direction && player.keyStates == old(player.keyStates)
              && camera.position == (if out then SpawnCapsule.end else b.geometry.end)
              && camera.rotation == (if out then Zero else old(camera.rotation))
    {
      var dt := Min(MaxStep, delta);
      player.HandleControls(dt, camera, math.sqrt);
      player.UpdatePlayer(dt, camera, sceneOctree, math);
      player.TeleportPlayerIfOob(camera);
    }
  }
}
