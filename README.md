# three.js demos: character controller, ball pool and layout arithmetic

This Dafny project models the logic core of a collection of three.js demo
views.

- **Character controller.** The three walking demos (Fps, the shooter in the
  Home view and FirstPerson) share a per-frame kinematic character
  controller:
  - a five-key latch;
  - a control step along a horizontal view basis, with a jump only from the
    floor;
  - gravity and exponential damping;
  - a capsule translation;
  - a grounded/airborne contact response against an octree;
  - an out-of-bounds respawn.
- **Ball pool.** The two shooters add a fixed pool of 100 balls used as a
  ring buffer:
  - a charged throw;
  - per-ball integration with a 1.5x world reflection;
  - an exchange of normal velocity components with the player, whose capsule
    is approximated by three points;
  - an ordered pairwise ball-ball exchange with symmetric separation.
- **Periodic table.** The layout arithmetic of the periodic-table view:
  - one object and one table target per five-field record;
  - a 5 x 5 x n grid.
- **Instanced grid.** The 10 x 10 x 10 instanced grid of the Home view, with
  its hover recolouring.

Vectors are triples of reals (module `Vectors`). The octree queries, `Math.exp`,
`Math.sqrt` and the camera's world direction are function-valued inputs
(module `Scene`).

The controller is written once, as pure functions over values (module
`Controller`). The per-demo classes `FpsGame.Player`, `HomeGame.Game` and
`FirstPerson.Player` update their fields in place. Each of their methods is
proved to leave exactly the state those functions describe, with the demo's own
constants:

| demo | speed | airborne damping factor |
|---|---|---|
| Fps | 30 | 0.5 |
| Home | 25 on the floor, 30 in the air | 0.1 |
| FirstPerson | 10 | 0.5 |

The ball physics is written the same way. The pure functions are in
`Projectiles`. The class `SpherePool.Spheres` holds the array of balls, the ring
index and the three shared scratch vectors. Its loops carry invariants that tie
the array to those functions, and conservation laws are proved about the
functions.

The Fps and Home copies of `Spheres`
(`src/views/Fps/script/FpsGame.ts:117-252`, `src/views/Home/script/initGame.ts:26-161`)
are identical except for the `ctx` path to the scene and the camera
(`this.ctx.` in one, `this.ctx.ctx.` in the other). The model replaces that
path by parameters, so both games use the one class.

Three behaviours of the code are kept as written:

- **The balls meet a phantom capsule.** The shooters test balls against the
  game's `playerCollider`, not the moving player, and the respawn resets that
  collider rather than the player's capsule. `Game.Valid` therefore keeps
  `playerCollider` equal to the spawn capsule, and each frame's contract
  passes `SpawnCapsule` to the ball update. `SpawnCapsuleMissesFarBalls`
  shows a consequence: a ball of radius at most 1 whose centre has x >= 2
  never touches the spawn-pose collider. Such a ball and the player's
  velocity are left unchanged by the exchange, wherever the player's own
  capsule is.
- **The FirstPerson respawn keeps some state.** It resets the capsule and the
  camera but keeps the velocity and the floor flag.
- **The third tested point is a shared scratch vector.** In
  `playerSphereCollision` the third point is `vector1`, which also receives
  every hit's normal. `ThirdPoint` states when it is the midpoint and when it
  is a normal.

## Model

| member | source | states |
|---|---|---|
| Vectors.NormalizeIsUnit | src/views/Fps/script/FpsGame.ts:206 | `normalize` of a non-zero vector is a unit vector when the host square root is exact, which is the unit-normal hypothesis the exchange laws use |
| Scene.Translate | src/views/Fps/script/FpsGame.ts:94 | translating a capsule keeps its radius and its axis (end - start): the capsule moves rigidly |
| Scene.Min | src/views/Fps/script/FpsGame.ts:342 | the frame step `min(0.05, delta)` is at most 0.05, at most delta, and one of the two |
| Scene.Camera.OnMouseMove | src/views/Fps/script/FpsGame.ts:327-332 | while the pointer is locked, yaw drops by movementX/500 and pitch by movementY/500; unlocked, the camera does not change |
| Scene.Camera.WorldDirection | src/views/Fps/script/FpsGame.ts:71 | defines the view direction `getWorldDirection` writes, as the host function of the camera rotation; every control step and throw reads it |
| Controller.LatchSetsOnlyItsFlag | src/views/FirstPerson/script/firstPerson.ts:169-175 | a keydown/keyup sets its own flag to true/false and leaves every other flag as it was; unknown codes change nothing |
| Controller.ReleasedHasNoKeyPressed | src/views/FirstPerson/script/firstPerson.ts:134-146 | all five key flags start released |
| Controller.Latch | src/views/Fps/script/FpsGame.ts:40-48 | defines the key flags after a keydown (true) or keyup (false) of one code; other codes leave all five flags as they are |
| Controller.Controls | src/views/Fps/script/FpsGame.ts:50-68 | defines the control step: the W, S, A, D pushes in that order, each overwriting `direction` and adding it to the velocity, then velocity.y = 15 when Space is held on the floor |
| Controller.Damping | src/views/Fps/script/FpsGame.ts:87-91 | defines the damping exp(-4dt) - 1, times the airborne factor while not on the floor |
| Controller.Moved | src/views/Fps/script/FpsGame.ts:87-94 | defines the integration part of updatePlayer: gravity while airborne, damping, then the capsule translated by velocity * dt |
| Controller.Collided | src/views/Fps/script/FpsGame.ts:101-114 | defines the contact response to the octree answer: floor flag from normal.y > 0, wall contacts remove the normal component, the capsule moves by normal * depth |
| Controller.Stepped | src/views/Fps/script/FpsGame.ts:85-98 | defines updatePlayer on the body: the integration step, then the contact response to the octree answer for the moved capsule |
| Controller.ForwardVector | src/views/Fps/script/FpsGame.ts:70-75 | the forward vector is horizontal (y = 0) |
| Controller.SideVector | src/views/Fps/script/FpsGame.ts:77-83 | the side vector is horizontal (y = 0) |
| Controller.SideIsPerpendicular | src/views/Fps/script/FpsGame.ts:77-83 | the side vector is perpendicular to the forward vector |
| Controller.ControlsVertical | src/views/Fps/script/FpsGame.ts:50-68 | after the control step velocity.y is 15 exactly when Space is held on the floor, and otherwise unchanged: W/S/A/D never change it |
| Controller.MovesHorizontal | src/views/Fps/script/FpsGame.ts:53-64 | the four movement keys add (W - S) times the scaled forward vector and (D - A) times the scaled side vector to the horizontal velocity |
| Controller.ControlsHorizontal | src/views/Fps/script/FpsGame.ts:50-68 | horizontally the whole control step adds exactly the net forward and side pushes, whatever the jump does |
| Controller.ControlsIdle | src/views/Fps/script/FpsGame.ts:50-68 | with no key held the control step changes neither the velocity nor the direction |
| Controller.DampedIsScaled | src/views/Fps/script/FpsGame.ts:87-93 | gravity acts only while airborne, and the damped velocity is that velocity times 1 + damping |
| Controller.DampingFactorRange | src/views/Fps/script/FpsGame.ts:87-91 | for exp(-4dt) in (0, 1] and an airborne factor in [0, 1], the factor 1 + damping lies in (0, 1] |
| Controller.MovedZeroStep | src/views/Fps/script/FpsGame.ts:85-95 | a zero time step with exp(0) = 1 leaves the capsule, the velocity and the floor flag unchanged |
| Controller.CollidedResponse | src/views/Fps/script/FpsGame.ts:101-114 | onFloor afterwards holds iff there was a contact with normal.y > 0; no contact changes nothing else; a contact moves the capsule by normal*depth; a floor contact keeps the velocity; a wall contact removes the normal component, which becomes 0 for a unit normal |
| Controller.SteppedOnFloor | src/views/Fps/script/FpsGame.ts:85-99 | after updatePlayer the player is on the floor iff the octree reports an upward contact for the translated capsule |
| Projectiles.NextIndex | src/views/Fps/script/FpsGame.ts:162 | the next ring index is below the list length and is the current index plus one, wrapping to 0 at the end |
| Projectiles.IndexAfter | src/views/Fps/script/FpsGame.ts:124 | starting from 0, the ring index stays below the list length after any number of throws |
| Projectiles.IndexAfterFirstRound | src/views/Fps/script/FpsGame.ts:152-163 | the first len throws of a fresh pool use slots 0, 1, ..., len - 1 in order |
| Projectiles.IndexAfterPeriodic | src/views/Fps/script/FpsGame.ts:152-163 | throw k + len reuses the slot of throw k: a slot is overwritten only after every other slot was thrown once more |
| Projectiles.Impulse | src/views/Fps/script/FpsGame.ts:158 | defines the throw impulse 15 + 30(1 - exp((mouseTime - now) * 0.001)) |
| Projectiles.Thrown | src/views/Fps/script/FpsGame.ts:155-160 | defines the thrown ball: centre at the capsule end plus direction * 1.5 radius, velocity direction * impulse plus twice the player velocity |
| Projectiles.WorldResponse | src/views/Fps/script/FpsGame.ts:168-176 | defines the world response of a ball: on contact the normal component is scaled by -0.5 and the centre moves by normal * depth, otherwise gravity acts on velocity.y |
| Projectiles.ImpulseRange | src/views/Fps/script/FpsGame.ts:158 | with mouseTime <= now and exp mapping non-positive reals into (0, 1], the impulse lies in [15, 45) |
| Projectiles.ThrownPlacement | src/views/Fps/script/FpsGame.ts:155-160 | for a unit view direction, the thrown ball starts 1.5 capsule radii from the capsule's end, its velocity minus twice the player's is direction * impulse, and its radius is kept |
| Projectiles.WorldResponseBounce | src/views/Fps/script/FpsGame.ts:167-176 | on a world contact the centre moves by normal*depth and a unit normal's velocity component becomes -0.5 times its value, with no gravity; without a contact only velocity.y changes, by -gravity*dt |
| Projectiles.ExchangeConservesSum | src/views/Fps/script/FpsGame.ts:206-210 | exchanging normal components keeps the sum of the two velocities |
| Projectiles.ExchangeSwapsNormal | src/views/Fps/script/FpsGame.ts:236-241 | along a unit normal the two normal components are swapped and each tangential part is kept |
| Projectiles.ExchangeConservesEnergy | src/views/Fps/script/FpsGame.ts:236-241 | along a unit normal the exchange keeps the sum of squared speeds |
| Projectiles.TestPoint | src/views/Fps/script/FpsGame.ts:202-215 | defines one tested point: if the point is within the summed radii, the normal components are exchanged and the ball pushed back by half the overlap; otherwise nothing changes |
| Projectiles.Tested | src/views/Fps/script/FpsGame.ts:200-216 | defines the three-point loop: start, end, then whatever vector1 holds, each tested on the result of the previous ones |
| Projectiles.PlayerSphereCollision | src/views/Fps/script/FpsGame.ts:190-217 | defines playerSphereCollision: vector1 set to the capsule midpoint, then the three-point loop |
| Projectiles.TestPointLaws | src/views/Fps/script/FpsGame.ts:202-216 | one tested point keeps player velocity + ball velocity and the ball radius; a point that does not touch the ball changes nothing; a touching point leaves its normal in vector1 and moves the ball centre by -d along it |
| Projectiles.TestedConserves | src/views/Fps/script/FpsGame.ts:190-217 | over the three points, player velocity + ball velocity and the ball radius are kept; the capsule is only read |
| Projectiles.ThirdPoint | src/views/Fps/script/FpsGame.ts:193-206 | the third tested point is the midpoint if neither endpoint touched, otherwise the normal of the last endpoint that touched |
| Projectiles.SpawnCapsuleMissesFarBalls | src/views/Fps/script/FpsGame.ts:190-217 | against the spawn-pose collider, a ball of radius at most 1 that lies 2 or more units along x never changes and leaves the player's velocity unchanged |
| Projectiles.AxisCapsuleMissesFarBalls | src/views/Fps/script/FpsGame.ts:190-217 | the same for any capsule of radius at most 0.35 lying in the plane x = 0 |
| Projectiles.Untouched | src/views/Fps/script/FpsGame.ts:202-204 | if none of the three points touches the ball, the collision pass changes nothing |
| Projectiles.FarFromAxis | src/views/Fps/script/FpsGame.ts:200-204 | a point in the plane x = 0 is out of reach of a ball of radius at most 1 centred at x >= 2 |
| Projectiles.PairExchange | src/views/Fps/script/FpsGame.ts:229-246 | defines one pair test: overlapping balls exchange normal components and move apart by half the overlap each; others are untouched |
| Projectiles.PairExchangeLaws | src/views/Fps/script/FpsGame.ts:229-248 | a pair test keeps both radii, the sum of the velocities and the sum of the centres; a non-overlapping pair is untouched; along a unit normal the normal components are swapped |
| Projectiles.PairStepConserves | src/views/Fps/script/FpsGame.ts:229-248 | one pair test keeps the pool's total velocity and the sum of all centres |
| Projectiles.PairStepFrame | src/views/Fps/script/FpsGame.ts:223-248 | a pair test changes only balls i and j |
| Projectiles.SpheresCollisions | src/views/Fps/script/FpsGame.ts:219-251 | defines spheresCollisions: every pair i < j once, in lexicographic order, each pair seeing the effects of the pairs before it |
| Projectiles.RowConserves | src/views/Fps/script/FpsGame.ts:225-250 | the pairs (i, i+1) .. (i, j-1) together keep the total velocity and the centre sum |
| Projectiles.RowsConserve | src/views/Fps/script/FpsGame.ts:223-250 | all pairs with first index below i, in lexicographic order, keep the total velocity and the centre sum |
| Projectiles.SpheresCollisionsConserve | src/views/Fps/script/FpsGame.ts:219-251 | the whole ordered i < j sweep keeps the pool's total velocity (equal-mass momentum) and the sum of centres (centre of mass) |
| Projectiles.BallStep | src/views/Fps/script/FpsGame.ts:167-181 | defines one forEach iteration: advance, world response or gravity, damping, then the player exchange |
| Projectiles.Integrated | src/views/Fps/script/FpsGame.ts:167-182 | defines the first k iterations of the forEach, in slot order |
| Projectiles.Updated | src/views/Fps/script/FpsGame.ts:165-186 | defines updateSpheres: every ball integrated and exchanged with the player in slot order, then the pairwise sweep |
| Projectiles.BallStepMomentum | src/views/Fps/script/FpsGame.ts:165-182 | in each forEach iteration, player velocity + all ball velocities after the player exchange equals the same sum after the ball's integration: the exchange moves momentum between ball and player without creating any |
| SpherePool.Spheres.constructor | src/views/Fps/script/FpsGame.ts:137-150 | 100 balls of radius 0.2 at rest at (0, -100, 0), ring index 0 |
| SpherePool.Spheres.ThrowBall | src/views/Fps/script/FpsGame.ts:152-163 | only slot sphereIdx is overwritten, with the thrown ball; the index advances mod the list length; the scratch vectors are kept |
| SpherePool.Spheres.PlayerSphereCollision | src/views/Fps/script/FpsGame.ts:190-217 | ball k, the player's velocity and the scratch vectors end as the three-point exchange describes, the third point read from vector1; no other ball changes |
| SpherePool.Spheres.TestPointAt | src/views/Fps/script/FpsGame.ts:203-215 | one loop iteration of the three-point test, in place |
| SpherePool.Spheres.SpheresCollisions | src/views/Fps/script/FpsGame.ts:219-251 | the array and the scratch vectors end as the ordered i < j sweep describes, which keeps total velocity and centre sum |
| SpherePool.Spheres.PairTest | src/views/Fps/script/FpsGame.ts:225-248 | one pair (i, j) of the sweep, in place |
| SpherePool.Spheres.UpdateSpheres | src/views/Fps/script/FpsGame.ts:165-188 | the balls, the player's velocity and the scratch vectors end as "integrate and exchange each ball in slot order, then the pairwise sweep" describes |
| FpsGame.Player.constructor | src/views/Fps/script/FpsGame.ts:12-31 | the player starts in the spawn capsule, at rest, airborne, with no key held |
| FpsGame.Player.OnKey | src/views/Fps/script/FpsGame.ts:40-48 | a key event updates the latch and nothing else |
| FpsGame.Player.HandleControls | src/views/Fps/script/FpsGame.ts:50-83 | velocity and direction become the control step's result with speedDelta = dt*30; the capsule, the floor flag and the keys are kept |
| FpsGame.Player.UpdatePlayer | src/views/Fps/script/FpsGame.ts:85-99 | capsule, velocity and floor flag become one integration step (gravity 30, airborne damping x0.5) followed by the contact response; the camera is at the capsule's end |
| FpsGame.Player.PlayerCollisions | src/views/Fps/script/FpsGame.ts:101-114 | capsule, velocity and floor flag become the contact response to the octree's answer |
| FpsGame.Game.constructor | src/views/Fps/script/FpsGame.ts:254-281 | a fresh game whose playerCollider is the spawn capsule and whose pool is parked |
| FpsGame.Game.OnMouseDown | src/views/Fps/script/FpsGame.ts:322-325 | the charge starts at now |
| FpsGame.Game.OnMouseUp | src/views/Fps/script/FpsGame.ts:334-338 | while locked, the view direction is written to player.direction and the next ball is thrown from the player's capsule with the charged impulse; unlocked, nothing changes |
| FpsGame.Game.EditAnimate | src/views/Fps/script/FpsGame.ts:341-350 | one frame with dt = min(0.05, delta): controls, player step, ball update against the spawn-pose collider, then the respawn check on the camera; the player's capsule is never reset |
| FpsGame.Game.MovePlayer | src/views/Fps/script/FpsGame.ts:343-344 | the player half of a frame: the control pushes, then the stepped body (gravity, damping, move, octree contact), camera at the capsule end, key latch unchanged |
| FpsGame.Game.TeleportPlayerIfOob | src/views/Fps/script/FpsGame.ts:352-361 | at camera y <= -25 the collider is reset and the camera goes to its end with zero rotation; the player is untouched |
| HomeGame.Player.constructor | src/views/Home/script/initGame.ts:12-23 | the player starts in the spawn capsule, at rest and airborne |
| HomeGame.Game.constructor | src/views/Home/script/initGame.ts:163-203 | a fresh game with no key held, the collider in the spawn pose and the pool parked |
| HomeGame.Game.OnKey | src/views/Home/script/initGame.ts:278-284 | a key event updates the game's latch and nothing else |
| HomeGame.Game.OnMouseDown | src/views/Home/script/initGame.ts:260-263 | the charge starts at now |
| HomeGame.Game.OnMouseUp | src/views/Home/script/initGame.ts:272-276 | while locked, the next ball is thrown as in the Fps copy; unlocked, nothing changes |
| HomeGame.Game.HandleControls | src/views/Home/script/initGame.ts:287-320 | the player's velocity and direction become the control step's result with speedDelta = dt*25 on the floor and dt*30 in the air |
| HomeGame.Game.UpdatePlayer | src/views/Home/script/initGame.ts:322-336 | one integration step with airborne damping x0.1, then the contact response; the camera is at the capsule's end |
| HomeGame.Game.PlayerCollisions | src/views/Home/script/initGame.ts:349-362 | the same contact response as the Fps copy |
| HomeGame.Game.Animate | src/views/Home/script/initGame.ts:338-347 | one frame: controls, player step, ball update against the spawn-pose collider, respawn check |
| HomeGame.Game.MovePlayer | src/views/Home/script/initGame.ts:340-341 | the player half of a frame: the control pushes with the floor-dependent speed, then the stepped body, camera at the capsule end |
| HomeGame.Game.TeleportPlayerIfOob | src/views/Home/script/initGame.ts:364-373 | at camera y <= -25 only the collider and the camera are reset; the player's capsule and velocity are untouched |
| FirstPerson.Player.constructor | src/views/FirstPerson/script/firstPerson.ts:122-146 | the player starts in the spawn capsule, at rest, airborne, with no key held |
| FirstPerson.Player.OnKey | src/views/FirstPerson/script/firstPerson.ts:169-175 | a key event updates the latch and nothing else |
| FirstPerson.Player.HandleControls | src/views/FirstPerson/script/firstPerson.ts:178-211 | velocity and direction become the control step's result with speedDelta = dt*10 |
| FirstPerson.Player.UpdatePlayer | src/views/FirstPerson/script/firstPerson.ts:213-228 | one integration step with airborne damping halved, then the contact response; the camera is at the capsule's end |
| FirstPerson.Player.PlayerCollisions | src/views/FirstPerson/script/firstPerson.ts:230-243 | the same contact response against the scene octree |
| FirstPerson.Player.TeleportPlayerIfOob | src/views/FirstPerson/script/firstPerson.ts:245-254 | at camera y <= -25 the capsule returns to the spawn pose and the camera to its end with zero rotation; velocity and floor flag are kept |
| FirstPerson.World.constructor | src/views/FirstPerson/script/firstPerson.ts:349-357 | a fresh world whose player is in the spawn pose |
| FirstPerson.World.Animate | src/views/FirstPerson/script/firstPerson.ts:419-430 | one frame with dt = min(0.05, delta): controls, player step, then the respawn, which keeps the stepped velocity and floor flag |
| PeriodicTable.RecordCount | src/views/Periodictable/script/index.ts:85 | the loop i = 0, 5, 10, ... < length visits ceil(length / 5) records: enough to cover every index, and no record starting past the end |
| PeriodicTable.ElementAt | src/views/Periodictable/script/index.ts:85-102 | defines the object created for the record starting at 5k: label 5k / 5 + 1, symbol table[5k], details table[5k+1] and table[5k+2] |
| PeriodicTable.ElementLabels | src/views/Periodictable/script/index.ts:92-102 | the record starting at 5k is labelled k + 1 and shows table[5k]; labels follow record order, so they are distinct |
| PeriodicTable.TableTargetAt | src/views/Periodictable/script/index.ts:123-128 | defines the table target of record k: x = Number(table[5k+3]) * 180 - 1330, y = -(Number(table[5k+4]) * 180) + 990, NaN as None |
| PeriodicTable.TableTargetLattice | src/views/Periodictable/script/index.ts:126-127 | a record with numeric column c and row r goes to (-1150 + 180(c-1), 810 - 180(r-1)) |
| PeriodicTable.TableTargetSpacing | src/views/Periodictable/script/index.ts:126-127 | records with numeric cells are 180 apart in x per column and 180 apart in y per row, and share a target exactly when they share column and row |
| PeriodicTable.GridTargetRange | src/views/Periodictable/script/index.ts:170-172 | grid x and y each take one of -800, -400, 0, 400, 800; z is -2000 plus a multiple of 1000 |
| PeriodicTable.GridZMonotone | src/views/Periodictable/script/index.ts:172 | grid z never decreases along the object order |
| PeriodicTable.GridDecomposition | src/views/Periodictable/script/index.ts:170-172 | i = 25 floor(i/25) + 5 (floor(i/5) mod 5) + i mod 5, so the three grid coordinates determine i |
| PeriodicTable.GridTargetInjective | src/views/Periodictable/script/index.ts:170-172 | distinct objects get distinct grid targets |
| PeriodicTable.GridTargetAt | src/views/Periodictable/script/index.ts:170-172 | defines grid target i: x = (i mod 5) * 400 - 800, y = -(floor(i/5) mod 5) * 400 + 800, z = floor(i/25) * 1000 - 2000 |
| PeriodicTable.Periodictable.CreateDom | src/views/Periodictable/script/index.ts:84-113 | appends one object per five-field record, in record order |
| PeriodicTable.Periodictable.CreateTable | src/views/Periodictable/script/index.ts:122-130 | appends one table target per five-field record, in record order |
| PeriodicTable.Periodictable.CreateGrid | src/views/Periodictable/script/index.ts:166-176 | appends exactly one grid target per object, in object order |
| InstancedGrid.SlotBijection | src/views/Home/script/initRaycast.ts:33-40 | cell (i, j, k) goes to slot 100i + 10j + k, which is below 1000 and from which the cell can be read back |
| InstancedGrid.SlotSurjective | src/views/Home/script/initRaycast.ts:33-40 | every slot below 1000 is the slot of exactly its own cell |
| InstancedGrid.SlotOf | src/views/Home/script/initRaycast.ts:33-40 | defines the slot the running counter has reached at cell (i, j, k): 100i + 10j + k |
| InstancedGrid.PositionRange | src/views/Home/script/initRaycast.ts:30-36 | every coordinate of every instance lies in [15.5, 24.5] |
| InstancedGrid.PositionOf | src/views/Home/script/initRaycast.ts:33-37 | defines the translation of slot s from the cell of its digits: (offset - i, offset - j, offset - k) |
| InstancedGrid.RandomColourNotWhite | src/views/Home/script/initRaycast.ts:60 | for Math.random() in [0, 1) the new colour is a 24-bit value other than white |
| InstancedGrid.RandomColour | src/views/Home/script/initRaycast.ts:60 | defines the colour `setHex(Math.random() * 0xffffff)` stores, as the floor of its argument |
| InstancedGrid.Hovered | src/views/Home/script/initRaycast.ts:52-62 | a hover frame changes at most the hovered instance |
| InstancedGrid.HoverOnlyClearsWhite | src/views/Home/script/initRaycast.ts:58-61 | an instance changes colour only if it was white, a hovered non-white instance keeps its colour, nothing becomes white, and a hovered white instance stops being white |
| InstancedGrid.HoverRecoloursOnce | src/views/Home/script/initRaycast.ts:58-61 | hovering the same instance twice recolours it at most once: the second hover changes nothing |
| InstancedGrid.Raycaster.constructor | src/views/Home/script/initRaycast.ts:15-21 | construction allocates the 1000-slot buffers and runs initMeshes: every slot holds the translation of its cell and is white |
| InstancedGrid.Raycaster.InitMeshes | src/views/Home/script/initRaycast.ts:23-46 | the counter ends at 1000; slot s holds the translation of the cell of its digits, and every slot is white |
| InstancedGrid.Raycaster.Hover | src/views/Home/script/initRaycast.ts:48-67 | one hover frame in place: the colours become the Hovered colours of the intersected instance |

## Left out

- The octree is not built, and its queries are not modelled: `capsuleIntersect` and `sphereIntersect` are input functions returning an optional (normal, depth). The capsule library is reduced to `translate`, which moves both endpoints by the same vector.
- `Math.exp`, `Math.sqrt` and `getWorldDirection` are input functions; no bound is assumed except where a lemma states one as a hypothesis. The camera's direction is a function of its rotation only, and its `up` is the default (0, 1, 0).
- Floating-point rounding is not modelled: all arithmetic is over reals.
- Browser I/O becomes inputs:
  - `clock.getDelta` becomes `delta` and `performance.now` becomes `now`;
  - pointer lock becomes a `locked` flag, and `requestPointerLock` is not modelled;
  - each `requestAnimationFrame` recursion becomes one call per frame.
- Writing `keyStates[e.code]` for a code other than the five keys adds a property that nothing reads. The latch ignores such codes.
- Rendering and scene setup are not modelled:
  - the copying of ball centres to their meshes at the end of `updateSpheres`;
  - meshes, materials and lights;
  - GLTF loading and the octree helper;
  - the Robot and Man animation mixers updated in FirstPerson's `animate`.
- The objects' back-pointers (`ctx`) are replaced by parameters. The ball pool receives the player's capsule, velocity and view direction, and returns the player's new velocity.
- In `throwBall` the camera's direction is written into `player.direction`. That write is made by `Game.OnMouseUp` just before `Spheres.ThrowBall`, which receives the same vector.
- Periodic table: the following are trigonometry, TWEEN, randomness or UI, and are not modelled:
  - `createSphere` and `createHelix`;
  - `transform`;
  - the random start positions and the DOM elements of `createDom`.
- The element data module `table` is not part of this model. Cells are modelled as numbers, strings or missing. `Number()` of a string is treated as NaN, so numeric strings are not parsed.
- The `mousemove` handler that sets the raycaster's mouse coordinates is not modelled. The raycaster's intersection test is an input: the nearest instance hit, if any.
- Colours are modelled as their 24-bit hex value. `setHex` stores the floor of its argument.
