/**
 * The ball pool's physics as pure functions over values: the ring index,
 * the throw, per-ball integration with the world response, the ball-player
 * exchange against a capsule approximated by three points, and the ordered
 * pairwise ball-ball exchange. The `Spheres` class (module SpherePool)
 * updates its fields to exactly these values.
 */
module Projectiles {
  import opened Vectors
  import opened Scene

  /** A pooled ball: its collider (`center`, `radius`) and its velocity. */
  datatype Ball = Ball(center: Vec, radius: real, velocity: Vec)

  /** The pool's shared scratch vectors `vector1`, `vector2`, `vector3`. */
  datatype Scratch = Scratch(v1: Vec, v2: Vec, v3: Vec)

  const NUM_SPHERE: nat := 100
  const SPHERE_RADIUS := 0.2

  /** Where every ball waits before its first throw. */
  const Parked := Ball(Vec(0.0, -100.0, 0.0), SPHERE_RADIUS, Zero)

  // ---------------------------------------------------------------------
  // Ring index and throw

  /** `(sphereIdx + 1) % list.length` */
  function NextIndex(idx: nat, len: nat): (r: nat)
    requires len > 0
    ensures r < len
    ensures idx < len ==> r == if idx + 1 == len then 0 else idx + 1
  {
    (idx + 1) % len
  }

  /** The ring index after `k` throws from a fresh pool. */
  function IndexAfter(k: nat, len: nat): (r: nat)
    requires len > 0
    ensures r < len
  {
    if k == 0 then 0 else NextIndex(IndexAfter(k - 1, len), len)
  }

  /** The first `len` throws of a fresh pool go to slots 0, 1, ..., len - 1. */
  lemma {:induction false} IndexAfterFirstRound(k: nat, len: nat)
    requires k < len
    ensures IndexAfter(k, len) == k
  {
    if k > 0 {
      IndexAfterFirstRound(k - 1, len);
    }
  }

  /**
   * The ring has period `len`: throw k + len writes the slot throw k wrote,
   * so a ball is reused only after every other slot was thrown once more.
   */
  lemma {:induction false} IndexAfterPeriodic(k: nat, len: nat)
    requires len > 0
    ensures IndexAfter(k + len, len) == IndexAfter(k, len)
  {
    if k == 0 {
      IndexAfterFirstRound(len - 1, len);
    } else {
      IndexAfterPeriodic(k - 1, len);
    }
  }

  /** The charge curve `15 + 30 * (1 - exp((mouseTime - now) * 0.001))`. */
  function Impulse(mouseTime: real, now: real, exp: real -> real): real {
    15.0 + 30.0 * (1.0 - exp((mouseTime - now) * 0.001))
  }

  /**
   * With the button pressed no later than released, and exp mapping the
   * non-positive reals into (0, 1], the impulse lies in [15, 45).
   */
  lemma ImpulseRange(mouseTime: real, now: real, exp: real -> real)
    requires mouseTime <= now
    requires forall x: real :: x <= 0.0 ==> 0.0 < exp(x) <= 1.0
    ensures 15.0 <= Impulse(mouseTime, now, exp) < 45.0
  {
    assert (mouseTime - now) * 0.001 <= 0.0;
  }

  /**
   * `throwBall` for one slot: the ball starts 1.5 capsule radii ahead of the
   * capsule's end along the view direction, with velocity
   * direction * impulse + playerVelocity * 2; its radius is kept.
   */
  function Thrown(b: Ball, end: Vec, capsuleRadius: real, direction: Vec,
                  playerVelocity: Vec, impulse: real): Ball
  {
    Ball(AddScaled(end, direction, capsuleRadius * 1.5), b.radius,
         AddScaled(Scale(direction, impulse), playerVelocity, 2.0))
  }

  /**
   * For a unit view direction the thrown ball's centre is 1.5 capsule radii
   * from the capsule's end and its velocity exceeds twice the player's by
   * exactly `impulse` along that direction.
   */
  lemma ThrownPlacement(b: Ball, end: Vec, capsuleRadius: real, direction: Vec,
                        playerVelocity: Vec, impulse: real)
    requires Dot(direction, direction) == 1.0
    ensures var t := Thrown(b, end, capsuleRadius, direction, playerVelocity, impulse);
            && DistanceSquared(t.center, end) == (capsuleRadius * 1.5) * (capsuleRadius * 1.5)
            && Sub(t.velocity, Scale(playerVelocity, 2.0)) == Scale(direction, impulse)
            && t.radius == b.radius
  {
    var t := Thrown(b, end, capsuleRadius, direction, playerVelocity, impulse);
    var k := capsuleRadius * 1.5;
    assert Sub(t.center, end) == Scale(direction, k);
    assert Dot(Scale(direction, k), Scale(direction, k)) == k * k * Dot(direction, direction);
  }

  // ---------------------------------------------------------------------
  // Integration against the world

  /** `center.addScaledVector(velocity, dt)` */
  function Advanced(b: Ball, dt: real): Ball {
    b.(center := AddScaled(b.center, b.velocity, dt))
  }

  /**
   * On a world contact the velocity loses 1.5 times its normal component
   * and the centre is pushed out by normal * depth; otherwise gravity acts.
   */
  function WorldResponse(b: Ball, hit: Option<Contact>, gravity: real, dt: real): Ball {
    match hit
    case None => b.(velocity := b.velocity.(y := b.velocity.y - gravity * dt))
    case Some(c) =>
      Ball(Add(b.center, Scale(c.normal, c.depth)), b.radius,
           AddScaled(b.velocity, c.normal, -Dot(c.normal, b.velocity) * 1.5))
  }

  /**
   * A world contact with a unit normal reverses the normal velocity
   * component at half its size and adds no gravity; without a contact
   * only velocity.y changes, by -gravity * dt.
   */
  lemma WorldResponseBounce(b: Ball, hit: Option<Contact>, gravity: real, dt: real)
    ensures var r := WorldResponse(b, hit, gravity, dt);
            && r.radius == b.radius
            && (hit.None? ==> r.center == b.center
                              && r.velocity == Vec(b.velocity.x, b.velocity.y - gravity * dt, b.velocity.z))
            && (hit.Some? ==> r.center == AddScaled(b.center, hit.value.normal, hit.value.depth))
    ensures hit.Some? && Dot(hit.value.normal, hit.value.normal) == 1.0 ==>
            Dot(hit.value.normal, WorldResponse(b, hit, gravity, dt).velocity) ==
            -0.5 * Dot(hit.value.normal, b.velocity)
  {
    if hit.Some? && Dot(hit.value.normal, hit.value.normal) == 1.0 {
      var n := hit.value.normal;
      DotAddScaled(n, b.velocity, n, -Dot(n, b.velocity) * 1.5);
    }
  }

  /** `velocity.addScaledVector(velocity, exp(-1.5 dt) - 1)` */
  function BallDamped(b: Ball, decay: real): Ball {
    b.(velocity := AddScaled(b.velocity, b.velocity, decay - 1.0))
  }

  /** One ball's integration step of `updateSpheres`, before the player exchange. */
  function Integrate(b: Ball, dt: real, gravity: real, world: Octree, math: MathLib): Ball {
    var a := Advanced(b, dt);
    var w := WorldResponse(a, world.sphereIntersect(a.center, a.radius), gravity, dt);
    BallDamped(w, math.exp(-1.5 * dt))
  }

  // ---------------------------------------------------------------------
  // Equal-mass exchange along a normal

  /**
   * The new velocity of a body with velocity `a` after exchanging normal
   * components with a body of velocity `b`: `a + n(n.b) - n(n.a)`.
   */
  function Exchanged(n: Vec, a: Vec, b: Vec): Vec {
    Sub(Add(a, Along(n, b)), Along(n, a))
  }

  /** Along any normal the exchange conserves the sum of the two velocities. */
  lemma ExchangeConservesSum(n: Vec, a: Vec, b: Vec)
    ensures Add(Exchanged(n, a, b), Exchanged(n, b, a)) == Add(a, b)
  {
  }

  /**
   * Along a unit normal the exchange swaps the two normal components and
   * keeps each body's tangential part.
   */
  lemma ExchangeSwapsNormal(n: Vec, a: Vec, b: Vec)
    requires Dot(n, n) == 1.0
    ensures Dot(n, Exchanged(n, a, b)) == Dot(n, b)
    ensures Dot(n, Exchanged(n, b, a)) == Dot(n, a)
    ensures Sub(Exchanged(n, a, b), Along(n, Exchanged(n, a, b))) == Sub(a, Along(n, a))
  {
    var na, nb := Dot(n, a), Dot(n, b);
    ShiftBy(a, n, nb, na);
    ShiftBy(b, n, na, nb);
    DotAddScaled(n, a, n, nb - na);
    DotAddScaled(n, b, n, na - nb);
    assert Dot(n, Exchanged(n, a, b)) == nb;
    ShiftBack(a, n, nb, na);
  }

  /** Along a unit normal the exchange conserves the sum of squared speeds. */
  lemma ExchangeConservesEnergy(n: Vec, a: Vec, b: Vec)
    requires Dot(n, n) == 1.0
    ensures Dot(Exchanged(n, a, b), Exchanged(n, a, b)) + Dot(Exchanged(n, b, a), Exchanged(n, b, a))
            == Dot(a, a) + Dot(b, b)
  {
    var na, nb := Dot(n, a), Dot(n, b);
    ShiftBy(a, n, nb, na);
    ShiftBy(b, n, na, nb);
    EnergyOfShift(n, a, nb - na);
    EnergyOfShift(n, b, na - nb);
    ShiftEnergyCancels(na, nb);
  }

  /** 2 (b - a) a + (b - a)^2 + 2 (a - b) b + (a - b)^2 = 0 */
  lemma ShiftEnergyCancels(a: real, b: real)
    ensures (2.0 * (b - a) * a + (b - a) * (b - a)) + (2.0 * (a - b) * b + (a - b) * (a - b)) == 0.0
  {
  }

  /** |a + s n|^2 = |a|^2 + 2 s (n.a) + s^2 for a unit n. */
  lemma EnergyOfShift(n: Vec, a: Vec, s: real)
    requires Dot(n, n) == 1.0
    ensures Dot(AddScaled(a, n, s), AddScaled(a, n, s)) == Dot(a, a) + (2.0 * s * Dot(n, a) + s * s)
  {
    var e := AddScaled(a, n, s);
    assert Dot(e, e) == Dot(a, a) + 2.0 * s * Dot(n, a) + s * s * Dot(n, n);
  }

  // ---------------------------------------------------------------------
  // Ball-player exchange (`playerSphereCollision`)

  /** The ball, the player's velocity and the scratch vectors while a ball meets the player. */
  datatype Exchange = Exchange(ball: Ball, playerVelocity: Vec, scratch: Scratch)

  /** `vector1.addVectors(start, end).multiplyScalar(0.5)` */
  function Midpoint(c: Capsule): Vec {
    Scale(Add(c.start, c.end), 0.5)
  }

  /** Whether the ball overlaps a sphere of the capsule's radius around `point`. */
  function Touches(point: Vec, b: Ball, capsuleRadius: real): bool {
    var r := capsuleRadius + b.radius;
    DistanceSquared(point, b.center) < r * r
  }

  /**
   * One tested point: on overlap the normal from the ball to the point is
   * written to vector1, the two normal components to vector2 and vector3,
   * the velocities exchange them, and the ball's centre moves back by half
   * the overlap.
   */
  function TestPoint(e: Exchange, point: Vec, capsuleRadius: real, sqrt: real -> real): Exchange {
    if Touches(point, e.ball, capsuleRadius) then Hit(e, point, capsuleRadius, sqrt) else e
  }

  /** The exchange and push-back of a point that touches the ball. */
  function Hit(e: Exchange, point: Vec, capsuleRadius: real, sqrt: real -> real): Exchange {
    var c := e.ball.center;
    var r := capsuleRadius + e.ball.radius;
    var n := Normalize(Sub(point, c), sqrt);
    var v1 := Along(n, e.playerVelocity);
    var v2 := Along(n, e.ball.velocity);
    var d := (r - sqrt(DistanceSquared(point, c))) / 2.0;
    Exchange(Ball(AddScaled(c, n, -d), e.ball.radius, Sub(Add(e.ball.velocity, v1), v2)),
             Sub(Add(e.playerVelocity, v2), v1), Scratch(n, v1, v2))
  }

  /**
   * The k-th tested point: the capsule's start, its end, and then whatever
   * vector1 holds at that moment (the midpoint, unless a hit overwrote it).
   */
  function PointAt(e: Exchange, c: Capsule, k: nat): Vec {
    if k == 0 then c.start else if k == 1 then c.end else e.scratch.v1
  }

  /** The exchange after the first `k` of the three points. */
  function Tested(e: Exchange, c: Capsule, k: nat, sqrt: real -> real): Exchange
    requires k <= 3
  {
    if k == 0 then e
    else
      var p := Tested(e, c, k - 1, sqrt);
      TestPoint(p, PointAt(p, c, k - 1), c.radius, sqrt)
  }

  /** `playerSphereCollision`: vector1 starts as the midpoint, then three points are tested. */
  function PlayerSphereCollision(b: Ball, playerVelocity: Vec, scratch: Scratch, c: Capsule,
                                 sqrt: real -> real): Exchange
  {
    Tested(Exchange(b, playerVelocity, scratch.(v1 := Midpoint(c))), c, 3, sqrt)
  }

  /**
   * Every hit keeps player velocity + ball velocity and the ball's radius,
   * and moves the ball's centre back along the hit's normal by half the
   * overlap; a point that does not touch changes nothing.
   */
  lemma TestPointLaws(e: Exchange, point: Vec, capsuleRadius: real, sqrt: real -> real)
    ensures var t := TestPoint(e, point, capsuleRadius, sqrt);
            && Add(t.playerVelocity, t.ball.velocity) == Add(e.playerVelocity, e.ball.velocity)
            && t.ball.radius == e.ball.radius
            && (!Touches(point, e.ball, capsuleRadius) ==> t == e)
            && (Touches(point, e.ball, capsuleRadius) ==>
                  var n := Normalize(Sub(point, e.ball.center), sqrt);
                  var r := capsuleRadius + e.ball.radius;
                  && t.scratch.v1 == n
                  && t.ball.center == AddScaled(e.ball.center, n,
                                                -((r - sqrt(DistanceSquared(point, e.ball.center))) / 2.0)))
  {
    if Touches(point, e.ball, capsuleRadius) {
      var n := Normalize(Sub(point, e.ball.center), sqrt);
      ExchangeConservesSum(n, e.playerVelocity, e.ball.velocity);
      assert TestPoint(e, point, capsuleRadius, sqrt).playerVelocity == Exchanged(n, e.playerVelocity, e.ball.velocity);
      assert TestPoint(e, point, capsuleRadius, sqrt).ball.velocity == Exchanged(n, e.ball.velocity, e.playerVelocity);
    }
  }

  /**
   * Over all three points the player's and the ball's velocities keep their
   * sum and the ball keeps its radius; the capsule itself is only read.
   */
  lemma {:induction false} TestedConserves(e: Exchange, c: Capsule, k: nat, sqrt: real -> real)
    requires k <= 3
    ensures Add(Tested(e, c, k, sqrt).playerVelocity, Tested(e, c, k, sqrt).ball.velocity) ==
            Add(e.playerVelocity, e.ball.velocity)
    ensures Tested(e, c, k, sqrt).ball.radius == e.ball.radius
  {
    if k > 0 {
      TestedConserves(e, c, k - 1, sqrt);
      var p := Tested(e, c, k - 1, sqrt);
      TestPointLaws(p, PointAt(p, c, k - 1), c.radius, sqrt);
    }
  }

  /**
   * Because the midpoint lives in the shared vector1, the third tested
   * point is the capsule's midpoint only if neither endpoint touched the
   * ball; otherwise it is the normal computed for the last endpoint that did.
   */
  lemma ThirdPoint(b: Ball, playerVelocity: Vec, scratch: Scratch, c: Capsule, sqrt: real -> real)
    ensures var e0 := Exchange(b, playerVelocity, scratch.(v1 := Midpoint(c)));
            var e1 := Tested(e0, c, 1, sqrt);
            var e2 := Tested(e0, c, 2, sqrt);
            && (!Touches(c.start, b, c.radius) && !Touches(c.end, b, c.radius) ==>
                  PointAt(e2, c, 2) == Midpoint(c))
            && (Touches(c.end, e1.ball, c.radius) ==>
                  PointAt(e2, c, 2) == Normalize(Sub(c.end, e1.ball.center), sqrt))
            && (Touches(c.start, b, c.radius) && !Touches(c.end, e1.ball, c.radius) ==>
                  PointAt(e2, c, 2) == Normalize(Sub(c.start, b.center), sqrt))
  {
    var e0 := Exchange(b, playerVelocity, scratch.(v1 := Midpoint(c)));
    var e1 := Tested(e0, c, 1, sqrt);
    assert Tested(e0, c, 0, sqrt) == e0;
    assert e1 == TestPoint(e0, c.start, c.radius, sqrt);
    assert Tested(e0, c, 2, sqrt) == TestPoint(e1, c.end, c.radius, sqrt);
    TestPointLaws(e0, c.start, c.radius, sqrt);
    TestPointLaws(e1, c.end, c.radius, sqrt);
  }

  /**
   * The games test balls against their `playerCollider`, which stays in
   * the spawn pose: a ball of radius at most 1 that is 2 or more units
   * along x from the spawn point never touches it, wherever the player
   * actually is, and keeps its state and the player's velocity.
   */
  lemma SpawnCapsuleMissesFarBalls(b: Ball, playerVelocity: Vec, scratch: Scratch, sqrt: real -> real)
    requires 0.0 <= b.radius <= 1.0 && b.center.x >= 2.0
    ensures var e := PlayerSphereCollision(b, playerVelocity, scratch, SpawnCapsule, sqrt);
            e.ball == b && e.playerVelocity == playerVelocity
  {
    AxisCapsuleMissesFarBalls(SpawnCapsule, b, playerVelocity, scratch, sqrt);
  }

  /** The same for any capsule of radius at most 0.35 lying in the plane x = 0. */
  lemma AxisCapsuleMissesFarBalls(c: Capsule, b: Ball, playerVelocity: Vec, scratch: Scratch, sqrt: real -> real)
    requires c.start.x == 0.0 && c.end.x == 0.0 && 0.0 <= c.radius <= 0.35
    requires 0.0 <= b.radius <= 1.0 && b.center.x >= 2.0
    ensures var e := PlayerSphereCollision(b, playerVelocity, scratch, c, sqrt);
            e.ball == b && e.playerVelocity == playerVelocity
  {
    FarFromAxis(c.start, b, c.radius);
    FarFromAxis(c.end, b, c.radius);
    FarFromAxis(Midpoint(c), b, c.radius);
    Untouched(Exchange(b, playerVelocity, scratch.(v1 := Midpoint(c))), c, sqrt);
  }

  /** If none of the three points touches the ball, nothing changes. */
  lemma Untouched(e: Exchange, c: Capsule, sqrt: real -> real)
    requires !Touches(c.start, e.ball, c.radius) && !Touches(c.end, e.ball, c.radius)
    requires !Touches(e.scratch.v1, e.ball, c.radius)
    ensures Tested(e, c, 3, sqrt) == e
  {
    assert Tested(e, c, 0, sqrt) == e;
    assert Tested(e, c, 1, sqrt) == e;
    assert Tested(e, c, 2, sqrt) == e;
  }

  /** A point on the plane x = 0 does not touch a ball of radius at most 1 centred at x >= 2. */
  lemma FarFromAxis(point: Vec, b: Ball, capsuleRadius: real)
    requires point.x == 0.0 && 0.0 <= capsuleRadius <= 0.35
    requires 0.0 <= b.radius <= 1.0 && b.center.x >= 2.0
    ensures !Touches(point, b, capsuleRadius)
  {
    var d := Sub(point, b.center);
    assert d.x * d.x >= 4.0 by {
      assert -d.x >= 2.0;
      assert d.x * d.x == (-d.x) * (-d.x) >= 2.0 * (-d.x);
    }
    assert d.y * d.y >= 0.0 && d.z * d.z >= 0.0;
    var r := capsuleRadius + b.radius;
    assert r * r <= 1.35 * 1.35 by {
      assert 0.0 <= r <= 1.35;
      assert r * r <= 1.35 * r;
    }
  }

  // ---------------------------------------------------------------------
  // Ball-ball exchange (`spheresCollisions`)

  /** Two balls after one pair test, and the scratch vectors. */
  datatype Pair = Pair(first: Ball, second: Ball, scratch: Scratch)

  function Overlapping(b1: Ball, b2: Ball): bool {
    var r := b1.radius + b2.radius;
    DistanceSquared(b1.center, b2.center) < r * r
  }

  /**
   * One pair: if the balls overlap, exchange the velocity components along
   * the normal from the second to the first, and move the two centres
   * apart by half the overlap each.
   */
  function PairExchange(b1: Ball, b2: Ball, scratch: Scratch, sqrt: real -> real): Pair {
    if Overlapping(b1, b2) then Separated(b1, b2, sqrt) else Pair(b1, b2, scratch)
  }

  /** The exchange and separation of an overlapping pair. */
  function Separated(b1: Ball, b2: Ball, sqrt: real -> real): Pair {
    var r := b1.radius + b2.radius;
    var n := Normalize(Sub(b1.center, b2.center), sqrt);
    var v1 := Along(n, b1.velocity);
    var v2 := Along(n, b2.velocity);
    var d := (r - sqrt(DistanceSquared(b1.center, b2.center))) / 2.0;
    Pair(Ball(AddScaled(b1.center, n, d), b1.radius, Sub(Add(b1.velocity, v2), v1)),
         Ball(AddScaled(b2.center, n, -d), b2.radius, Sub(Add(b2.velocity, v1), v2)),
         Scratch(n, v1, v2))
  }

  /**
   * An overlapping pair keeps the sum of its velocities and the sum of its
   * centres (and both radii); along a unit normal the two normal velocity
   * components are swapped. A pair that does not overlap is untouched.
   */
  lemma PairExchangeLaws(b1: Ball, b2: Ball, scratch: Scratch, sqrt: real -> real)
    ensures var p := PairExchange(b1, b2, scratch, sqrt);
            && Add(p.first.velocity, p.second.velocity) == Add(b1.velocity, b2.velocity)
            && Add(p.first.center, p.second.center) == Add(b1.center, b2.center)
            && p.first.radius == b1.radius && p.second.radius == b2.radius
            && (!Overlapping(b1, b2) ==> p == Pair(b1, b2, scratch))
    ensures var n := Normalize(Sub(b1.center, b2.center), sqrt);
            var p := PairExchange(b1, b2, scratch, sqrt);
            Overlapping(b1, b2) && Dot(n, n) == 1.0 ==>
              Dot(n, p.first.velocity) == Dot(n, b2.velocity) && Dot(n, p.second.velocity) == Dot(n, b1.velocity)
  {
    if Overlapping(b1, b2) {
      var n := Normalize(Sub(b1.center, b2.center), sqrt);
      ExchangeConservesSum(n, b1.velocity, b2.velocity);
      if Dot(n, n) == 1.0 {
        ExchangeSwapsNormal(n, b1.velocity, b2.velocity);
      }
      assert PairExchange(b1, b2, scratch, sqrt).first.velocity == Exchanged(n, b1.velocity, b2.velocity);
      assert PairExchange(b1, b2, scratch, sqrt).second.velocity == Exchanged(n, b2.velocity, b1.velocity);
    }
  }

  /** The balls and the scratch vectors during the pairwise sweep. */
  datatype Pool = Pool(balls: seq<Ball>, scratch: Scratch)

  /** Test the pair (i, j) of the pool. */
  function PairStep(p: Pool, i: nat, j: nat, sqrt: real -> real): (r: Pool)
    requires i < j < |p.balls|
    ensures |r.balls| == |p.balls|
  {
    var e := PairExchange(p.balls[i], p.balls[j], p.scratch, sqrt);
    Pool(p.balls[i := e.first][j := e.second], e.scratch)
  }

  /** The pool after the pairs (i, i+1), ..., (i, j-1), in that order. */
  function Row(p: Pool, i: nat, j: nat, sqrt: real -> real): (r: Pool)
    requires i < j <= |p.balls|
    ensures |r.balls| == |p.balls|
    decreases j
  {
    if j == i + 1 then p else PairStep(Row(p, i, j - 1, sqrt), i, j - 1, sqrt)
  }

  /** The pool after every pair whose first index is below `i`, in lexicographic (i, j) order. */
  function Rows(p: Pool, i: nat, sqrt: real -> real): (r: Pool)
    requires i <= |p.balls|
    ensures |r.balls| == |p.balls|
  {
    if i == 0 then p else Row(Rows(p, i - 1, sqrt), i - 1, |p.balls|, sqrt)
  }

  /** `spheresCollisions`: every pair i < j once, in lexicographic order. */
  function SpheresCollisions(p: Pool, sqrt: real -> real): (r: Pool)
    ensures |r.balls| == |p.balls|
  {
    Rows(p, |p.balls|, sqrt)
  }

  function Sum(vs: seq<Vec>): Vec {
    if |vs| == 0 then Zero else Add(vs[0], Sum(vs[1..]))
  }

  function Velocities(bs: seq<Ball>): (vs: seq<Vec>)
    ensures |vs| == |bs|
  {
    seq(|bs|, k requires 0 <= k < |bs| => bs[k].velocity)
  }

  function Centers(bs: seq<Ball>): (cs: seq<Vec>)
    ensures |cs| == |bs|
  {
    seq(|bs|, k requires 0 <= k < |bs| => bs[k].center)
  }

  /** Replacing one entry changes the sum by the difference. */
  lemma {:induction false} SumUpdate(vs: seq<Vec>, k: nat, v: Vec)
    requires k < |vs|
    ensures Sum(vs[k := v]) == Add(Sub(Sum(vs), vs[k]), v)
  {
    if k > 0 {
      assert vs[k := v][1..] == vs[1..][k - 1 := v];
      SumUpdate(vs[1..], k - 1, v);
    } else {
      assert vs[k := v][1..] == vs[1..];
    }
  }

  /** Replacing two entries by values with the same sum keeps the total. */
  lemma SumSwap(vs: seq<Vec>, i: nat, j: nat, a: Vec, b: Vec)
    requires i < j < |vs|
    requires Add(a, b) == Add(vs[i], vs[j])
    ensures Sum(vs[i := a][j := b]) == Sum(vs)
  {
    SumUpdate(vs, i, a);
    SumUpdate(vs[i := a], j, b);
  }

  /** One pair test keeps the pool's total velocity and the sum of its centres. */
  lemma PairStepConserves(p: Pool, i: nat, j: nat, sqrt: real -> real)
    requires i < j < |p.balls|
    ensures Sum(Velocities(PairStep(p, i, j, sqrt).balls)) == Sum(Velocities(p.balls))
    ensures Sum(Centers(PairStep(p, i, j, sqrt).balls)) == Sum(Centers(p.balls))
  {
    var e := PairExchange(p.balls[i], p.balls[j], p.scratch, sqrt);
    PairExchangeLaws(p.balls[i], p.balls[j], p.scratch, sqrt);
    var bs := p.balls[i := e.first][j := e.second];
    assert Velocities(bs) == Velocities(p.balls)[i := e.first.velocity][j := e.second.velocity];
    assert Centers(bs) == Centers(p.balls)[i := e.first.center][j := e.second.center];
    SumSwap(Velocities(p.balls), i, j, e.first.velocity, e.second.velocity);
    SumSwap(Centers(p.balls), i, j, e.first.center, e.second.center);
  }

  lemma {:induction false} RowConserves(p: Pool, i: nat, j: nat, sqrt: real -> real)
    requires i < j <= |p.balls|
    ensures Sum(Velocities(Row(p, i, j, sqrt).balls)) == Sum(Velocities(p.balls))
    ensures Sum(Centers(Row(p, i, j, sqrt).balls)) == Sum(Centers(p.balls))
    decreases j
  {
    if j != i + 1 {
      var q := Row(p, i, j - 1, sqrt);
      RowConserves(p, i, j - 1, sqrt);
      PairStepConserves(q, i, j - 1, sqrt);
      assert Row(p, i, j, sqrt) == PairStep(q, i, j - 1, sqrt);
    }
  }

  /**
   * The whole pairwise sweep keeps the pool's total velocity (momentum of
   * equal masses) and the sum of all centres (centre of mass).
   */
  lemma {:induction false} SpheresCollisionsConserve(p: Pool, sqrt: real -> real)
    ensures Sum(Velocities(SpheresCollisions(p, sqrt).balls)) == Sum(Velocities(p.balls))
    ensures Sum(Centers(SpheresCollisions(p, sqrt).balls)) == Sum(Centers(p.balls))
  {
    RowsConserve(p, |p.balls|, sqrt);
  }

  lemma {:induction false} RowsConserve(p: Pool, i: nat, sqrt: real -> real)
    requires i <= |p.balls|
    ensures Sum(Velocities(Rows(p, i, sqrt).balls)) == Sum(Velocities(p.balls))
    ensures Sum(Centers(Rows(p, i, sqrt).balls)) == Sum(Centers(p.balls))
  {
    if i > 0 {
      RowsConserve(p, i - 1, sqrt);
      RowConserves(Rows(p, i - 1, sqrt), i - 1, |p.balls|, sqrt);
    }
  }

  /** A pair test changes at most the two balls it looks at. */
  lemma PairStepFrame(p: Pool, i: nat, j: nat, sqrt: real -> real, k: nat)
    requires i < j < |p.balls| && k < |p.balls| && k != i && k != j
    ensures PairStep(p, i, j, sqrt).balls[k] == p.balls[k]
  {
  }

  // ---------------------------------------------------------------------
  // The whole `updateSpheres`

  /** The pool's balls, the player's velocity and the scratch vectors during `updateSpheres`. */
  datatype Pass = Pass(balls: seq<Ball>, playerVelocity: Vec, scratch: Scratch)

  /** One iteration of the `forEach`: integrate ball k, then exchange with the player. */
  function BallStep(p: Pass, k: nat, dt: real, gravity: real, c: Capsule, world: Octree,
                    math: MathLib): (r: Pass)
    requires k < |p.balls|
    ensures |r.balls| == |p.balls|
  {
    var b := Integrate(p.balls[k], dt, gravity, world, math);
    var e := PlayerSphereCollision(b, p.playerVelocity, p.scratch, c, math.sqrt);
    Pass(p.balls[k := e.ball], e.playerVelocity, e.scratch)
  }

  /** The state after the first `k` iterations of the `forEach`. */
  function Integrated(p: Pass, k: nat, dt: real, gravity: real, c: Capsule, world: Octree,
                      math: MathLib): (r: Pass)
    requires k <= |p.balls|
    ensures |r.balls| == |p.balls|
  {
    if k == 0 then p else BallStep(Integrated(p, k - 1, dt, gravity, c, world, math), k - 1, dt, gravity, c, world, math)
  }

  /** `updateSpheres`: integrate every ball in slot order, then the pairwise sweep. */
  function Updated(p: Pass, dt: real, gravity: real, c: Capsule, world: Octree, math: MathLib): (r: Pass)
    ensures |r.balls| == |p.balls|
  {
    var q := Integrated(p, |p.balls|, dt, gravity, c, world, math);
    var s := SpheresCollisions(Pool(q.balls, q.scratch), math.sqrt);
    Pass(s.balls, q.playerVelocity, s.scratch)
  }

  /**
   * During the `forEach`, every ball-player exchange conserves the sum of
   * the player's velocity and all the balls' velocities, so the player's
   * velocity changes exactly by what the integration steps removed from
   * the balls: player + balls after = player before + integrated balls.
   */
  lemma BallStepMomentum(p: Pass, k: nat, dt: real, gravity: real, c: Capsule, world: Octree,
                         math: MathLib)
    requires k < |p.balls|
    ensures var r := BallStep(p, k, dt, gravity, c, world, math);
            var b := Integrate(p.balls[k], dt, gravity, world, math);
            Add(r.playerVelocity, Sum(Velocities(r.balls))) ==
            Add(p.playerVelocity, Sum(Velocities(p.balls[k := b])))
  {
    var b := Integrate(p.balls[k], dt, gravity, world, math);
    var e0 := Exchange(b, p.playerVelocity, p.scratch.(v1 := Midpoint(c)));
    TestedConserves(e0, c, 3, math.sqrt);
    var e := PlayerSphereCollision(b, p.playerVelocity, p.scratch, c, math.sqrt);
    var r := BallStep(p, k, dt, gravity, c, world, math);
    assert Velocities(r.balls) == Velocities(p.balls[k := b])[k := e.ball.velocity];
    SumUpdate(Velocities(p.balls[k := b]), k, e.ball.velocity);
  }
}
