/**
 * The ball pool of the shooter demos (`class Spheres`): a fixed array of
 * balls, the ring index of the next ball to throw and three scratch vectors
 * shared by both collision passes. Every method updates the array and the
 * fields in place and is proved to leave exactly the state the pure
 * functions of module Projectiles describe.
 *
 * What the pool reads from its game (the player's capsule, velocity and
 * view direction, the octree, gravity, the clock) is passed in; the
 * player's velocity, which the pool also writes, is passed in and returned.
 */
module SpherePool {
  import opened Vectors
  import opened Scene
  import opened Projectiles

  class Spheres {
    const list: array<Ball>
    var sphereIdx: nat
    var vector1: Vec
    var vector2: Vec
    var vector3: Vec

    predicate Valid()
      reads this
    {
      list.Length == NUM_SPHERE && sphereIdx < list.Length
    }

    function Scratch(): Scratch
      reads this
    {
      Projectiles.Scratch(vector1, vector2, vector3)
    }

    /** `init`: NUM_SPHERE balls of radius SPHERE_RADIUS, parked below the world, at rest. */
    constructor()
      ensures Valid() && fresh(list)
      ensures forall k :: 0 <= k < list.Length ==> list[k] == Parked
      ensures sphereIdx == 0 && Scratch() == Projectiles.Scratch(Zero, Zero, Zero)
    {
      var a := new Ball[NUM_SPHERE];
      for i := 0 to NUM_SPHERE
        invariant forall k :: 0 <= k < i ==> a[k] == Parked
      {
        a[i] := Parked;
      }
      list := a;
      sphereIdx := 0;
      vector1, vector2, vector3 := Zero, Zero, Zero;
    }

    /**
     * `throwBall`: the ball at the ring index is placed ahead of the
     * capsule's end and launched; the ring index advances. Nothing else
     * in the pool changes.
     */
    method ThrowBall(direction: Vec, player: Capsule, playerVelocity: Vec, impulse: real)
      requires Valid()
      modifies this, list
      ensures Valid()
      ensures list[..] == old(list[..])[old(sphereIdx) :=
                Thrown(old(list[sphereIdx]), player.end, player.radius, direction, playerVelocity, impulse)]
      ensures sphereIdx == NextIndex(old(sphereIdx), list.Length)
      ensures Scratch() == old(Scratch())
    {
      var sphere := list[sphereIdx];
      var center := AddScaled(player.end, direction, player.radius * 1.5);
      var velocity := Scale(direction, impulse);
      velocity := AddScaled(velocity, playerVelocity, 2.0);
      list[sphereIdx] := Ball(center, sphere.radius, velocity);
      sphereIdx := (sphereIdx + 1) % list.Length;
    }

    /**
     * `playerSphereCollision` for ball k: the capsule is approximated by
     * spheres around its start, its end and the point held in vector1,
     * which starts as the midpoint and is overwritten by each hit's normal.
     */
    method PlayerSphereCollision(k: nat, player: Capsule, playerVelocity: Vec, sqrt: real -> real)
      returns (newVelocity: Vec)
      requires Valid() && k < list.Length
      modifies this, list
      ensures Valid() && sphereIdx == old(sphereIdx)
      ensures var e := Projectiles.PlayerSphereCollision(old(list[k]), playerVelocity, old(Scratch()), player, sqrt);
              && list[..] == old(list[..])[k := e.ball]
              && newVelocity == e.playerVelocity
              && Scratch() == e.scratch
    {
      ghost var e0 := Exchange(list[k], playerVelocity, old(Scratch()).(v1 := Midpoint(player)));
      vector1 := Scale(Add(player.start, player.end), 0.5);
      newVelocity := playerVelocity;
      var i := 0;
      while i < 3
        invariant 0 <= i <= 3
        invariant Valid() && sphereIdx == old(sphereIdx)
        invariant list[..] == old(list[..])[k := list[k]]
        invariant Exchange(list[k], newVelocity, Scratch()) == Tested(e0, player, i, sqrt)
      {
        var point := if i == 0 then player.start else if i == 1 then player.end else vector1;
        newVelocity := TestPointAt(k, point, player.radius, newVelocity, sqrt);
        i := i + 1;
      }
    }

    /** One iteration of the loop of `playerSphereCollision`: ball k against one point. */
    method TestPointAt(k: nat, point: Vec, radius: real, playerVelocity: Vec, sqrt: real -> real)
      returns (newVelocity: Vec)
      requires Valid() && k < list.Length
      modifies this, list
      ensures Valid() && sphereIdx == old(sphereIdx)
      ensures list[..] == old(list[..])[k := list[k]]
      ensures Exchange(list[k], newVelocity, Scratch()) ==
              TestPoint(Exchange(old(list[k]), playerVelocity, old(Scratch())), point, radius, sqrt)
    {
      newVelocity := playerVelocity;
      var sphere := list[k];
      ghost var e := Exchange(sphere, playerVelocity, Scratch());
      ghost var tested := TestPoint(e, point, radius, sqrt);
      var r := radius + sphere.radius;
      var r2 := r * r;
      var d2 := DistanceSquared(point, sphere.center);
      assert Touches(point, sphere, radius) <==> d2 < r2;
      if d2 < r2 {
        // normal, v1 and v2 live in vector1, vector2 and vector3
        var normal := Normalize(Sub(point, sphere.center), sqrt);
        var v1 := Along(normal, newVelocity);
        var v2 := Along(normal, sphere.velocity);
        newVelocity := Sub(Add(newVelocity, v2), v1);
        var d := (r - sqrt(d2)) / 2.0;
        var b := Ball(AddScaled(sphere.center, normal, -d), sphere.radius, Sub(Add(sphere.velocity, v1), v2));
        assert tested == Exchange(b, newVelocity, Projectiles.Scratch(normal, v1, v2));
        vector1, vector2, vector3 := normal, v1, v2;
        list[k] := b;
      } else {
        assert tested == e;
      }
    }

    /**
     * `spheresCollisions`: every pair i < j in lexicographic order, each
     * pair seeing the effects of the pairs before it.
     */
    method SpheresCollisions(sqrt: real -> real)
      requires Valid()
      modifies this, list
      ensures Valid() && sphereIdx == old(sphereIdx)
      ensures var p := Projectiles.SpheresCollisions(Pool(old(list[..]), old(Scratch())), sqrt);
              list[..] == p.balls && Scratch() == p.scratch
    {
      ghost var p0 := Pool(list[..], Scratch());
      var length := list.Length;
      var i := 0;
      while i < length
        invariant 0 <= i <= length
        invariant Valid() && sphereIdx == old(sphereIdx)
        invariant Pool(list[..], Scratch()) == Rows(p0, i, sqrt)
      {
        var j := i + 1;
        while j < length
          invariant i + 1 <= j <= length
          invariant Valid() && sphereIdx == old(sphereIdx)
          invariant Pool(list[..], Scratch()) == Row(Rows(p0, i, sqrt), i, j, sqrt)
        {
          PairTest(i, j, sqrt);
          j := j + 1;
        }
        i := i + 1;
      }
    }

    /** The body of the inner loop of `spheresCollisions` for the pair (i, j). */
    method PairTest(i: nat, j: nat, sqrt: real -> real)
      requires Valid() && i < j < list.Length
      modifies this, list
      ensures Valid() && sphereIdx == old(sphereIdx)
      ensures Pool(list[..], Scratch()) == PairStep(Pool(old(list[..]), old(Scratch())), i, j, sqrt)
    {
      var s1 := list[i];
      var s2 := list[j];
      ghost var e := PairExchange(s1, s2, Scratch(), sqrt);
      var d2 := DistanceSquared(s1.center, s2.center);
      var r := s1.radius + s2.radius;
      var r2 := r * r;
      assert Overlapping(s1, s2) <==> d2 < r2;
      if d2 < r2 {
        // normal, v1 and v2 live in vector1, vector2 and vector3
        var normal := Normalize(Sub(s1.center, s2.center), sqrt);
        var v1 := Along(normal, s1.velocity);
        var v2 := Along(normal, s2.velocity);
        var d := (r - sqrt(d2)) / 2.0;
        var b1 := Ball(AddScaled(s1.center, normal, d), s1.radius, Sub(Add(s1.velocity, v2), v1));
        var b2 := Ball(AddScaled(s2.center, normal, -d), s2.radius, Sub(Add(s2.velocity, v1), v2));
        assert e == Pair(b1, b2, Projectiles.Scratch(normal, v1, v2));
        vector1, vector2, vector3 := normal, v1, v2;
        list[i] := b1;
        list[j] := b2;
        assert list[..] == old(list[..])[i := b1][j := b2];
      } else {
        assert e == Pair(s1, s2, Scratch());
        assert list[..] == old(list[..])[i := s1][j := s2];
      }
    }

    /**
     * `updateSpheres`: each ball in slot order is advanced, answered by the
     * world or pulled by gravity, damped, and exchanged with the player;
     * then every pair of balls is tested. Returns the player's new velocity.
     */
    method UpdateSpheres(dt: real, gravity: real, player: Capsule, playerVelocity: Vec,
                         world: Octree, math: MathLib)
      returns (newVelocity: Vec)
      requires Valid()
      modifies this, list
      ensures Valid() && sphereIdx == old(sphereIdx)
      ensures var u := Updated(Pass(old(list[..]), playerVelocity, old(Scratch())), dt, gravity, player, world, math);
              && list[..] == u.balls
              && newVelocity == u.playerVelocity
              && Scratch() == u.scratch
    {
      ghost var p0 := Pass(list[..], playerVelocity, Scratch());
      newVelocity := playerVelocity;
      var k := 0;
      while k < list.Length
        invariant 0 <= k <= list.Length
        invariant Valid() && sphereIdx == old(sphereIdx)
        invariant Pass(list[..], newVelocity, Scratch()) == Integrated(p0, k, dt, gravity, player, world, math)
      {
        var sphere := list[k];
        var center := AddScaled(sphere.center, sphere.velocity, dt);
        var velocity := sphere.velocity;
        var result := world.sphereIntersect(center, sphere.radius);
        if result.Some? {
          var n := result.value.normal;
          velocity := AddScaled(velocity, n, -Dot(n, velocity) * 1.5);
          center := Add(center, Scale(n, result.value.depth));
        } else {
          velocity := velocity.(y := velocity.y - gravity * dt);
        }
        var damping := math.exp(-1.5 * dt) - 1.0;
        velocity := AddScaled(velocity, velocity, damping);
        list[k] := Ball(center, sphere.radius, velocity);
        newVelocity := PlayerSphereCollision(k, player, newVelocity, math.sqrt);
        k := k + 1;
      }
      SpheresCollisions(math.sqrt);
    }
  }
}
