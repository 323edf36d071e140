/**
 * Three-component vectors over the reals, with the operations of the
 * scene-graph library's Vector3 that the character controller and the
 * ball pool use. Floating-point rounding is not modelled.
 */
module Vectors {

  datatype Vec = Vec(x: real, y: real, z: real)

  const Zero := Vec(0.0, 0.0, 0.0)

  /** The camera's default up direction. */
  const Up := Vec(0.0, 1.0, 0.0)

  function Add(a: Vec, b: Vec): Vec {
    Vec(a.x + b.x, a.y + b.y, a.z + b.z)
  }

  function Sub(a: Vec, b: Vec): Vec {
    Vec(a.x - b.x, a.y - b.y, a.z - b.z)
  }

  function Scale(a: Vec, s: real): Vec {
    Vec(a.x * s, a.y * s, a.z * s)
  }

  /** `a.addScaledVector(b, s)` */
  function AddScaled(a: Vec, b: Vec, s: real): Vec {
    Vec(a.x + b.x * s, a.y + b.y * s, a.z + b.z * s)
  }

  function Dot(a: Vec, b: Vec): real {
    a.x * b.x + a.y * b.y + a.z * b.z
  }

  /** `a.cross(b)`, right-handed. */
  function Cross(a: Vec, b: Vec): Vec {
    Vec(a.y * b.z - a.z * b.y, a.z * b.x - a.x * b.z, a.x * b.y - a.y * b.x)
  }

  /** `a.distanceToSquared(b)` */
  function DistanceSquared(a: Vec, b: Vec): real {
    var d := Sub(a, b);
    Dot(d, d)
  }

  /**
   * `a.normalize()`: divide by the length, or by 1 when the length is 0.
   * The square root is the host's and is passed in.
   */
  function Normalize(a: Vec, sqrt: real -> real): Vec {
    var len := sqrt(Dot(a, a));
    Scale(a, 1.0 / (if len == 0.0 then 1.0 else len))
  }

  /** The component of `v` along `n`, as a vector. */
  function Along(n: Vec, v: Vec): Vec {
    Scale(n, Dot(n, v))
  }

  /**
   * When the host's square root is exact at |a|^2 and a is not the zero
   * vector, normalising gives a unit vector.
   */
  lemma NormalizeIsUnit(a: Vec, sqrt: real -> real)
    requires sqrt(Dot(a, a)) > 0.0
    requires sqrt(Dot(a, a)) * sqrt(Dot(a, a)) == Dot(a, a)
    ensures Dot(Normalize(a, sqrt), Normalize(a, sqrt)) == 1.0
  {
    var len := sqrt(Dot(a, a));
    var k := 1.0 / len;
    var n := Normalize(a, sqrt);
    assert n == Scale(a, k);
    assert Dot(n, n) == k * k * Dot(a, a);
    assert k * len == 1.0;
    calc {
      k * k * Dot(a, a);
      k * k * (len * len);
      (k * len) * (k * len);
      1.0;
    }
  }

  lemma DotAdd(n: Vec, a: Vec, b: Vec)
    ensures Dot(n, Add(a, b)) == Dot(n, a) + Dot(n, b)
  {
  }

  lemma DotSub(n: Vec, a: Vec, b: Vec)
    ensures Dot(n, Sub(a, b)) == Dot(n, a) - Dot(n, b)
  {
  }

  lemma DotScale(n: Vec, a: Vec, s: real)
    ensures Dot(n, Scale(a, s)) == s * Dot(n, a)
  {
  }

  lemma DotAddScaled(n: Vec, a: Vec, b: Vec, s: real)
    ensures Dot(n, AddScaled(a, b, s)) == Dot(n, a) + s * Dot(n, b)
  {
  }

  /** Adding p n and taking away q n is one shift by (p - q) n. */
  lemma ShiftBy(a: Vec, n: Vec, p: real, q: real)
    ensures Sub(Add(a, Scale(n, p)), Scale(n, q)) == AddScaled(a, n, p - q)
  {
  }

  /** Shifting by (p - q) n and taking away p n leaves a - q n. */
  lemma ShiftBack(a: Vec, n: Vec, p: real, q: real)
    ensures Sub(AddScaled(a, n, p - q), Scale(n, p)) == Sub(a, Scale(n, q))
  {
  }
}
