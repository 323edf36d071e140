/**
 * The collaborators the demos' physics code talks to: the capsule and
 * sphere primitives, the octree's intersection queries, the host's maths
 * functions and the camera. Only what the core reads or writes is kept.
 */
module Scene {
  import opened Vectors

  datatype Option<T> = None | Some(value: T)

  /** A swept sphere along the segment from `start` to `end`. */
  datatype Capsule = Capsule(start: Vec, end: Vec, radius: real)

  /** `capsule.translate(v)`: both endpoints move by `v`, the radius stays. */
  function Translate(c: Capsule, v: Vec): (r: Capsule)
    ensures r.radius == c.radius
    ensures Sub(r.end, r.start) == Sub(c.end, c.start)
  {
    Capsule(Add(c.start, v), Add(c.end, v), c.radius)
  }

  /** The pose every demo spawns and respawns its capsule in. */
  const SpawnCapsule := Capsule(Vec(0.0, 0.35, 0.0), Vec(0.0, 1.0, 0.0), 0.35)

  /** A contact reported by the octree: unit normal towards the moving body and depth. */
  datatype Contact = Contact(normal: Vec, depth: real)

  /**
   * The world octree, built once from the loaded mesh. Its two queries
   * are opaque here: capsuleIntersect(capsule) and sphereIntersect(center, radius).
   */
  datatype Octree = Octree(
    capsuleIntersect: Capsule -> Option<Contact>,
    sphereIntersect: (Vec, real) -> Option<Contact>)

  /** `Math.sqrt` and `Math.exp` of the host. */
  datatype MathLib = MathLib(sqrt: real -> real, exp: real -> real)

  /** `Math.min` */
  function Min(a: real, b: real): (r: real)
    ensures r <= a && r <= b
    ensures r == a || r == b
  {
    if a <= b then a else b
  }

  /** The largest frame step any tick loop uses. */
  const MaxStep := 0.05

  /**
   * The perspective camera: position and Euler rotation change in place.
   * `lookOf` is the library's map from rotation to world direction.
   */
  class Camera {
    var position: Vec
    var rotation: Vec
    const lookOf: Vec -> Vec

    constructor(lookOf: Vec -> Vec)
      ensures position == Zero && rotation == Zero && this.lookOf == lookOf
    {
      position := Zero;
      rotation := Zero;
      this.lookOf := lookOf;
    }

    /** `camera.getWorldDirection(target)` */
    function WorldDirection(): Vec
      reads this
    {
      lookOf(rotation)
    }

    /**
     * The pointer-lock mouse handler: yaw and pitch turn by
     * movementX / 500 and movementY / 500, only while the pointer is locked.
     */
    method OnMouseMove(movementX: real, movementY: real, locked: bool)
      modifies this
      ensures position == old(position)
      ensures locked ==> rotation == Vec(old(rotation).x - movementY / 500.0,
                                         old(rotation).y - movementX / 500.0,
                                         old(rotation).z)
      ensures !locked ==> rotation == old(rotation)
    {
      if locked {
        rotation := rotation.(y := rotation.y - movementX / 500.0);
        rotation := rotation.(x := rotation.x - movementY / 500.0);
      }
    }
  }
}
