/**
 * Minecraft's Vec3 over the reals, the horizontal (x, z) projection every rope
 * computation uses, and the square root the host supplies.
 */
module Geometry {

  datatype Vec3 = Vec3(x: real, y: real, z: real)

  const ZERO := Vec3(0.0, 0.0, 0.0)

  function Add(a: Vec3, b: Vec3): Vec3 { Vec3(a.x + b.x, a.y + b.y, a.z + b.z) }

  function Sub(a: Vec3, b: Vec3): Vec3 { Vec3(a.x - b.x, a.y - b.y, a.z - b.z) }

  function Scale(a: Vec3, k: real): Vec3 { Vec3(a.x * k, a.y * k, a.z * k) }

  function Dot(a: Vec3, b: Vec3): real { a.x * b.x + a.y * b.y + a.z * b.z }

  /** `new Vec3(v.x, 0.0, v.z)`: the vertical axis is excluded from all rope math. */
  function Horizontal(v: Vec3): Vec3 { Vec3(v.x, 0.0, v.z) }

  /** Squared horizontal length. */
  function HorizSq(v: Vec3): real { v.x * v.x + v.z * v.z }

  /** `Vec3.length()` of a horizontal vector, through the host's square root. */
  function HorizLength(sqrt: real -> real, v: Vec3): real { sqrt(HorizSq(v)) }

  /** Horizontal distance between two points. */
  function HorizDist(sqrt: real -> real, p: Vec3, q: Vec3): real { HorizLength(sqrt, Sub(p, q)) }

  /**
   * What the model assumes of `Math.sqrt` where a proof needs it: a
   * non-negative root of every non-negative argument.
   */
  ghost predicate IsSqrt(sqrt: real -> real)
  {
    forall x {:trigger sqrt(x)} :: 0.0 <= x ==> 0.0 <= sqrt(x) && sqrt(x) * sqrt(x) == x
  }

  /** Scaling a horizontal offset to unit length and then by `len` gives length `len`. */
  lemma ScaledLength(dx: real, dz: real, dist: real, len: real)
    requires dist > 0.0 && dist * dist == dx * dx + dz * dz
    ensures (dx * (1.0 / dist) * len) * (dx * (1.0 / dist) * len)
          + (dz * (1.0 / dist) * len) * (dz * (1.0 / dist) * len) == len * len
  {
    var k := 1.0 / dist;
    assert k * dist == 1.0;
    assert (dx * k * len) * (dx * k * len) == (k * k * len * len) * (dx * dx);
    assert (dz * k * len) * (dz * k * len) == (k * k * len * len) * (dz * dz);
    assert (k * k * len * len) * (dx * dx) + (k * k * len * len) * (dz * dz) == (k * k * len * len) * (dx * dx + dz * dz);
    assert (k * k * len * len) * (dist * dist) == (k * dist) * (k * dist) * (len * len);
  }

  lemma MulPos(x: real, y: real)
    requires 0.0 < x && 0.0 < y
    ensures 0.0 < x * y
  {
  }

  /** Squaring is strictly increasing on the non-negative reals. */
  lemma SquareMonotone(a: real, b: real)
    requires 0.0 <= a < b
    ensures a * a < b * b
  {
    assert (b - a) * (b + a) == b * b - a * a;
    MulPos(b - a, b + a);
  }

  /**
   * The offset (dx, dz) scaled to unit length and then by `len >= 0` lies on
   * the same line as (dx, dz), on the same side, at length `len`.
   */
  lemma ScaledOffset(dx: real, dz: real, dist: real, len: real)
    requires dist > 0.0 && dist * dist == dx * dx + dz * dz && len >= 0.0
    ensures var fx := dx * (1.0 / dist) * len;
            var fz := dz * (1.0 / dist) * len;
            && fx * fx + fz * fz == len * len
            && fx * dz == fz * dx
            && fx * dx + fz * dz >= 0.0
            && (len > 0.0 ==> fx * dx + fz * dz > 0.0)
  {
    ScaledLength(dx, dz, dist, len);
    var k := 1.0 / dist * len;
    var fx := dx * (1.0 / dist) * len;
    var fz := dz * (1.0 / dist) * len;
    assert fx == dx * k && fz == dz * k;
    assert fx * dz == fz * dx;
    assert fx * dx + fz * dz == k * (dist * dist);
    MulPos(dist, dist);
    if len > 0.0 {
      MulPos(1.0 / dist, len);
      MulPos(k, dist * dist);
    }
  }

  /** The square root of a square is the non-negative base. */
  lemma SqrtOfSquare(sqrt: real -> real, a: real)
    requires IsSqrt(sqrt) && 0.0 <= a
    ensures sqrt(a * a) == a
  {
    var s := sqrt(a * a);
    assert 0.0 <= s && s * s == a * a;
    if s < a {
      SquareMonotone(s, a);
    } else if a < s {
      SquareMonotone(a, s);
    }
  }

  /** A real extended with the +infinity that the source uses as "no candidate yet". */
  datatype Ext = Fin(r: real) | Inf {
    predicate Less(other: Ext)
    {
      match (this, other)
      case (Fin(a), Fin(b)) => a < b
      case (Fin(_), Inf) => true
      case (Inf, _) => false
    }

    /** Math.min on the extended reals. */
    function Min(other: Ext): (m: Ext)
      ensures m == this || m == other
      ensures !this.Less(m) && !other.Less(m)
    {
      if other.Less(this) then other else this
    }
  }
}
