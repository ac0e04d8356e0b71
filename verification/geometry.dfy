/**
 * Vectors in the sphere's 3D space and the two rotations applied to every
 * particle each frame (script.js:136-162). The cosine and sine of an angle are
 * passed in as plain numbers; nothing here computes a transcendental function.
 */
module Geometry {

  datatype Vec3 = Vec3(x: real, y: real, z: real)

  /** Squared distance from the origin. */
  function NormSq(v: Vec3): real
  {
    v.x * v.x + v.y * v.y + v.z * v.z
  }

  /** Squared Euclidean distance; the source takes its square root, which keeps order. */
  function DistSq(a: Vec3, b: Vec3): (d: real)
    ensures d >= 0.0
    ensures a == b ==> d == 0.0
  {
    var dx := a.x - b.x;
    var dy := a.y - b.y;
    var dz := a.z - b.z;
    dx * dx + dy * dy + dz * dz
  }

  /** Rotation about the vertical (y) axis, given the cosine c and sine s of the yaw angle. */
  function Yaw(v: Vec3, c: real, s: real): Vec3
  {
    Vec3(v.x * c - v.z * s, v.y, v.z * c + v.x * s)
  }

  /** Rotation about the horizontal (x) axis, given the cosine c and sine s of the pitch angle. */
  function Pitch(v: Vec3, c: real, s: real): Vec3
  {
    Vec3(v.x, v.y * c - v.z * s, v.z * c + v.y * s)
  }

  /** Yaw first, then pitch: the fixed order of rotateParticles. */
  function RotateYX(v: Vec3, cy: real, sy: real, cx: real, sx: real): Vec3
  {
    Pitch(Yaw(v, cy, sy), cx, sx)
  }

  ghost predicate UnitPair(c: real, s: real)
  {
    c * c + s * s == 1.0
  }

  /** (a*c - b*s)^2 + (b*c + a*s)^2 == (a^2 + b^2)(c^2 + s^2): a plane rotation keeps length. */
  lemma PlaneRotationKeepsLength(a: real, b: real, c: real, s: real)
    requires UnitPair(c, s)
    ensures (a * c - b * s) * (a * c - b * s) + (b * c + a * s) * (b * c + a * s) == a * a + b * b
  {
    calc {
      (a * c - b * s) * (a * c - b * s) + (b * c + a * s) * (b * c + a * s);
      a * a * (c * c) - 2.0 * a * b * c * s + b * b * (s * s) + b * b * (c * c) + 2.0 * a * b * c * s + a * a * (s * s);
      a * a * (c * c + s * s) + b * b * (c * c + s * s);
      a * a + b * b;
    }
  }

  lemma YawKeepsNorm(v: Vec3, c: real, s: real)
    requires UnitPair(c, s)
    ensures NormSq(Yaw(v, c, s)) == NormSq(v)
  {
    PlaneRotationKeepsLength(v.x, v.z, c, s);
  }

  lemma PitchKeepsNorm(v: Vec3, c: real, s: real)
    requires UnitPair(c, s)
    ensures NormSq(Pitch(v, c, s)) == NormSq(v)
  {
    PlaneRotationKeepsLength(v.y, v.z, c, s);
  }

  /** Rotating a point never changes its distance from the sphere's centre. */
  lemma RotationKeepsNorm(v: Vec3, cy: real, sy: real, cx: real, sx: real)
    requires UnitPair(cy, sy) && UnitPair(cx, sx)
    ensures NormSq(RotateYX(v, cy, sy, cx, sx)) == NormSq(v)
  {
    YawKeepsNorm(v, cy, sy);
    PitchKeepsNorm(Yaw(v, cy, sy), cx, sx);
  }

  /** The two rotations do not commute, so the order yaw-then-pitch is observable. */
  lemma RotationOrderMatters()
    ensures RotateYX(Vec3(1.0, 0.0, 0.0), 0.0, 1.0, 0.0, 1.0)
         != Yaw(Pitch(Vec3(1.0, 0.0, 0.0), 0.0, 1.0), 0.0, 1.0)
  {
  }
}
