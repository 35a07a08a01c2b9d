/** `UnityEngine.Vector3` and `Rect` over the reals, and the transcendental geometry the
    agents use, which the model leaves uninterpreted: it is supplied as function values. */
module Geometry {

  datatype Vec3 = Vec3(x: real, y: real, z: real)

  const Zero := Vec3(0.0, 0.0, 0.0)
  const Right := Vec3(1.0, 0.0, 0.0)
  const Up := Vec3(0.0, 1.0, 0.0)
  const Down := Vec3(0.0, -1.0, 0.0)

  function Add(a: Vec3, b: Vec3): Vec3 { Vec3(a.x + b.x, a.y + b.y, a.z + b.z) }
  function Sub(a: Vec3, b: Vec3): Vec3 { Vec3(a.x - b.x, a.y - b.y, a.z - b.z) }
  function Scale(a: Vec3, k: real): Vec3 { Vec3(a.x * k, a.y * k, a.z * k) }

  /** `Vector3.SqrMagnitude`. */
  function SqrMagnitude(a: Vec3): real { a.x * a.x + a.y * a.y + a.z * a.z }

  /** `Vector3.Distance(a, b) <= radius`, decided without a square root: the distance is
      non-negative, so it is at most `radius` iff `radius` is non-negative and the squared
      distance is at most `radius * radius`. */
  predicate WithinDistance(a: Vec3, b: Vec3, radius: real)
  {
    radius >= 0.0 && SqrMagnitude(Sub(a, b)) <= radius * radius
  }

  /** `UnityEngine.Rect(x, y, width, height)`. */
  datatype Rect = Rect(x: real, y: real, width: real, height: real)

  /** `Utils.CreateRandomPositionWithinRect` given its two samples (the `(float)` casts
      are not modelled). */
  function PositionWithinRect(rect: Rect, sampleX: real, sampleZ: real): Vec3
  {
    Vec3(sampleX * rect.width + rect.x, 0.0, sampleZ * rect.height + rect.y)
  }

  /** A position drawn within a rectangle lies on the ground within the rectangle's
      horizontal extent ... */
  lemma PositionWithinRectAcross(rect: Rect, sampleX: real, sampleZ: real)
    requires 0.0 <= sampleX < 1.0
    ensures PositionWithinRect(rect, sampleX, sampleZ).y == 0.0
    ensures rect.width >= 0.0 ==>
              rect.x <= PositionWithinRect(rect, sampleX, sampleZ).x <= rect.x + rect.width
  {
    ScaledSampleBounds(sampleX, rect.width);
    assert PositionWithinRect(rect, sampleX, sampleZ).x == sampleX * rect.width + rect.x;
  }

  /** ... and within its depth. */
  lemma PositionWithinRectAlong(rect: Rect, sampleX: real, sampleZ: real)
    requires 0.0 <= sampleZ < 1.0
    ensures rect.height >= 0.0 ==>
              rect.y <= PositionWithinRect(rect, sampleX, sampleZ).z <= rect.y + rect.height
  {
    ScaledSampleBounds(sampleZ, rect.height);
    assert PositionWithinRect(rect, sampleX, sampleZ).z == sampleZ * rect.height + rect.y;
  }

  /** A sample in [0, 1) scales a non-negative length to at most that length. */
  lemma ScaledSampleBounds(sample: real, length: real)
    requires 0.0 <= sample < 1.0
    ensures length >= 0.0 ==> 0.0 <= sample * length <= length
  {
    if length >= 0.0 {
      assert sample * length <= 1.0 * length;
    }
  }

  /** `Math.PI` as a decimal. */
  const Pi: real := 3.141592653589793

  /** The transcendental functions the agents use, treated as uninterpreted functions.
      `signedAngle(from, to, axis)` is `Vector3.SignedAngle`, in degrees;
      `rotate(angle, axis, v)` is `Quaternion.AngleAxis(angle, axis) * v`;
      `cos`, `sin` and `sqrt` are the `Math` functions. */
  datatype Trig = Trig(
    signedAngle: (Vec3, Vec3, Vec3) -> real,
    rotate: (real, Vec3, Vec3) -> Vec3,
    cos: real -> real,
    sin: real -> real,
    sqrt: real -> real)
  {
    /** The laws of `cos`, `sin` and `sqrt` that the geometry below relies on. */
    ghost predicate Lawful()
    {
      && (forall t: real :: cos(t) * cos(t) + sin(t) * sin(t) == 1.0)
      && (forall v: real :: v >= 0.0 ==> sqrt(v) >= 0.0 && sqrt(v) * sqrt(v) == v)
    }
  }

  /** `Utils.CreateRandomPositionAround(center, radius, random)` given its two samples:
      an angle of `angleSample` turns and a distance of `sqrt(distanceSample) * radius`, on
      the ground plane. */
  function PositionAround(trig: Trig, center: Vec3, radius: real, angleSample: real, distanceSample: real): (p: Vec3)
    ensures p.y == 0.0
  {
    var angle := angleSample * 2.0 * Pi;
    var distance := trig.sqrt(distanceSample) * radius;
    Vec3(center.x + distance * trig.cos(angle), 0.0, center.z + distance * trig.sin(angle))
  }

  /** A position drawn around a point on the ground lies within the radius of it. */
  lemma PositionAroundIsWithinRadius(trig: Trig, center: Vec3, radius: real, angleSample: real, distanceSample: real)
    requires trig.Lawful()
    requires center.y == 0.0 && radius >= 0.0
    requires 0.0 <= distanceSample < 1.0
    ensures WithinDistance(PositionAround(trig, center, radius, angleSample, distanceSample), center, radius)
  {
    var angle := angleSample * 2.0 * Pi;
    var root := trig.sqrt(distanceSample);
    var c, s := trig.cos(angle), trig.sin(angle);
    var d := root * radius;
    var p := PositionAround(trig, center, radius, angleSample, distanceSample);
    assert c * c + s * s == 1.0;
    assert root * root == distanceSample;
    calc {
      SqrMagnitude(Sub(p, center));
      (d * c) * (d * c) + 0.0 * 0.0 + (d * s) * (d * s);
      d * d * (c * c + s * s);
      d * d;
      (root * root) * (radius * radius);
      distanceSample * (radius * radius);
    <= { assert 0.0 <= radius * radius; }
      radius * radius;
    }
  }
}
