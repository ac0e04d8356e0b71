/**
 * One particle of the sphere (the object literal built in createParticles,
 * script.js:99-122) and the per-particle formulas of createParticles,
 * rotateParticles and projectParticles (script.js:86-162, 231-240).
 */
module Particles {
  import opened Geometry
  import opened Sorting
  import opened RealArith

  /**
   * The random draws behind one particle. `rPhi`, `rSize`, `rOpacity` and
   * `rSpeed` are results of Math.random(); `sinPhi` stands for
   * sin(acos(2 * rPhi - 1)) and `cosTheta`, `sinTheta` for the cosine and sine
   * of the random azimuth 2 * PI * Math.random().
   */
  datatype Sample = Sample(
    rPhi: real, sinPhi: real, cosTheta: real, sinTheta: real,
    rSize: real, rOpacity: real, rSpeed: real)

  /** cos(acos(u)) == u for the polar coordinate u = 2 * rPhi - 1. */
  function CosPhi(s: Sample): real
  {
    2.0 * s.rPhi - 1.0
  }

  /** What Math.random, sin and cos guarantee about a sample. */
  ghost predicate ValidSample(s: Sample)
  {
    && 0.0 <= s.rPhi < 1.0
    && 0.0 <= s.rSize < 1.0
    && 0.0 <= s.rOpacity < 1.0
    && 0.0 <= s.rSpeed < 1.0
    && s.sinPhi >= 0.0
    && UnitPair(CosPhi(s), s.sinPhi)
    && UnitPair(s.cosTheta, s.sinTheta)
  }

  /**
   * `pos` is x/y/z (rewritten every frame), `target` is targetX/Y/Z (the sort key
   * of script.js:127) and `original` is originalX/Y/Z (the rotation input). The
   * screen fields are undefined in the source until the first projection; the
   * model starts them at 0, which makes `screenSize > 0` false as undefined does.
   */
  datatype Particle = Particle(
    pos: Vec3, target: Vec3, original: Vec3,
    size: real, opacity: real, speed: real,
    isVisible: bool, isReady: bool, appearProgress: real,
    screenX: real, screenY: real, screenSize: real, screenOpacity: real)

  /** The particle createParticles pushes for one sample on a sphere of the given radius. */
  function NewParticle(radius: real, s: Sample): (p: Particle)
    ensures p.pos == p.target == p.original
    ensures !p.isVisible && !p.isReady && p.appearProgress == 0.0
    ensures p.screenSize == 0.0
  {
    var v := Vec3(radius * s.sinPhi * s.cosTheta, radius * s.sinPhi * s.sinTheta, radius * CosPhi(s));
    Particle(v, v, v,
             s.rSize * 1.0 + 0.5, s.rOpacity * 0.8 + 0.2, s.rSpeed * 0.02 + 0.01,
             false, false, 0.0,
             0.0, 0.0, 0.0, 0.0)
  }

  /** Every generated particle lies on the sphere, with size in [0.5, 1.5) and opacity in [0.2, 1.0). */
  lemma NewParticleOnSphere(radius: real, s: Sample)
    requires ValidSample(s)
    ensures NormSq(NewParticle(radius, s).original) == radius * radius
    ensures radius >= 0.0 ==> -radius <= NewParticle(radius, s).original.z <= radius
    ensures 0.5 <= NewParticle(radius, s).size < 1.5
    ensures 0.2 <= NewParticle(radius, s).opacity < 1.0
    ensures 0.01 <= NewParticle(radius, s).speed < 0.03
  {
    var u, sp, ct, st := CosPhi(s), s.sinPhi, s.cosTheta, s.sinTheta;
    var v := NewParticle(radius, s).original;
    calc {
      NormSq(v);
      (radius * sp * ct) * (radius * sp * ct) + (radius * sp * st) * (radius * sp * st) + (radius * u) * (radius * u);
      (radius * radius) * ((sp * sp) * (ct * ct + st * st) + u * u);
      (radius * radius) * (sp * sp + u * u);
      radius * radius;
    }
    if radius >= 0.0 {
      assert v.z == radius * u;
      ProductNonneg(radius, 1.0 - u);
      ProductNonneg(radius, u + 1.0);
      assert radius * (1.0 - u) == radius - radius * u;
      assert radius * (u + 1.0) == radius * u + radius;
    }
  }

  function TargetZ(p: Particle): real
  {
    p.target.z
  }

  /** The particles in push order, before the sort of script.js:127. */
  function Pushed(count: nat, radius: real, draw: nat -> Sample): (ps: seq<Particle>)
    ensures |ps| == count
    ensures forall i :: 0 <= i < count ==>
              && ps[i].pos == ps[i].target == ps[i].original
              && !ps[i].isVisible && !ps[i].isReady && ps[i].appearProgress == 0.0
  {
    var ps := seq(count, i requires 0 <= i < count => NewParticle(radius, draw(i)));
    assert forall i :: 0 <= i < count ==> ps[i] == NewParticle(radius, draw(i));
    ps
  }

  /** The particle list createParticles leaves behind. */
  function Created(count: nat, radius: real, draw: nat -> Sample): (r: seq<Particle>)
    ensures |r| == count
    ensures SortedBy(r, TargetZ)
    ensures multiset(r) == multiset(Pushed(count, radius, draw))
  {
    SortBy(Pushed(count, radius, draw), TargetZ)
  }

  /**
   * createParticles yields `count` particles, all invisible, not ready and with
   * appearProgress 0, ordered by ascending z, and they are exactly the pushed ones.
   */
  lemma CreatedShape(count: nat, radius: real, draw: nat -> Sample)
    ensures |Created(count, radius, draw)| == count
    ensures SortedBy(Created(count, radius, draw), TargetZ)
    ensures multiset(Created(count, radius, draw)) == multiset(Pushed(count, radius, draw))
    ensures forall i :: 0 <= i < count ==>
              var p := Created(count, radius, draw)[i];
              !p.isVisible && !p.isReady && p.appearProgress == 0.0 && p.screenSize == 0.0
  {
    var ps := Pushed(count, radius, draw);
    var cs := Created(count, radius, draw);
    forall i | 0 <= i < count
      ensures !cs[i].isVisible && !cs[i].isReady && cs[i].appearProgress == 0.0 && cs[i].screenSize == 0.0
    {
      assert cs[i] in multiset(ps);
      var k :| 0 <= k < |ps| && ps[k] == cs[i];
      assert ps[k] == NewParticle(radius, draw(k));
    }
  }

  /** Every created particle lies on the sphere when the draws are genuine. */
  lemma CreatedOnSphere(count: nat, radius: real, draw: nat -> Sample)
    requires forall i: nat :: ValidSample(draw(i))
    ensures forall i :: 0 <= i < count ==> NormSq(Created(count, radius, draw)[i].original) == radius * radius
  {
    var ps := Pushed(count, radius, draw);
    var cs := Created(count, radius, draw);
    forall i | 0 <= i < count
      ensures NormSq(cs[i].original) == radius * radius
    {
      assert cs[i] in multiset(ps);
      var k :| 0 <= k < |ps| && ps[k] == cs[i];
      NewParticleOnSphere(radius, draw(k));
    }
  }

  /** rotateParticles for one particle: reads only `original`, writes only `pos`. */
  function RotateParticle(p: Particle, cy: real, sy: real, cx: real, sx: real): (r: Particle)
    ensures r.original == p.original
    ensures r == p.(pos := r.pos)
  {
    p.(pos := RotateYX(p.original, cy, sy, cx, sx))
  }

  /** A rotated particle stays at its generation-time distance from the centre. */
  lemma RotatedParticleKeepsRadius(p: Particle, cy: real, sy: real, cx: real, sx: real)
    requires UnitPair(cy, sy) && UnitPair(cx, sx)
    ensures NormSq(RotateParticle(p, cy, sy, cx, sx).pos) == NormSq(p.original)
  {
    RotationKeepsNorm(p.original, cy, sy, cx, sx);
  }

  /** The depth-darkening factor of screenOpacity: 1 at the front (z = -radius), 1/2 at the back. */
  function DepthShade(z: real, radius: real): real
    requires radius != 0.0
  {
    1.0 - (z + radius) / (2.0 * radius) * 0.5
  }

  lemma DepthShadeBounds(z: real, radius: real)
    requires radius > 0.0 && -radius <= z <= radius
    ensures 0.5 <= DepthShade(z, radius) <= 1.0
  {
    var f := (z + radius) / (2.0 * radius);
    assert f * (2.0 * radius) == z + radius;
    assert 0.0 <= f <= 1.0;
  }

  /** The perspective factor for a point at depth z in front of a camera at distance `depth`. */
  function Perspective(depth: real, z: real): real
    requires depth + z != 0.0
  {
    depth / (depth + z)
  }

  /** projectParticles for one particle: perspective projection at camera distance `depth`. */
  function ProjectParticle(p: Particle, depth: real, centerX: real, centerY: real, radius: real): (r: Particle)
    requires depth + p.pos.z != 0.0 && radius != 0.0
    ensures r == p.(screenX := r.screenX, screenY := r.screenY, screenSize := r.screenSize, screenOpacity := r.screenOpacity)
  {
    var scale := Perspective(depth, p.pos.z);
    p.(screenX := centerX + p.pos.x * scale,
       screenY := centerY + p.pos.y * scale,
       screenSize := p.size * scale,
       screenOpacity := p.opacity * DepthShade(p.pos.z, radius))
  }

  /** A particle inside the sphere's radius is drawn at between half and all of its own opacity. */
  lemma ProjectedOpacityBounds(p: Particle, depth: real, centerX: real, centerY: real, radius: real)
    requires depth + p.pos.z != 0.0 && radius > 0.0
    requires -radius <= p.pos.z <= radius && p.opacity >= 0.0
    ensures var r := ProjectParticle(p, depth, centerX, centerY, radius);
            p.opacity / 2.0 <= r.screenOpacity <= p.opacity
  {
    DepthShadeBounds(p.pos.z, radius);
    var d := DepthShade(p.pos.z, radius);
    assert p.opacity * d <= p.opacity * 1.0;
    assert p.opacity * d >= p.opacity * 0.5;
  }

  /** Projection reads only position, size and opacity: projecting twice changes nothing more. */
  lemma ProjectionIdempotent(p: Particle, depth: real, centerX: real, centerY: real, radius: real)
    requires depth + p.pos.z != 0.0 && radius != 0.0
    ensures var r := ProjectParticle(p, depth, centerX, centerY, radius);
            ProjectParticle(r, depth, centerX, centerY, radius) == r
  {
    var r := ProjectParticle(p, depth, centerX, centerY, radius);
    assert r.pos == p.pos && r.size == p.size && r.opacity == p.opacity;
    var scale, shade := Perspective(depth, p.pos.z), DepthShade(p.pos.z, radius);
    assert Perspective(depth, r.pos.z) == scale && DepthShade(r.pos.z, radius) == shade;
    var r2 := ProjectParticle(r, depth, centerX, centerY, radius);
    assert r2.screenX == centerX + p.pos.x * scale == r.screenX;
    assert r2.screenY == centerY + p.pos.y * scale == r.screenY;
    assert r2.screenSize == p.size * scale == r.screenSize;
    assert r2.screenOpacity == p.opacity * shade == r.screenOpacity;
  }

  /**
   * With radius 200 and camera depth 400, an unrotated particle at (200, 0, 0)
   * is drawn 200 units right of the centre at 3/4 of its opacity, and one at
   * (0, 0, 200) is drawn at the centre at 2/3 of its size and half its opacity.
   */
  lemma ProjectionExamples(p: Particle, cx: real, cy: real)
    ensures var q := p.(pos := Vec3(200.0, 0.0, 0.0));
            var r := ProjectParticle(q, 400.0, cx, cy, 200.0);
            r.screenX == cx + 200.0 && r.screenY == cy && r.screenSize == p.size
            && r.screenOpacity == p.opacity * 0.75
    ensures var q := p.(pos := Vec3(0.0, 0.0, 200.0));
            var r := ProjectParticle(q, 400.0, cx, cy, 200.0);
            r.screenX == cx && r.screenY == cy && r.screenSize == p.size * (2.0 / 3.0)
            && r.screenOpacity == p.opacity * 0.5
  {
  }
}
