/** A particle of the collision simulator (Collision-Simulator/Interaction/particle.py):
    wall bounce, Euler integration and the two-body elastic collision. The
    particles live in a registry and are named by their index there. */
module Particle {
  import opened Vectors
  import opened Wrappers

  /** The coefficient every particle is created with. */
  const Elasticity: real := 0.95

  datatype Body = Body(position: Vec2, velocity: Vec2, radius: real, density: real,
                       mass: real, elasticity: real)

  /** Particle.__init__: the mass is density times the squared radius. */
  function NewBody(position: Vec2, velocity: Vec2, radius: real, density: real): (b: Body)
    ensures b.position == position && b.velocity == velocity
    ensures b.radius == radius && b.density == density
    ensures b.mass == density * (radius * radius) && b.elasticity == Elasticity
  {
    Body(position, velocity, radius, density, density * (radius * radius), Elasticity)
  }

  /** One axis of Particle.bounce, giving the new (coordinate, velocity
      component). A coordinate inside the bounds is left alone. A coordinate
      below `lo` is mirrored about `lo`, one above `hi` about `hi` (the `elif`:
      at most one of the two); the velocity component then points inward, with
      its magnitude kept, because it is negated only if it pointed outward. A
      particle that overshot a wall by no more than the width of the band is
      back inside the band. */
  function BounceAxis(p: real, v: real, lo: real, hi: real): (r: (real, real))
    ensures lo <= p <= hi ==> r == (p, v)
    ensures p < lo ==> r.0 == 2.0 * lo - p && r.1 >= 0.0
    ensures lo <= p && hi < p ==> r.0 == 2.0 * hi - p && r.1 <= 0.0
    ensures r.1 == v || r.1 == -v
    ensures lo <= hi && 2.0 * lo - hi <= p <= 2.0 * hi - lo ==> lo <= r.0 <= hi
  {
    if p < lo then (2.0 * lo - p, if v < 0.0 then v * -1.0 else v)
    else if p > hi then (2.0 * hi - p, if v > 0.0 then v * -1.0 else v)
    else (p, v)
  }

  /** A second bounce right after the first changes nothing when the first
      brought the coordinate back inside: the velocity then points inward and
      is not reflected again. */
  lemma BounceAxisIdempotent(p: real, v: real, lo: real, hi: real)
    requires lo <= hi && 2.0 * lo - hi <= p <= 2.0 * hi - lo
    ensures BounceAxis(BounceAxis(p, v, lo, hi).0, BounceAxis(p, v, lo, hi).1, lo, hi)
            == BounceAxis(p, v, lo, hi)
  {
  }

  /** Particle.bounce in an arena of the given size: the x and the y axis are
      handled independently, each between `radius` and `dimension - radius`. */
  function Bounce(b: Body, width: real, height: real): (r: Body)
    ensures r.radius == b.radius && r.density == b.density
    ensures r.mass == b.mass && r.elasticity == b.elasticity
    ensures (r.position.x, r.velocity.x)
            == BounceAxis(b.position.x, b.velocity.x, b.radius, width - b.radius)
    ensures (r.position.y, r.velocity.y)
            == BounceAxis(b.position.y, b.velocity.y, b.radius, height - b.radius)
  {
    var (px, vx) := BounceAxis(b.position.x, b.velocity.x, b.radius, width - b.radius);
    var (py, vy) := BounceAxis(b.position.y, b.velocity.y, b.radius, height - b.radius);
    b.(position := Vec2(px, py), velocity := Vec2(vx, vy))
  }

  /** `position += velocity * dt`. */
  function Integrate(b: Body, dt: real): (r: Body)
    ensures r == b.(position := Add(b.position, Scale(dt, b.velocity)))
  {
    b.(position := Add(b.position, Scale(dt, b.velocity)))
  }

  /** Particle.update: integrate, then bounce. */
  function Update(b: Body, dt: real, width: real, height: real): (r: Body)
    ensures r == Bounce(Integrate(b, dt), width, height)
    ensures r.radius == b.radius && r.mass == b.mass && r.elasticity == b.elasticity
  {
    Bounce(Integrate(b, dt), width, height)
  }

  /** The factor of `r1 - r2` in the impulse on the particle of mass `m1` at
      `r1` moving with `v1` when it meets the particle of mass `m2` at `r2`
      moving with `v2`: `2 m2 / (m1 + m2) * (v1 - v2).(r1 - r2) / |r1 - r2|²`,
      in Python's left-to-right order. */
  function ImpulseFactor(m1: real, m2: real, v1: Vec2, v2: Vec2, r1: Vec2, r2: Vec2): real
    requires m1 + m2 != 0.0 && LengthSquared(Sub(r1, r2)) != 0.0
  {
    2.0 * m2 / (m1 + m2) * Dot(Sub(v1, v2), Sub(r1, r2)) / LengthSquared(Sub(r1, r2))
  }

  /** The velocity of the first particle after the impulse, before the
      elasticity scaling (`v1n`, `v2n` of particle.py with the roles of the
      two particles exchanged). */
  function Rebound(m1: real, m2: real, v1: Vec2, v2: Vec2, r1: Vec2, r2: Vec2): Vec2
    requires m1 + m2 != 0.0 && LengthSquared(Sub(r1, r2)) != 0.0
  {
    SubScaled(v1, ImpulseFactor(m1, m2, v1, v2, r1, r2), Sub(r1, r2))
  }

  /** The two impulse factors, seen from either particle: their mass-weighted
      values agree, and their sum times |r1 - r2|² is twice the normal relative
      velocity. */
  lemma ImpulseFactors(m1: real, m2: real, v1: Vec2, v2: Vec2, r1: Vec2, r2: Vec2)
    requires m1 + m2 != 0.0 && LengthSquared(Sub(r1, r2)) != 0.0
    ensures LengthSquared(Sub(r2, r1)) == LengthSquared(Sub(r1, r2))
    ensures m1 * ImpulseFactor(m1, m2, v1, v2, r1, r2)
         == m2 * ImpulseFactor(m2, m1, v2, v1, r2, r1)
    ensures (ImpulseFactor(m1, m2, v1, v2, r1, r2) + ImpulseFactor(m2, m1, v2, v1, r2, r1))
            * LengthSquared(Sub(r1, r2))
         == 2.0 * Dot(Sub(v1, v2), Sub(r1, r2))
  {
    var c, l := Dot(Sub(v1, v2), Sub(r1, r2)), LengthSquared(Sub(r1, r2));
    assert Dot(Sub(v2, v1), Sub(r2, r1)) == c;
    LengthSquaredReversed(r1, r2);
    FactorAlgebra(m1, m2, c, l);
  }

  lemma FactorAlgebra(m1: real, m2: real, c: real, l: real)
    requires m1 + m2 != 0.0 && l != 0.0
    ensures m1 * (2.0 * m2 / (m1 + m2) * c / l) == m2 * (2.0 * m1 / (m2 + m1) * c / l)
    ensures (2.0 * m2 / (m1 + m2) * c / l + 2.0 * m1 / (m2 + m1) * c / l) * l == 2.0 * c
  {
    var q := c / l / (m1 + m2);
    assert 2.0 * m2 / (m1 + m2) * c / l == 2.0 * m2 * q;
    assert 2.0 * m1 / (m2 + m1) * c / l == 2.0 * m1 * q;
    assert (2.0 * m2 * q + 2.0 * m1 * q) * l == 2.0 * (m1 + m2) * q * l;
    assert (m1 + m2) * q * l == c;
  }

  /** The impulse conserves momentum: m1 v1n + m2 v2n = m1 v1 + m2 v2. */
  lemma ReboundMomentum(m1: real, m2: real, v1: Vec2, v2: Vec2, r1: Vec2, r2: Vec2)
    requires m1 + m2 != 0.0 && LengthSquared(Sub(r1, r2)) != 0.0
    ensures LengthSquared(Sub(r2, r1)) != 0.0
    ensures Add(Scale(m1, Rebound(m1, m2, v1, v2, r1, r2)), Scale(m2, Rebound(m2, m1, v2, v1, r2, r1)))
         == Add(Scale(m1, v1), Scale(m2, v2))
  {
    ImpulseFactors(m1, m2, v1, v2, r1, r2);
    var k1, k2 := ImpulseFactor(m1, m2, v1, v2, r1, r2), ImpulseFactor(m2, m1, v2, v1, r2, r1);
    assert Rebound(m1, m2, v1, v2, r1, r2) == Sub(v1, Scale(k1, Sub(r1, r2)));
    assert Rebound(m2, m1, v2, v1, r2, r1) == Sub(v2, Scale(k2, Sub(r2, r1)));
    MomentumVec(m1, m2, k1, k2, v1, v2, Sub(r1, r2), Sub(r2, r1));
  }

  /** Opposite kicks along `d` and `e = -d` whose mass-weighted sizes agree
      leave the momentum unchanged. */
  lemma MomentumVec(m1: real, m2: real, k1: real, k2: real, v1: Vec2, v2: Vec2, d: Vec2, e: Vec2)
    requires m1 * k1 == m2 * k2 && e.x == -d.x && e.y == -d.y
    ensures Add(Scale(m1, Sub(v1, Scale(k1, d))), Scale(m2, Sub(v2, Scale(k2, e)))) == Add(Scale(m1, v1), Scale(m2, v2))
  {
    var w1, w2 := Sub(v1, Scale(k1, d)), Sub(v2, Scale(k2, e));
    MomentumAxis(m1, m2, k1, k2, v1.x, v2.x, d.x, e.x, w1.x, w2.x);
    MomentumAxis(m1, m2, k1, k2, v1.y, v2.y, d.y, e.y, w1.y, w2.y);
  }

  lemma MomentumAxis(m1: real, m2: real, k1: real, k2: real, a: real, b: real, d: real, e: real, w1: real, w2: real)
    requires m1 * k1 == m2 * k2 && e == -d && w1 == a - k1 * d && w2 == b - k2 * e
    ensures m1 * w1 + m2 * w2 == m1 * a + m2 * b
  {
    assert m1 * (k1 * d) == (m1 * k1) * d;
    assert m2 * (k2 * d) == (m2 * k2) * d;
    assert m1 * w1 == m1 * a - m1 * (k1 * d);
    assert m2 * w2 == m2 * b + m2 * (k2 * d);
  }

  /** The impulse reverses the relative velocity along the line of centres:
      (v1n - v2n).(r1 - r2) = -(v1 - v2).(r1 - r2). */
  lemma ReboundReflects(m1: real, m2: real, v1: Vec2, v2: Vec2, r1: Vec2, r2: Vec2)
    requires m1 + m2 != 0.0 && LengthSquared(Sub(r1, r2)) != 0.0
    ensures LengthSquared(Sub(r2, r1)) != 0.0
    ensures Dot(Sub(Rebound(m1, m2, v1, v2, r1, r2), Rebound(m2, m1, v2, v1, r2, r1)), Sub(r1, r2))
         == -Dot(Sub(v1, v2), Sub(r1, r2))
  {
    ImpulseFactors(m1, m2, v1, v2, r1, r2);
    var k1, k2 := ImpulseFactor(m1, m2, v1, v2, r1, r2), ImpulseFactor(m2, m1, v2, v1, r2, r1);
    var w1, w2 := Rebound(m1, m2, v1, v2, r1, r2), Rebound(m2, m1, v2, v1, r2, r1);
    var d := Sub(r1, r2);
    DotSub(w1, w2, d);
    DotReversed(w2, r1, r2);
    DotReversed(v2, r1, r2);
    DotSub(v1, v2, d);
  }

  /** Two velocities kicked along opposite directions `d` and `e = -d` by
      factors whose mass-weighted values agree and whose sum times |d|² is
      twice the normal relative velocity keep their kinetic energy. */
  lemma KickEnergy(m1: real, m2: real, k1: real, k2: real, v1: Vec2, v2: Vec2, d: Vec2, e: Vec2)
    requires m1 * k1 == m2 * k2 && (k1 + k2) * LengthSquared(d) == 2.0 * Dot(Sub(v1, v2), d)
    requires e == Sub(Zero, d)
    ensures m1 * LengthSquared(SubScaled(v1, k1, d)) + m2 * LengthSquared(SubScaled(v2, k2, e))
         == m1 * LengthSquared(v1) + m2 * LengthSquared(v2)
  {
    assert LengthSquared(e) == LengthSquared(d);
    assert Dot(v2, e) == -Dot(v2, d);
    DotSub(v1, v2, d);
    var a1, a2, l := Dot(v1, d), Dot(v2, d), LengthSquared(d);
    assert LengthSquared(SubScaled(v1, k1, d)) == LengthSquared(v1) - 2.0 * k1 * a1 + k1 * k1 * l;
    assert LengthSquared(SubScaled(v2, k2, e)) == LengthSquared(v2) + 2.0 * k2 * a2 + k2 * k2 * l;
    KickScalar(m1, m2, k1, k2, a1, a2, l, LengthSquared(v1), LengthSquared(v2));
  }

  /** KickEnergy along one line, with `a1`, `a2` the velocities' components
      along it and `l` its squared length. */
  lemma KickScalar(m1: real, m2: real, k1: real, k2: real, a1: real, a2: real, l: real, sq1: real, sq2: real)
    requires m1 * k1 == m2 * k2 && (k1 + k2) * l == 2.0 * (a1 - a2)
    ensures m1 * (sq1 - 2.0 * k1 * a1 + k1 * k1 * l) + m2 * (sq2 + 2.0 * k2 * a2 + k2 * k2 * l) == m1 * sq1 + m2 * sq2
  {
    var q := m1 * k1;
    assert m1 * (k1 * k1 * l) == q * k1 * l;
    assert m2 * (k2 * k2 * l) == q * k2 * l;
    assert m1 * (2.0 * k1 * a1) == 2.0 * q * a1;
    assert m2 * (2.0 * k2 * a2) == 2.0 * q * a2;
    assert q * k1 * l + q * k2 * l == q * ((k1 + k2) * l);
  }

  /** The impulse conserves kinetic energy:
      m1 |v1n|² + m2 |v2n|² = m1 |v1|² + m2 |v2|². */
  lemma ReboundEnergy(m1: real, m2: real, v1: Vec2, v2: Vec2, r1: Vec2, r2: Vec2)
    requires m1 + m2 != 0.0 && LengthSquared(Sub(r1, r2)) != 0.0
    ensures LengthSquared(Sub(r2, r1)) != 0.0
    ensures m1 * LengthSquared(Rebound(m1, m2, v1, v2, r1, r2))
            + m2 * LengthSquared(Rebound(m2, m1, v2, v1, r2, r1))
         == m1 * LengthSquared(v1) + m2 * LengthSquared(v2)
  {
    ImpulseFactors(m1, m2, v1, v2, r1, r2);
    KickEnergy(m1, m2, ImpulseFactor(m1, m2, v1, v2, r1, r2), ImpulseFactor(m2, m1, v2, v1, r2, r1),
               v1, v2, Sub(r1, r2), Sub(r2, r1));
  }

  /** How much two particles overlap: `r1 + r2 - |p1 - p2|`. */
  function Overlap(b1: Body, b2: Body, norm: Vec2 -> real): real
  {
    b1.radius + b2.radius - norm(Sub(b1.position, b2.position))
  }

  /** Python raises ZeroDivisionError in Particle.collide when the particles
      overlap and either their masses sum to zero or their centres coincide
      (the divisions by `m1 + m2` and by `length_squared()`). */
  predicate CollideCrashes(b1: Body, b2: Body, norm: Vec2 -> real)
  {
    Overlap(b1, b2, norm) > 0.0
    && (b1.mass + b2.mass == 0.0 || LengthSquared(Sub(b1.position, b2.position)) == 0.0)
  }

  /** Particle.collide, `b1.collide(b2)`: the new pair of particles, or None
      where Python raises. Particles that do not overlap are returned as they
      are. Overlapping ones get the impulse along the line of centres, both
      scaled by the elasticity of the first particle (`self.elasticity`), and
      are pushed apart along the line of centres by half the overlap each. */
  function Collide(b1: Body, b2: Body, norm: Vec2 -> real): (r: Option<(Body, Body)>)
    requires IsNorm(norm)
    ensures Overlap(b1, b2, norm) <= 0.0 ==> r == Some((b1, b2))
    ensures r.None? <==> CollideCrashes(b1, b2, norm)
    ensures r.Some? ==> r.value.0 == b1.(position := r.value.0.position, velocity := r.value.0.velocity)
    ensures r.Some? ==> r.value.1 == b2.(position := r.value.1.position, velocity := r.value.1.velocity)
  {
    var sep := Sub(b1.position, b2.position);
    var overlap := Overlap(b1, b2, norm);
    if !(overlap > 0.0) then Some((b1, b2))
    else if b1.mass + b2.mass == 0.0 || LengthSquared(sep) == 0.0 then None
    else
      LengthSquaredReversed(b1.position, b2.position);
      var v1n := Rebound(b1.mass, b2.mass, b1.velocity, b2.velocity, b1.position, b2.position);
      var v2n := Rebound(b2.mass, b1.mass, b2.velocity, b1.velocity, b2.position, b1.position);
      var s := ScaleToLength(norm, sep, overlap);
      Some((b1.(velocity := Scale(b1.elasticity, v1n), position := Add(b1.position, Scale(0.5, s))),
            b2.(velocity := Scale(b1.elasticity, v2n), position := Sub(b2.position, Scale(0.5, s)))))
  }

  /** After a collision of overlapping particles, momentum is the elasticity
      times the momentum before. */
  lemma CollideMomentum(b1: Body, b2: Body, norm: Vec2 -> real)
    requires IsNorm(norm) && Collide(b1, b2, norm).Some? && Overlap(b1, b2, norm) > 0.0
    ensures var (c1, c2) := Collide(b1, b2, norm).value;
      Add(Scale(b1.mass, c1.velocity), Scale(b2.mass, c2.velocity))
      == Scale(b1.elasticity, Add(Scale(b1.mass, b1.velocity), Scale(b2.mass, b2.velocity)))
  {
    var m1, m2, v1, v2, r1, r2 := b1.mass, b2.mass, b1.velocity, b2.velocity, b1.position, b2.position;
    ReboundMomentum(m1, m2, v1, v2, r1, r2);
    var w1, w2 := Rebound(m1, m2, v1, v2, r1, r2), Rebound(m2, m1, v2, v1, r2, r1);
    var (c1, c2) := Collide(b1, b2, norm).value;
    assert c1.velocity == Scale(b1.elasticity, w1) && c2.velocity == Scale(b1.elasticity, w2);
    ScaledMomentum(m1, m2, b1.elasticity, w1, w2, v1, v2);
  }

  lemma ScaledMomentum(m1: real, m2: real, e: real, w1: Vec2, w2: Vec2, v1: Vec2, v2: Vec2)
    requires Add(Scale(m1, w1), Scale(m2, w2)) == Add(Scale(m1, v1), Scale(m2, v2))
    ensures Add(Scale(m1, Scale(e, w1)), Scale(m2, Scale(e, w2)))
         == Scale(e, Add(Scale(m1, v1), Scale(m2, v2)))
  {
    ScaledSum(m1, m2, e, w1.x, w2.x);
    ScaledSum(m1, m2, e, w1.y, w2.y);
  }

  lemma ScaledSum(m1: real, m2: real, e: real, a: real, b: real)
    ensures m1 * (e * a) + m2 * (e * b) == e * (m1 * a + m2 * b)
  {
  }

  /** After a collision, the relative velocity along the line of centres is
      reversed and scaled by the elasticity. */
  lemma CollideReflects(b1: Body, b2: Body, norm: Vec2 -> real)
    requires IsNorm(norm) && Collide(b1, b2, norm).Some? && Overlap(b1, b2, norm) > 0.0
    ensures var (c1, c2) := Collide(b1, b2, norm).value;
      var d := Sub(b1.position, b2.position);
      Dot(Sub(c1.velocity, c2.velocity), d) == -(b1.elasticity * Dot(Sub(b1.velocity, b2.velocity), d))
  {
    var m1, m2, v1, v2, r1, r2 := b1.mass, b2.mass, b1.velocity, b2.velocity, b1.position, b2.position;
    ReboundReflects(m1, m2, v1, v2, r1, r2);
    var w1, w2 := Rebound(m1, m2, v1, v2, r1, r2), Rebound(m2, m1, v2, v1, r2, r1);
    var e, d := b1.elasticity, Sub(r1, r2);
    assert Sub(Scale(e, w1), Scale(e, w2)) == Scale(e, Sub(w1, w2));
    DotScaled(e, Sub(w1, w2), d);
  }

  lemma DotScaled(e: real, a: Vec2, d: Vec2)
    ensures Dot(Scale(e, a), d) == e * Dot(a, d)
  {
  }

  /** The pair's kinetic energy, doubled: m1 |v1|² + m2 |v2|². */
  function Energy(b1: Body, b2: Body): real
  {
    b1.mass * LengthSquared(b1.velocity) + b2.mass * LengthSquared(b2.velocity)
  }

  /** After a collision of overlapping particles, kinetic energy is the
      elasticity squared times the kinetic energy before: the impulse itself
      loses none. */
  lemma CollideEnergy(b1: Body, b2: Body, norm: Vec2 -> real)
    requires IsNorm(norm) && Collide(b1, b2, norm).Some? && Overlap(b1, b2, norm) > 0.0
    ensures Energy(Collide(b1, b2, norm).value.0, Collide(b1, b2, norm).value.1)
         == b1.elasticity * b1.elasticity * Energy(b1, b2)
  {
    LengthSquaredReversed(b1.position, b2.position);
    BodyReboundEnergy(b1, b2);
    ScaledEnergy(b1, b2, Collide(b1, b2, norm).value.0, Collide(b1, b2, norm).value.1);
  }

  /** ReboundEnergy for the velocities that Collide computes from two bodies. */
  lemma BodyReboundEnergy(b1: Body, b2: Body)
    requires b1.mass + b2.mass != 0.0 && LengthSquared(Sub(b1.position, b2.position)) != 0.0
    ensures LengthSquared(Sub(b2.position, b1.position)) != 0.0
    ensures b1.mass * LengthSquared(Rebound(b1.mass, b2.mass, b1.velocity, b2.velocity, b1.position, b2.position))
            + b2.mass * LengthSquared(Rebound(b2.mass, b1.mass, b2.velocity, b1.velocity, b2.position, b1.position))
         == Energy(b1, b2)
  {
    ReboundEnergy(b1.mass, b2.mass, b1.velocity, b2.velocity, b1.position, b2.position);
  }

  lemma ScaledEnergy(b1: Body, b2: Body, c1: Body, c2: Body)
    requires b1.mass + b2.mass != 0.0 && LengthSquared(Sub(b1.position, b2.position)) != 0.0
    requires LengthSquared(Sub(b2.position, b1.position)) != 0.0
    requires c1.mass == b1.mass && c2.mass == b2.mass
    requires c1.velocity == Scale(b1.elasticity, Rebound(b1.mass, b2.mass, b1.velocity, b2.velocity, b1.position, b2.position))
    requires c2.velocity == Scale(b1.elasticity, Rebound(b2.mass, b1.mass, b2.velocity, b1.velocity, b2.position, b1.position))
    requires b1.mass * LengthSquared(Rebound(b1.mass, b2.mass, b1.velocity, b2.velocity, b1.position, b2.position))
            + b2.mass * LengthSquared(Rebound(b2.mass, b1.mass, b2.velocity, b1.velocity, b2.position, b1.position))
         == Energy(b1, b2)
    ensures Energy(c1, c2) == b1.elasticity * b1.elasticity * Energy(b1, b2)
  {
    var w1 := Rebound(b1.mass, b2.mass, b1.velocity, b2.velocity, b1.position, b2.position);
    var w2 := Rebound(b2.mass, b1.mass, b2.velocity, b1.velocity, b2.position, b1.position);
    var e := b1.elasticity;
    LengthSquaredScale(e, w1);
    LengthSquaredScale(e, w2);
    WeightedScaling(b1.mass, b2.mass, e * e, LengthSquared(w1), LengthSquared(w2), Energy(b1, b2),
                    LengthSquared(c1.velocity), LengthSquared(c2.velocity));
  }

  lemma WeightedScaling(m1: real, m2: real, f: real, a: real, b: real, s: real, p: real, q: real)
    requires p == f * a && q == f * b && m1 * a + m2 * b == s
    ensures m1 * p + m2 * q == f * s
  {
    ScaledSum(m1, m2, f, a, b);
  }

  /** After a collision of overlapping particles the centres are exactly
      `r1 + r2` apart, and their sum (twice the midpoint) has not moved. */
  lemma CollideSeparates(b1: Body, b2: Body, norm: Vec2 -> real)
    requires IsNorm(norm) && Collide(b1, b2, norm).Some? && Overlap(b1, b2, norm) > 0.0
    ensures var (c1, c2) := Collide(b1, b2, norm).value;
      && LengthSquared(Sub(c1.position, c2.position)) == (b1.radius + b2.radius) * (b1.radius + b2.radius)
      && norm(Sub(c1.position, c2.position)) == b1.radius + b2.radius
      && Add(c1.position, c2.position) == Add(b1.position, b2.position)
  {
    var (c1, c2) := Collide(b1, b2, norm).value;
    var sep := Sub(b1.position, b2.position);
    var s := ScaleToLength(norm, sep, Overlap(b1, b2, norm));
    assert c1.position == Add(b1.position, Scale(0.5, s));
    assert c2.position == Sub(b2.position, Scale(0.5, s));
    PushedApart(b1, b2, norm);
  }

  /** The impulse and the push act along the line of centres `d = r1 - r2`:
      beyond the elasticity scaling, each velocity changes by a multiple of
      `d`, so the tangential components are only scaled; and each particle
      is displaced along `d`, away from the other one. */
  lemma CollideAlongCentres(b1: Body, b2: Body, norm: Vec2 -> real)
    requires IsNorm(norm) && Collide(b1, b2, norm).Some? && Overlap(b1, b2, norm) > 0.0
    ensures var (c1, c2) := Collide(b1, b2, norm).value;
      var d, e := Sub(b1.position, b2.position), b1.elasticity;
      && Cross(Sub(c1.velocity, Scale(e, b1.velocity)), d) == 0.0
      && Cross(Sub(c2.velocity, Scale(e, b2.velocity)), d) == 0.0
      && Cross(Sub(c1.position, b1.position), d) == 0.0 && Dot(Sub(c1.position, b1.position), d) > 0.0
      && Cross(Sub(c2.position, b2.position), d) == 0.0 && Dot(Sub(c2.position, b2.position), d) < 0.0
  {
    var (c1, c2) := Collide(b1, b2, norm).value;
    var m1, m2, v1, v2, r1, r2 := b1.mass, b2.mass, b1.velocity, b2.velocity, b1.position, b2.position;
    var d, e, ov := Sub(r1, r2), b1.elasticity, Overlap(b1, b2, norm);
    LengthSquaredReversed(r1, r2);
    var k1, k2 := ImpulseFactor(m1, m2, v1, v2, r1, r2), ImpulseFactor(m2, m1, v2, v1, r2, r1);
    assert c1.velocity == Scale(e, SubScaled(v1, k1, d));
    assert c2.velocity == Scale(e, SubScaled(v2, k2, Sub(r2, r1)));
    assert SubScaled(v1, k1, d) == Sub(v1, Scale(k1, d));
    assert SubScaled(v2, k2, Sub(r2, r1)) == Sub(v2, Scale(k2, Sub(r2, r1)));
    AlongKick(e, k1, v1, d);
    AlongKick(e, k2, v2, Sub(r2, r1));
    var w2 := Sub(c2.velocity, Scale(e, v2));
    assert Cross(w2, d) == -Cross(w2, Sub(r2, r1));
    var s := ScaleToLength(norm, d, ov);
    NormNonZero(norm, d);
    LengthSquaredNonNegative(d);
    AlongPush(s, d, norm(d), ov);
    assert Sub(c1.position, r1) == Scale(0.5, s);
    assert Sub(c2.position, r2) == Scale(-0.5, s);
  }

  /** `e (v - k u) - e v` lies along `u`. */
  lemma AlongKick(e: real, k: real, v: Vec2, u: Vec2)
    ensures Cross(Sub(Scale(e, Sub(v, Scale(k, u))), Scale(e, v)), u) == 0.0
  {
    var w := Sub(Scale(e, Sub(v, Scale(k, u))), Scale(e, v));
    assert w.x == -(e * k) * u.x by {
      assert e * (v.x - k * u.x) - e * v.x == -(e * k) * u.x;
    }
    assert w.y == -(e * k) * u.y by {
      assert e * (v.y - k * u.y) - e * v.y == -(e * k) * u.y;
    }
    assert Cross(w, u) == -(e * k) * (u.x * u.y - u.y * u.x);
  }

  /** A vector `s` with `n s = ov d` for positive `n` and `ov` lies along
      `d` and points its way, and so do its multiples. */
  lemma AlongPush(s: Vec2, d: Vec2, n: real, ov: real)
    requires n > 0.0 && ov > 0.0 && LengthSquared(d) > 0.0 && Scale(n, s) == Scale(ov, d)
    ensures Cross(Scale(0.5, s), d) == 0.0 && Dot(Scale(0.5, s), d) > 0.0
    ensures Cross(Scale(-0.5, s), d) == 0.0 && Dot(Scale(-0.5, s), d) < 0.0
  {
    assert n * Cross(s, d) == Cross(Scale(n, s), d);
    assert Cross(Scale(ov, d), d) == ov * (d.x * d.y - d.y * d.x);
    assert n * Dot(s, d) == Dot(Scale(n, s), d) == ov * LengthSquared(d);
    assert Cross(s, d) == 0.0;
    assert Dot(s, d) > 0.0;
    assert Cross(Scale(0.5, s), d) == 0.5 * Cross(s, d) && Dot(Scale(0.5, s), d) == 0.5 * Dot(s, d);
    assert Cross(Scale(-0.5, s), d) == -0.5 * Cross(s, d) && Dot(Scale(-0.5, s), d) == -0.5 * Dot(s, d);
  }

  /** Moving the centres apart by half the overlap each, along the line of
      centres, leaves them `r1 + r2` apart around the same midpoint. */
  lemma PushedApart(b1: Body, b2: Body, norm: Vec2 -> real)
    requires IsNorm(norm) && Overlap(b1, b2, norm) > 0.0 && LengthSquared(Sub(b1.position, b2.position)) != 0.0
    ensures var s := ScaleToLength(norm, Sub(b1.position, b2.position), Overlap(b1, b2, norm));
      var p1, p2 := Add(b1.position, Scale(0.5, s)), Sub(b2.position, Scale(0.5, s));
      && LengthSquared(Sub(p1, p2)) == (b1.radius + b2.radius) * (b1.radius + b2.radius)
      && norm(Sub(p1, p2)) == b1.radius + b2.radius
      && Add(p1, p2) == Add(b1.position, b2.position)
  {
    var sep := Sub(b1.position, b2.position);
    var n, ov, big := norm(sep), Overlap(b1, b2, norm), b1.radius + b2.radius;
    var s := ScaleToLength(norm, sep, ov);
    PushedVector(b1.position, b2.position, s, n, ov, big);
    NormOfLength(norm, Sub(Add(b1.position, Scale(0.5, s)), Sub(b2.position, Scale(0.5, s))), big);
  }

  /** The centres `a` and `b` pushed apart by half of `s` each, where `s`
      points along `a - b` and is `ov` long, end up `big = ov + |a - b|`
      apart around the same midpoint. */
  lemma PushedVector(a: Vec2, b: Vec2, s: Vec2, n: real, ov: real, big: real)
    requires Scale(n, s) == Scale(ov, Sub(a, b)) && big == ov + n
    requires n * n == LengthSquared(Sub(a, b)) && LengthSquared(Sub(a, b)) != 0.0
    ensures LengthSquared(Sub(Add(a, Scale(0.5, s)), Sub(b, Scale(0.5, s)))) == big * big
    ensures Add(Add(a, Scale(0.5, s)), Sub(b, Scale(0.5, s))) == Add(a, b)
  {
    var sep := Sub(a, b);
    var w := Add(sep, s);
    assert Sub(Add(a, Scale(0.5, s)), Sub(b, Scale(0.5, s))) == w;
    PushApart(n, ov, big, sep, s);
    ScaledLengths(n, w, big, sep);
  }

  /** If `n w = big sep` with `n² = |sep|² != 0`, then `|w|² = big²`. */
  lemma ScaledLengths(n: real, w: Vec2, big: real, sep: Vec2)
    requires Scale(n, w) == Scale(big, sep) && n * n == LengthSquared(sep) && LengthSquared(sep) != 0.0
    ensures LengthSquared(w) == big * big
  {
    var l, len, bb := LengthSquared(sep), LengthSquared(w), big * big;
    LengthSquaredScale(n, w);
    LengthSquaredScale(big, sep);
    assert l * len == bb * l;
    Cancel(l, len, bb);
  }

  /** `n (sep + s) = big sep` when `n s = ov sep` and `big = ov + n`. */
  lemma PushApart(n: real, ov: real, big: real, sep: Vec2, s: Vec2)
    requires Scale(n, s) == Scale(ov, sep) && big == ov + n
    ensures Scale(n, Add(sep, s)) == Scale(big, sep)
  {
    assert n * s.x == ov * sep.x && n * s.y == ov * sep.y;
    assert n * (sep.x + s.x) == n * sep.x + n * s.x;
    assert n * (sep.y + s.y) == n * sep.y + n * s.y;
    assert (ov + n) * sep.x == ov * sep.x + n * sep.x;
    assert (ov + n) * sep.y == ov * sep.y + n * sep.y;
  }

  lemma Cancel(l: real, a: real, b: real)
    requires l != 0.0 && l * a == b * l
    ensures a == b
  {
  }

  /** `b1.collide(b2)` and `b2.collide(b1)` agree when the two particles have
      the same elasticity (the only elasticity a particle is created with). */
  lemma CollideSymmetric(b1: Body, b2: Body, norm: Vec2 -> real)
    requires IsNorm(norm) && b1.elasticity == b2.elasticity
    ensures Collide(b2, b1, norm) == match Collide(b1, b2, norm)
      case None => None
      case Some((c1, c2)) => Some((c2, c1))
  {
    var sep, rev := Sub(b1.position, b2.position), Sub(b2.position, b1.position);
    LengthSquaredReversed(b1.position, b2.position);
    SquareRootUnique(norm(sep), norm(rev));
    assert Overlap(b2, b1, norm) == Overlap(b1, b2, norm);
    if Collide(b1, b2, norm).Some? && Overlap(b1, b2, norm) > 0.0 {
      var ov := Overlap(b1, b2, norm);
      var k := ov / norm(sep);
      assert ScaleToLength(norm, sep, ov) == Scale(k, sep);
      assert ScaleToLength(norm, rev, ov) == Scale(k, rev);
      assert Add(b2.position, Scale(0.5, Scale(k, rev))) == Sub(b2.position, Scale(0.5, Scale(k, sep)));
      assert Sub(b1.position, Scale(0.5, Scale(k, rev))) == Add(b1.position, Scale(0.5, Scale(k, sep)));
    }
  }
}
