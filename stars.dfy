/** A star of the nebula simulator (Nebula-Simulator/particle.py): its
    motion, and the radius and colour that follow from its mass. The stars
    live in a registry and are named by their index there; the in-place
    updates of particle.py become updates of that index. */
module Stars {
  import opened Numbers
  import opened Vectors

  /** `blue` is the blue component of the colour `(255, 255, blue)`;
      `scaleRadius` is the radius of the image drawn at the camera's scale. */
  datatype Star = Star(position: Vec2, velocity: Vec2, acceleration: Vec2,
                       mass: real, radius: int, scaleRadius: int, blue: int)

  /** `k * k * k` grows with `k`. */
  lemma CubeMonotone(a: nat, b: nat)
    requires a <= b
    ensures a * a * a <= b * b * b
  {
    assert a * a <= b * b by {
      assert a * a <= a * b <= b * b;
    }
    assert a * a * a <= b * b * a <= b * b * b;
  }

  /** The cube root search from `n` on: the largest `r >= n` whose cube is
      at most `x`. */
  function CubeRootFrom(x: real, n: nat): (r: nat)
    requires (n * n * n) as real <= x
    ensures n <= r && (r * r * r) as real <= x < ((r + 1) * (r + 1) * (r + 1)) as real
    decreases x.Floor - n
  {
    if ((n + 1) * (n + 1) * (n + 1)) as real > x then n
    else
      assert n + 1 <= x.Floor by {
        CubeMonotone(1, n + 1);
        assert (n + 1) * 1 * 1 <= (n + 1) * (n + 1) * (n + 1);
      }
      CubeRootFrom(x, n + 1)
  }

  /** `int(math.cbrt(x))` for `x >= 0`: the largest natural number whose
      cube does not exceed `x`. */
  function CubeRoot(x: real): (n: nat)
    requires x >= 0.0
    ensures (n * n * n) as real <= x < ((n + 1) * (n + 1) * (n + 1)) as real
  {
    CubeRootFrom(x, 0)
  }

  /** The integer cube root is monotone. */
  lemma CubeRootMonotone(x: real, y: real)
    requires 0.0 <= x <= y
    ensures CubeRoot(x) <= CubeRoot(y)
  {
    var a, b := CubeRoot(x), CubeRoot(y);
    if a > b {
      CubeMonotone(b + 1, a);
      assert false;
    }
  }

  /** The radius of a star of mass `m`: `int(math.cbrt(m / 20))`, where
      `int` truncates toward zero and the cube root of a negative number is
      negative. */
  function Radius(m: real): (r: int)
    ensures m >= 0.0 ==> r >= 0 && r == CubeRoot(m / 20.0)
    ensures m < 0.0 ==> r <= 0 && -r == CubeRoot(-m / 20.0)
  {
    if m >= 0.0 then CubeRoot(m / 20.0) else -(CubeRoot(-m / 20.0) as int)
  }

  /** A star of mass 20 or more has a radius of at least 1, and a heavier
      star is at least as large. */
  lemma RadiusGrows(m1: real, m2: real)
    requires 20.0 <= m1 <= m2
    ensures 1 <= Radius(m1) <= Radius(m2)
  {
    CubeRootMonotone(1.0, m1 / 20.0);
    CubeRootMonotone(m1 / 20.0, m2 / 20.0);
    assert CubeRoot(1.0) == 1;
  }

  /** The blue component `max(0, int(255 - mass / 250))`: a heavier star
      is yellower, and the component is a colour value for every
      non-negative mass. */
  function Blue(m: real): (b: int)
    ensures 0 <= b
    ensures m >= 0.0 ==> b <= 255
    ensures m <= 63750.0 ==> b == Trunc(255.0 - m / 250.0)
    ensures m > 63750.0 ==> b == 0
  {
    var t := Trunc(255.0 - m / 250.0);
    if 0 > t then 0 else t
  }

  /** Particle.update_mass: the mass, the radius and the colour change
      together, and the radius of the image goes back to the radius. */
  function UpdateMass(s: Star, m: real): (r: Star)
    ensures r.mass == m && r.radius == Radius(m) && r.blue == Blue(m)
    ensures r.scaleRadius == r.radius
    ensures r.position == s.position && r.velocity == s.velocity && r.acceleration == s.acceleration
  {
    s.(mass := m, radius := Radius(m), scaleRadius := Radius(m), blue := Blue(m))
  }

  /** Particle.__init__: a star starts without acceleration, with the
      radius and colour of its mass. */
  function NewStar(position: Vec2, velocity: Vec2, mass: real): (s: Star)
    ensures s.position == position && s.velocity == velocity && s.acceleration == Zero
    ensures s == UpdateMass(s, mass)
  {
    UpdateMass(Star(position, velocity, Zero, 0.0, 0, 0, 0), mass)
  }

  /** Particle.update: semi-implicit Euler. The velocity takes the
      acceleration first, and the position then moves with the new
      velocity; mass, size and acceleration stay. */
  function Update(s: Star, dt: real): (r: Star)
    ensures r.velocity == Add(s.velocity, Scale(dt, s.acceleration))
    ensures r.position == Add(s.position, Scale(dt, r.velocity))
    ensures r.acceleration == s.acceleration && r.mass == s.mass && r.radius == s.radius
    ensures r.scaleRadius == s.scaleRadius && r.blue == s.blue
  {
    var v := Add(s.velocity, Scale(dt, s.acceleration));
    s.(velocity := v, position := Add(s.position, Scale(dt, v)))
  }

  /** Particle.scale_image: the image radius at scale `scale` is
      `max(1, int(radius * scale))`; the flag says the image is redrawn, which happens exactly
      when that value differs from the one drawn last. Nothing but the image
      radius changes. */
  function ScaleImage(s: Star, scale: real): (r: (Star, bool))
    ensures r.0.scaleRadius >= 1
    ensures r.0.scaleRadius == (if Trunc(s.radius as real * scale) < 1 then 1 else Trunc(s.radius as real * scale))
    ensures r.0 == s.(scaleRadius := r.0.scaleRadius)
    ensures r.1 <==> s.scaleRadius != r.0.scaleRadius
  {
    var t := Trunc(s.radius as real * scale);
    var radius := if 1 > t then 1 else t;
    if s.scaleRadius != radius then (s.(scaleRadius := radius), true) else (s, false)
  }

  /** Redrawing at the same scale again changes nothing. */
  lemma ScaleImageSettles(s: Star, scale: real)
    ensures var (t, _) := ScaleImage(s, scale); ScaleImage(t, scale) == (t, false)
  {
  }
}
