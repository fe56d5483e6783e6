/** What both games of the collision simulator (Collision-Simulator/
    Interaction/game.py and Collision-Simulator/GridGroup/game.py) set up in
    `start`: the group of particles, the grid over it with boxes twice the
    largest radius, the random draws of `generate`, and the two ways a frame
    moves the particles. */
module Arenas {
  import opened Numbers
  import opened Vectors
  import opened Wrappers
  import opened Pairs
  import opened Particle
  import opened Particles
  import opened Grid
  import opened Regrid
  import opened GridGroups

  /** `max_radius`: the largest radius generate draws. */
  const MaxRadius: int := 5
  /** The side of a box of the grid, `max_radius * 2`. */
  const BoxSize: real := 10.0
  /** Above this many particles a frame always takes the grid path. */
  const Crowd: nat := 801

  /** The random draws of one particle of generate: the radius, the centre
      `(x, y)`, the speed, the direction `(cos(angle), sin(angle))` and the
      density. */
  datatype Draw = Draw(radius: int, x: int, y: int, speed: int, heading: Vec2, density: int)

  /** The ranges of the draws in a window of `width` by `height` pixels:
      the particle lies inside the window. */
  predicate DrawOk(d: Draw, width: int, height: int)
  {
    2 <= d.radius <= MaxRadius &&
    d.radius <= d.x <= width - d.radius && d.radius <= d.y <= height - d.radius &&
    100 <= d.speed <= 200 && LengthSquared(d.heading) == 1.0 &&
    1 <= d.density <= 20
  }

  /** The particle generate makes of the draws `d`. */
  function Drawn(d: Draw): Body
  {
    NewBody(Vec2(d.x as real, d.y as real), Scale(d.speed as real, d.heading), d.radius as real, d.density as real)
  }

  /** A drawn particle lies inside the window, so its box is in the grid;
      its radius is at most `max_radius`, its mass between 4 and 500 and its
      speed between 100 and 200. */
  lemma DrawnBody(d: Draw, width: int, height: int)
    requires DrawOk(d, width, height)
    ensures var b := Drawn(d);
      b.radius <= b.position.x <= width as real - b.radius &&
      b.radius <= b.position.y <= height as real - b.radius &&
      2.0 <= b.radius <= MaxRadius as real && 4.0 <= b.mass <= 500.0 &&
      10000.0 <= LengthSquared(b.velocity) <= 40000.0
  {
    MassRange(d.radius, d.density);
    var v := d.speed as real;
    LengthSquaredScale(v, d.heading);
    SpeedRange(v);
  }

  /** `density * radius²` for a radius of 2 to 5 and a density of 1 to 20. */
  lemma MassRange(r: int, m: int)
    requires 2 <= r <= 5 && 1 <= m <= 20
    ensures 4.0 <= m as real * (r as real * r as real) <= 500.0
  {
    assert 4 <= r * r <= 25 by {
      assert 2 * 2 <= r * 2 <= r * r;
      assert r * r <= r * 5 <= 5 * 5;
    }
    assert 4 <= m * (r * r) <= 500 by {
      assert 1 * 4 <= m * 4 <= m * (r * r);
      assert m * (r * r) <= 20 * (r * r) <= 20 * 25;
    }
    assert (m * (r * r)) as real == m as real * (r as real * r as real);
  }

  lemma SpeedRange(v: real)
    requires 100.0 <= v <= 200.0
    ensures 10000.0 <= v * v <= 40000.0
  {
    assert 100.0 * 100.0 <= v * 100.0 <= v * v;
    assert v * v <= v * 200.0 <= 200.0 * 200.0;
  }

  /** Every particle has a radius of at most `max_radius`. */
  predicate Small(bodies: seq<Body>)
  {
    forall k :: 0 <= k < |bodies| ==> bodies[k].radius <= MaxRadius as real
  }

  lemma SmallSnoc(bodies: seq<Body>, b: Body)
    requires Small(bodies) && b.radius <= MaxRadius as real
    ensures Small(bodies + [b])
  {
  }

  /** A drawn particle joining a group of small ones keeps the group
      small and has its box in a grid that covers the window. */
  lemma DrawnFits(g: Cells, bodies: seq<Body>, d: Draw, width: int, height: int, nrow: nat, ncol: nat)
    requires DrawOk(d, width, height) && Small(bodies) && Shaped(g, nrow, ncol)
    requires nrow == Trunc(width as real / BoxSize) + 1 && ncol == Trunc(height as real / BoxSize) + 1
    ensures Fits(g, bodies + [Drawn(d)], BoxSize, |bodies|) && Small(bodies + [Drawn(d)])
  {
    var b := Drawn(d);
    assert b.position == Vec2(d.x as real, d.y as real) && b.radius == d.radius as real;
    SmallSnoc(bodies, b);
    SpawnFits(g, bodies + [b], BoxSize, width as real, height as real, nrow, ncol, |bodies|);
  }

  /** Filing the next id in a grid that holds the ids below it gives a
      grid that holds the ids up to it, each once. */
  lemma FiledRange(g: Cells, row: int, col: int, id: nat)
    requires InRange(g, row, col) && Contents(g) == multiset(Range(0, id))
    ensures Contents(Filed(g, row, col, id)) == multiset(Range(0, id + 1))
  {
    FiledContents(g, row, col, id);
    RangeSnoc(id);
  }

  /** The ids up to `id` are those below it and `id` itself. */
  lemma RangeSnoc(id: nat)
    ensures multiset(Range(0, id + 1)) == multiset(Range(0, id)) + multiset{id}
  {
    assert Range(0, id + 1) == Range(0, id) + [id];
  }

  /** A coordinate difference whose square is at most that of a length
      below 10 is itself below 10 either way. */
  lemma AxisWithin(t: real, n: real)
    requires 0.0 <= n < 10.0 && t * t <= n * n
    ensures -10.0 < t < 10.0
  {
    if t >= 10.0 {
      SquareMonotone(n, t);
      assert false;
    } else if t <= -10.0 {
      var u := -t;
      assert u * u == t * t;
      SquareMonotone(n, u);
      assert false;
    }
  }

  /** Two particles of radius at most `max_radius` that overlap are less
      than `2 * max_radius` apart on each axis, so their boxes are the same
      or adjacent. */
  lemma OverlapNear(b1: Body, b2: Body, norm: Vec2 -> real)
    requires IsNorm(norm) && b1.radius <= MaxRadius as real && b2.radius <= MaxRadius as real
    requires Overlap(b1, b2, norm) > 0.0
    ensures Neighbours(CellOf(b1, BoxSize).0, CellOf(b1, BoxSize).1, CellOf(b2, BoxSize).0, CellOf(b2, BoxSize).1)
  {
    var d := Sub(b1.position, b2.position);
    var n := norm(d);
    assert 0.0 <= n < 10.0;
    assert n * n == d.x * d.x + d.y * d.y;
    LengthSquaredNonNegative(Vec2(d.y, 0.0));
    LengthSquaredNonNegative(Vec2(d.x, 0.0));
    AxisWithin(d.x, n);
    AxisWithin(d.y, n);
    TruncClose(b1.position.x / BoxSize, b2.position.x / BoxSize);
    TruncClose(b1.position.y / BoxSize, b2.position.y / BoxSize);
  }

  /** The ids `0, ..., n - 1` each occur once, and no other id occurs. */
  lemma RangeCount(n: nat, x: nat)
    ensures multiset(Range(0, n))[x] == if x < n then 1 else 0
  {
    var s := Range(0, n);
    if x < n {
      RangeDistinct(0, n);
      CountDistinct(s, x);
      assert s[x] == x;
    } else {
      assert x !in s;
    }
  }

  /** A grid filing exactly the ids `0, ..., n - 1` names only particles of
      the group. */
  lemma RangeBelow(g: Cells, n: nat)
    requires Contents(g) == multiset(Range(0, n))
    ensures GridBelow(g, n)
  {
    forall r, c, k | InRange(g, r, c) && 0 <= k < |g[r][c]|
      ensures g[r][c][k] < n
    {
      BoxInContents(g, r, c);
      assert g[r][c][k] in multiset(g[r][c]);
      RangeCount(n, g[r][c][k]);
    }
  }

  /** A grid filing each id of the group once, each in the box of its
      position, hands every pair of overlapping particles of radius at most
      `max_radius` to collide exactly once, in one order or the other. */
  lemma GridMeetsOverlaps(g: Cells, bodies: seq<Body>, norm: Vec2 -> real, a: nat, b: nat)
    requires IsNorm(norm) && Contents(g) == multiset(Range(0, |bodies|))
    requires Placed(g, bodies, BoxSize) && Small(bodies)
    requires a < |bodies| && b < |bodies| && a != b && Overlap(bodies[a], bodies[b], norm) > 0.0
    ensures multiset(GridPairs(g, 0))[(a, b)] + multiset(GridPairs(g, 0))[(b, a)] == 1
  {
    forall x ensures Contents(g)[x] <= 1 {
      RangeCount(|bodies|, x);
    }
    RangeCount(|bodies|, a);
    RangeCount(|bodies|, b);
    InContents(g, a);
    var ra, ca, ka :| At(g, a, ra, ca, ka);
    InContents(g, b);
    var rb, cb, kb :| At(g, b, rb, cb, kb);
    assert CellOf(bodies[a], BoxSize) == (ra, ca);
    assert CellOf(bodies[b], BoxSize) == (rb, cb);
    OverlapNear(bodies[a], bodies[b], norm);
    GridPairsExactlyOnce(g, a, b, ra, ca, ka, rb, cb, kb);
  }

  /** On the grid path, every pair of particles that overlap once the
      particles have moved is handed to collide exactly once, in one order
      or the other: boxes of twice the largest radius are wide enough. */
  lemma GridPathMeetsOverlaps(g: Cells, before: seq<Body>, dt: real, width: real, height: real,
                              norm: Vec2 -> real, a: nat, b: nat)
    requires IsNorm(norm) && Contents(g) == multiset(Range(0, |before|)) && Small(before)
    requires Placed(g, Updated(before, dt, width, height), BoxSize)
    requires a < |before| && b < |before| && a != b
    requires Overlap(Updated(before, dt, width, height)[a], Updated(before, dt, width, height)[b], norm) > 0.0
    ensures multiset(GridPairs(g, 0))[(a, b)] + multiset(GridPairs(g, 0))[(b, a)] == 1
  {
    GridMeetsOverlaps(g, Updated(before, dt, width, height), norm, a, b);
  }

  /** The all-pairs path of a frame: every pair `i < j` collides once, in
      id order, and then every particle moves and bounces; None where a
      collision raises. */
  function PairsFrame(bodies: seq<Body>, dt: real, width: real, height: real, norm: Vec2 -> real): Option<seq<Body>>
    requires IsNorm(norm)
  {
    match Run(bodies, AllPairs(Range(0, |bodies|)), norm)
    case None => None
    case Some(c) => Some(Updated(c, dt, width, height))
  }

  /** The all-pairs path keeps the number of particles and their radii. */
  lemma PairsFrameKeeps(bodies: seq<Body>, dt: real, width: real, height: real, norm: Vec2 -> real)
    requires IsNorm(norm) && PairsFrame(bodies, dt, width, height, norm).Some?
    ensures var r := PairsFrame(bodies, dt, width, height, norm).value;
      |r| == |bodies| && forall k :: 0 <= k < |r| ==> r[k].radius == bodies[k].radius
  {
    var c := Run(bodies, AllPairs(Range(0, |bodies|)), norm).value;
    forall k | 0 <= k < |bodies|
      ensures c[k].radius == bodies[k].radius
    {
      RunKeepsConstants(bodies, AllPairs(Range(0, |bodies|)), norm, k);
    }
  }

  /** The grid path keeps the radii too: moving and bouncing do, and so
      does every collision. */
  lemma GridFrameKeeps(bodies: seq<Body>, pairs: seq<Pair>, dt: real, width: real, height: real, norm: Vec2 -> real)
    requires IsNorm(norm) && Run(Updated(bodies, dt, width, height), pairs, norm).Some?
    ensures var r := Run(Updated(bodies, dt, width, height), pairs, norm).value;
      |r| == |bodies| && forall k :: 0 <= k < |r| ==> r[k].radius == bodies[k].radius
  {
    var u := Updated(bodies, dt, width, height);
    forall k | 0 <= k < |bodies|
      ensures Run(u, pairs, norm).value[k].radius == bodies[k].radius
    {
      RunKeepsConstants(u, pairs, norm, k);
    }
  }

  /** The particles of a game and the grid over them, in a window of
      `width` by `height` pixels. */
  class Arena {
    const width: int
    const height: int
    const particles: ParticleGroup
    const grid: GridGroup

    /** The grid covers the window with boxes of side 10 and files every
        particle of the group exactly once. */
    ghost predicate Valid()
      reads this, particles, grid
    {
      0 <= width && 0 <= height &&
      particles.width == width as real && particles.height == height as real &&
      grid.particles == particles && grid.Valid() && grid.size == BoxSize &&
      grid.nrow == Trunc(particles.width / BoxSize) + 1 &&
      grid.ncol == Trunc(particles.height / BoxSize) + 1 &&
      Contents(grid.grid) == multiset(Range(0, |particles.bodies|)) &&
      Small(particles.bodies)
    }

    /** `particles = pygame.sprite.Group()` and `grid = GridGroup(max_radius * 2)`. */
    constructor(width: int, height: int)
      requires 0 <= width && 0 <= height
      ensures Valid() && fresh(particles) && fresh(grid)
      ensures this.width == width && this.height == height && particles.bodies == []
    {
      this.width, this.height := width, height;
      var group := new ParticleGroup(width as real, height as real);
      particles := group;
      grid := new GridGroup(group, BoxSize);
    }

    /** One particle of generate: it joins the group and is filed in the
        box of its centre. */
    method Spawn(d: Draw) returns (id: nat)
      requires Valid() && DrawOk(d, width, height)
      modifies particles, grid
      ensures Valid()
      ensures id == |old(particles.bodies)| && particles.bodies == old(particles.bodies) + [Drawn(d)]
      ensures grid.grid == Filed(old(grid.grid), CellOf(Drawn(d), BoxSize).0, CellOf(Drawn(d), BoxSize).1, id)
    {
      var b := Drawn(d);
      ghost var g := grid.grid;
      DrawnFits(g, particles.bodies, d, width, height, grid.nrow, grid.ncol);
      id := particles.Add(b);
      grid.Add2Grid(id);
      FiledRange(g, CellOf(b, BoxSize).0, CellOf(b, BoxSize).1, id);
    }

    /** The grid path, `grid.update(dt)`: move and bounce, regrid, then
        collide over the boxes. When a particle has moved to a position
        outside the grid, regrid fails and so does the frame. Otherwise
        every particle of the group is afterwards filed in the box of its
        position before the collisions. */
    method GridPath(dt: real, norm: Vec2 -> real) returns (ok: bool)
      requires Valid() && IsNorm(norm)
      modifies particles, grid
      ensures ok ==> Valid()
      ensures grid.Valid()
      ensures var moved := Updated(old(particles.bodies), dt, width as real, height as real);
        !TargetsIn(old(grid.grid), moved, BoxSize) ==> !ok && particles.bodies == moved
      ensures var moved := Updated(old(particles.bodies), dt, width as real, height as real);
        TargetsIn(old(grid.grid), moved, BoxSize) ==>
          && Contents(grid.grid) == Contents(old(grid.grid))
          && grid.grid == Regridded(old(grid.grid), moved, BoxSize)
          && Placed(grid.grid, moved, BoxSize)
          && Outcome(ok, particles.bodies) == Run(moved, GridPairs(grid.grid, 0), norm)
    {
      ghost var g, start := grid.grid, particles.bodies;
      ghost var u := Updated(start, dt, particles.width, particles.height);
      RangeBelow(g, |start|);
      ok := grid.Update(dt, norm);
      if TargetsIn(g, u, BoxSize) {
        RegridPlaces(g, u, BoxSize);
        if ok {
          GridFrameKeeps(start, GridPairs(grid.grid, 0), dt, particles.width, particles.height, norm);
        }
      }
    }

    /** The all-pairs path: every pair `i < j` collides once, in id order,
        then `particles.update(dt)`; the grid is not touched. */
    method PairsPath(dt: real, norm: Vec2 -> real) returns (ok: bool)
      requires Valid() && IsNorm(norm)
      modifies particles
      ensures ok ==> Valid()
      ensures Outcome(ok, particles.bodies) == PairsFrame(old(particles.bodies), dt, width as real, height as real, norm)
    {
      ghost var start := particles.bodies;
      ok := particles.CollideAll(norm);
      if ok {
        particles.UpdateAll(dt);
        PairsFrameKeeps(start, dt, particles.width, particles.height, norm);
      }
    }
  }
}
