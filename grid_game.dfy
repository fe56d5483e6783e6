/** The game of Collision-Simulator/GridGroup/game.py: generate, the
    particle count, the gridding flag and the frame that chooses between
    the grid path and the all-pairs path. The window, the event queue, the
    clock and the random draws are parameters. */
module GridGame {
  import opened Vectors
  import opened Wrappers
  import opened Pairs
  import opened Particle
  import opened Particles
  import opened Grid
  import opened Regrid
  import opened Arenas

  class Game {
    const arena: Arena
    /** `total_num`: the count shown on screen. */
    var totalNum: nat
    /** `gridding`: the grid path chosen by the user. */
    var gridding: bool

    /** The count shown is the number of particles. */
    ghost predicate Valid()
      reads this, arena, arena.particles, arena.grid
    {
      arena.Valid() && totalNum == |arena.particles.bodies|
    }

    /** The set-up of `start`: the group, the grid, one particle, the
        count 1 and gridding off. */
    constructor(width: int, height: int, first: Draw)
      requires DrawOk(first, width, height)
      ensures Valid() && fresh(arena) && fresh(arena.particles) && fresh(arena.grid)
      ensures arena.width == width && arena.height == height
      ensures arena.particles.bodies == [Drawn(first)]
      ensures totalNum == 1 && !gridding
    {
      arena := new Arena(width, height);
      new;
      var id := arena.Spawn(first);
      totalNum := 1;
      gridding := false;
    }

    /** generate(): one particle, joining the group and filed in the box of
        its centre. The count is not touched. */
    method Generate(d: Draw)
      requires arena.Valid() && DrawOk(d, arena.width, arena.height)
      modifies arena.particles, arena.grid
      ensures arena.Valid()
      ensures arena.particles.bodies == old(arena.particles.bodies) + [Drawn(d)]
    {
      var id := arena.Spawn(d);
    }

    /** The P key: the count goes up by 100 and a hundred particles are
        generated, so the count still matches the group. */
    method PressP(draws: seq<Draw>)
      requires Valid() && |draws| == 100
      requires forall k :: 0 <= k < |draws| ==> DrawOk(draws[k], arena.width, arena.height)
      modifies this, arena.particles, arena.grid
      ensures Valid() && gridding == old(gridding)
      ensures totalNum == old(totalNum) + 100
      ensures arena.particles.bodies == old(arena.particles.bodies) + seq(100, k requires 0 <= k < 100 => Drawn(draws[k]))
    {
      ghost var start := arena.particles.bodies;
      totalNum := totalNum + 100;
      var i := 0;
      while i < 100
        invariant 0 <= i <= 100 && arena.Valid() && totalNum == |start| + 100 && gridding == old(gridding)
        invariant arena.particles.bodies == start + seq(i, k requires 0 <= k < i => Drawn(draws[k]))
      {
        Generate(draws[i]);
        assert seq(i + 1, k requires 0 <= k < i + 1 => Drawn(draws[k]))
            == seq(i, k requires 0 <= k < i => Drawn(draws[k])) + [Drawn(draws[i])];
        i := i + 1;
      }
    }

    /** The G key: gridding flips, so two presses restore it. */
    method PressG()
      modifies this
      ensures gridding == !old(gridding) && totalNum == old(totalNum)
    {
      gridding := !gridding;
    }

    /** The work of one frame: the grid path (move, regrid, collide) when
        gridding is on or there are more than 801 particles, otherwise the
        all-pairs path (collide, move). `ok` is false where a collision
        raises. */
    method Frame(dt: real, norm: Vec2 -> real) returns (ok: bool)
      requires Valid() && IsNorm(norm)
      modifies arena.particles, arena.grid
      ensures ok ==> Valid()
      ensures gridding || totalNum > Crowd ==>
        var u := Updated(old(arena.particles.bodies), dt, arena.width as real, arena.height as real);
        !TargetsIn(old(arena.grid.grid), u, BoxSize) ==> !ok && arena.particles.bodies == u
      ensures gridding || totalNum > Crowd ==>
        var u := Updated(old(arena.particles.bodies), dt, arena.width as real, arena.height as real);
        TargetsIn(old(arena.grid.grid), u, BoxSize) ==>
        arena.grid.grid == Regridded(old(arena.grid.grid), u, BoxSize) &&
        Placed(arena.grid.grid, u, BoxSize) && Contents(arena.grid.grid) == Contents(old(arena.grid.grid)) &&
        Outcome(ok, arena.particles.bodies) == Run(u, GridPairs(arena.grid.grid, 0), norm)
      ensures !gridding && totalNum <= Crowd ==>
        arena.grid.grid == old(arena.grid.grid) &&
        Outcome(ok, arena.particles.bodies) == PairsFrame(old(arena.particles.bodies), dt, arena.width as real, arena.height as real, norm)
    {
      if gridding || totalNum > Crowd {
        ok := arena.GridPath(dt, norm);
      } else {
        ok := arena.PairsPath(dt, norm);
      }
    }
  }
}
