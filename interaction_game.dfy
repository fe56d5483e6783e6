/** The game of Collision-Simulator/Interaction/game.py: generate, the
    gridding switch and the frame that chooses between the grid path and
    the all-pairs path. The window, the event queue, the clock and the
    random draws are parameters. */
module InteractionGame {
  import opened Vectors
  import opened Wrappers
  import opened Pairs
  import opened Particle
  import opened Particles
  import opened Grid
  import opened Regrid
  import opened GridGroups
  import opened Arenas

  /** The "Gridding" switch of the game (Switch in Interaction/ui.py):
      whether the grid path is on, and whether the user may flip it. */
  class Switch {
    var isOn: bool
    var isAvailable: bool

    constructor()
      ensures !isOn && isAvailable
    {
      isOn := false;
      isAvailable := true;
    }

    /** switch(): flips the state, but only while the switch is available;
        two flips in a row restore it. */
    method Toggle()
      modifies this
      ensures isAvailable == old(isAvailable)
      ensures isAvailable ==> isOn == !old(isOn)
      ensures !isAvailable ==> isOn == old(isOn)
    {
      if isAvailable {
        isOn := !isOn;
      }
    }
  }

  class Game {
    const arena: Arena
    const gridSwitch: Switch

    ghost predicate Valid()
      reads this, arena, arena.particles, arena.grid
    {
      arena.Valid()
    }

    /** The set-up of `start`: the group, the grid, one particle, and the
        switch turned off. */
    constructor(width: int, height: int, first: Draw)
      requires DrawOk(first, width, height)
      ensures Valid() && fresh(arena) && fresh(arena.particles) && fresh(arena.grid) && fresh(gridSwitch)
      ensures arena.width == width && arena.height == height
      ensures arena.particles.bodies == [Drawn(first)]
      ensures !gridSwitch.isOn && gridSwitch.isAvailable
    {
      arena := new Arena(width, height);
      gridSwitch := new Switch();
      new;
      Generate([first]);
      assert arena.particles.bodies[0] == Drawn([first][0]);
    }

    /** generate(num): `num` particles, one per draw, each joining the
        group and filed in the box of its centre. */
    method Generate(draws: seq<Draw>)
      requires Valid()
      requires forall k :: 0 <= k < |draws| ==> DrawOk(draws[k], arena.width, arena.height)
      modifies arena.particles, arena.grid
      ensures Valid()
      ensures |arena.particles.bodies| == |old(arena.particles.bodies)| + |draws|
      ensures arena.particles.bodies[..|old(arena.particles.bodies)|] == old(arena.particles.bodies)
      ensures forall k :: 0 <= k < |draws| ==> arena.particles.bodies[|old(arena.particles.bodies)| + k] == Drawn(draws[k])
    {
      ghost var n0, start := |arena.particles.bodies|, arena.particles.bodies;
      var k := 0;
      while k < |draws|
        invariant 0 <= k <= |draws| && Valid()
        invariant |arena.particles.bodies| == n0 + k && arena.particles.bodies[..n0] == start
        invariant forall i :: 0 <= i < k ==> arena.particles.bodies[n0 + i] == Drawn(draws[i])
      {
        ghost var before := arena.particles.bodies;
        var id := arena.Spawn(draws[k]);
        assert arena.particles.bodies[..n0] == before[..n0];
        k := k + 1;
      }
    }

    /** The P key: a hundred particles more. */
    method PressP(draws: seq<Draw>)
      requires Valid() && |draws| == 100
      requires forall k :: 0 <= k < |draws| ==> DrawOk(draws[k], arena.width, arena.height)
      modifies arena.particles, arena.grid
      ensures Valid()
      ensures |arena.particles.bodies| == |old(arena.particles.bodies)| + 100
      ensures arena.particles.bodies[..|old(arena.particles.bodies)|] == old(arena.particles.bodies)
      ensures forall k :: 0 <= k < 100 ==> arena.particles.bodies[|old(arena.particles.bodies)| + k] == Drawn(draws[k])
    {
      Generate(draws);
    }

    /** The G key: the switch flips if it is available. */
    method PressG()
      modifies gridSwitch
      ensures gridSwitch.isAvailable == old(gridSwitch.isAvailable)
      ensures gridSwitch.isOn == (if old(gridSwitch.isAvailable) then !old(gridSwitch.isOn) else old(gridSwitch.isOn))
    {
      gridSwitch.Toggle();
    }

    /** The work of one frame. Above 801 particles the switch is forced on
        and locked; otherwise it is unlocked and keeps its state. Then the
        grid path (move, regrid, collide) runs when the switch is on, and
        the all-pairs path (collide, move) when it is off. `ok` is false
        where a collision raises. */
    method Frame(dt: real, norm: Vec2 -> real) returns (ok: bool)
      requires Valid() && IsNorm(norm)
      modifies gridSwitch, arena.particles, arena.grid
      ensures ok ==> Valid()
      ensures |old(arena.particles.bodies)| > Crowd ==> gridSwitch.isOn && !gridSwitch.isAvailable
      ensures |old(arena.particles.bodies)| <= Crowd ==> gridSwitch.isAvailable && gridSwitch.isOn == old(gridSwitch.isOn)
      ensures gridSwitch.isOn ==> var u := Updated(old(arena.particles.bodies), dt, arena.width as real, arena.height as real);
        !TargetsIn(old(arena.grid.grid), u, BoxSize) ==> !ok && arena.particles.bodies == u
      ensures gridSwitch.isOn ==> var u := Updated(old(arena.particles.bodies), dt, arena.width as real, arena.height as real);
        TargetsIn(old(arena.grid.grid), u, BoxSize) ==>
        arena.grid.grid == Regridded(old(arena.grid.grid), u, BoxSize) &&
        Placed(arena.grid.grid, u, BoxSize) && Contents(arena.grid.grid) == Contents(old(arena.grid.grid)) &&
        Outcome(ok, arena.particles.bodies) == Run(u, GridPairs(arena.grid.grid, 0), norm)
      ensures !gridSwitch.isOn ==>
        arena.grid.grid == old(arena.grid.grid) &&
        Outcome(ok, arena.particles.bodies) == PairsFrame(old(arena.particles.bodies), dt, arena.width as real, arena.height as real, norm)
    {
      var totalNum := |arena.particles.bodies|;
      if totalNum > Crowd {
        gridSwitch.isOn := true;
        gridSwitch.isAvailable := false;
      } else {
        gridSwitch.isAvailable := true;
      }
      if gridSwitch.isOn {
        ok := arena.GridPath(dt, norm);
      } else {
        ok := arena.PairsPath(dt, norm);
      }
    }
  }
}
