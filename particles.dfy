/** The sprite group of the collision simulator's particles
    (Collision-Simulator/Interaction/particle.py objects held in a
    pygame.sprite.Group). A particle is named by its index in the group; the
    in-place updates that particle.py makes to `self.position` and
    `self.velocity` become updates of that index. */
module Particles {
  import opened Vectors
  import opened Wrappers
  import opened Pairs
  import opened Particle

  /** `p1.collide(p2)` for the particles with ids `p.0` and `p.1`: either the
      group with those two particles replaced, or None where Python raises.
      Every other particle is left alone. */
  function CollideAt(bodies: seq<Body>, p: Pair, norm: Vec2 -> real): (r: Option<seq<Body>>)
    requires IsNorm(norm) && p.0 < |bodies| && p.1 < |bodies|
    ensures r.None? <==> CollideCrashes(bodies[p.0], bodies[p.1], norm)
    ensures r.Some? ==> |r.value| == |bodies|
    ensures r.Some? && p.0 != p.1 ==> Collide(bodies[p.0], bodies[p.1], norm) == Some((r.value[p.0], r.value[p.1]))
    ensures r.Some? ==> forall k :: 0 <= k < |bodies| && k != p.0 && k != p.1 ==> r.value[k] == bodies[k]
  {
    match Collide(bodies[p.0], bodies[p.1], norm)
    case None => None
    case Some((c1, c2)) => Some(bodies[p.0 := c1][p.1 := c2])
  }

  /** `p1.collide(p2)` for each pair in turn, each on the particles as the
      earlier collisions left them; None as soon as one of them raises. A
      pair naming a particle outside the group also ends the run with None
      (the source, which pairs particle objects, has no such pair: see
      GridPairsIn and AllPairsOfRange). */
  function Run(bodies: seq<Body>, pairs: seq<Pair>, norm: Vec2 -> real): (r: Option<seq<Body>>)
    requires IsNorm(norm)
    ensures r.Some? ==> |r.value| == |bodies|
    decreases |pairs|
  {
    if |pairs| == 0 then Some(bodies)
    else if !(pairs[0].0 < |bodies| && pairs[0].1 < |bodies|) then None
    else
      match CollideAt(bodies, pairs[0], norm)
      case None => None
      case Some(next) => Run(next, pairs[1..], norm)
  }

  /** The outcome of a pass that reports whether it ran to the end. */
  function Outcome(ok: bool, bodies: seq<Body>): Option<seq<Body>>
  {
    if ok then Some(bodies) else None
  }

  /** Running two lists of pairs one after the other is running their
      concatenation. */
  lemma {:induction false} RunAppend(bodies: seq<Body>, xs: seq<Pair>, ys: seq<Pair>, norm: Vec2 -> real)
    requires IsNorm(norm)
    ensures Run(bodies, xs + ys, norm) == match Run(bodies, xs, norm)
      case None => None
      case Some(next) => Run(next, ys, norm)
    decreases |xs|
  {
    if |xs| != 0 {
      assert (xs + ys)[1..] == xs[1..] + ys;
      assert (xs + ys)[0] == xs[0];
      if xs[0].0 < |bodies| && xs[0].1 < |bodies| {
        match CollideAt(bodies, xs[0], norm)
        case None =>
        case Some(next) =>
          RunAppend(next, xs[1..], ys, norm);
      }
    } else {
      assert xs + ys == ys;
    }
  }

  /** A run that gets through `xs` and ends at `c` continues with `ys` from
      `c`. */
  lemma RunThen(bodies: seq<Body>, xs: seq<Pair>, ys: seq<Pair>, norm: Vec2 -> real, c: seq<Body>)
    requires IsNorm(norm) && Run(bodies, xs, norm) == Some(c)
    ensures Run(bodies, xs + ys, norm) == Run(c, ys, norm)
  {
    RunAppend(bodies, xs, ys, norm);
  }

  /** A run that raises in `xs` raises in `xs + ys`. */
  lemma RunStops(bodies: seq<Body>, xs: seq<Pair>, ys: seq<Pair>, norm: Vec2 -> real)
    requires IsNorm(norm) && Run(bodies, xs, norm) == None
    ensures Run(bodies, xs + ys, norm) == None
  {
    RunAppend(bodies, xs, ys, norm);
  }

  /** Collisions change positions and velocities only: every particle keeps
      its radius, density, mass and elasticity. */
  lemma {:induction false} RunKeepsConstants(bodies: seq<Body>, pairs: seq<Pair>, norm: Vec2 -> real, k: nat)
    requires IsNorm(norm) && Run(bodies, pairs, norm).Some? && k < |bodies|
    ensures var b := Run(bodies, pairs, norm).value[k];
      b.radius == bodies[k].radius && b.density == bodies[k].density
      && b.mass == bodies[k].mass && b.elasticity == bodies[k].elasticity
    decreases |pairs|
  {
    if |pairs| != 0 {
      var next := CollideAt(bodies, pairs[0], norm).value;
      RunKeepsConstants(next, pairs[1..], norm, k);
    }
  }

  /** A particle that occurs in none of the pairs comes out as it went in. */
  lemma {:induction false} RunUntouched(bodies: seq<Body>, pairs: seq<Pair>, norm: Vec2 -> real, k: nat)
    requires IsNorm(norm) && Run(bodies, pairs, norm).Some? && k < |bodies|
    requires forall t :: 0 <= t < |pairs| ==> pairs[t].0 != k && pairs[t].1 != k
    ensures Run(bodies, pairs, norm).value[k] == bodies[k]
    decreases |pairs|
  {
    if |pairs| != 0 {
      var next := CollideAt(bodies, pairs[0], norm).value;
      assert forall t :: 0 <= t < |pairs[1..]| ==> pairs[1..][t] == pairs[t + 1];
      RunUntouched(next, pairs[1..], norm, k);
    }
  }

  /** Every particle after `update(dt)`. */
  function Updated(bodies: seq<Body>, dt: real, width: real, height: real): (r: seq<Body>)
    ensures |r| == |bodies|
    ensures forall k :: 0 <= k < |r| ==> r[k] == Update(bodies[k], dt, width, height)
  {
    seq(|bodies|, k requires 0 <= k < |bodies| => Update(bodies[k], dt, width, height))
  }

  /** pygame.sprite.Group holding the particles, in the window of the given
      size (`pygame.display.get_window_size()`). */
  class ParticleGroup {
    const width: real
    const height: real
    var bodies: seq<Body>

    constructor(width: real, height: real)
      ensures this.width == width && this.height == height && bodies == []
    {
      this.width := width;
      this.height := height;
      bodies := [];
    }

    /** A new particle joins the group and gets the next id. */
    method Add(b: Body) returns (id: nat)
      modifies this
      ensures id == |old(bodies)| && bodies == old(bodies) + [b]
    {
      id := |bodies|;
      bodies := bodies + [b];
    }

    /** `p1.collide(p2)`, updating both particles in place; `ok` is false
        where Python raises. */
    method CollidePair(i: nat, j: nat, norm: Vec2 -> real) returns (ok: bool)
      requires IsNorm(norm) && i < |bodies| && j < |bodies|
      modifies this
      ensures Outcome(ok, bodies) == CollideAt(old(bodies), (i, j), norm)
      ensures !ok ==> bodies == old(bodies)
    {
      var r := Collide(bodies[i], bodies[j], norm);
      if r.None? {
        ok := false;
      } else {
        var (c1, c2) := r.value;
        bodies := bodies[i := c1];
        bodies := bodies[j := c2];
        ok := true;
      }
    }

    /** The inner loop `for p2 in qs: p.collide(p2)`. */
    method CollideWith(p: nat, qs: seq<nat>, norm: Vec2 -> real) returns (ok: bool)
      requires IsNorm(norm) && p < |bodies| && Below(qs, |bodies|)
      modifies this
      ensures |bodies| == |old(bodies)|
      ensures Outcome(ok, bodies) == Run(old(bodies), PairsWith(p, qs), norm)
    {
      ok := true;
      var k := 0;
      while k < |qs| && ok
        invariant 0 <= k <= |qs| && |bodies| == |old(bodies)|
        invariant ok ==> Run(old(bodies), PairsWith(p, qs), norm) == Run(bodies, PairsWith(p, qs[k..]), norm)
        invariant !ok ==> Run(old(bodies), PairsWith(p, qs), norm) == None
        decreases |qs| - k
      {
        PairsWithIndex(p, qs[k..]);
        assert PairsWith(p, qs[k..])[1..] == PairsWith(p, qs[k + 1..]);
        ok := CollidePair(p, qs[k], norm);
        k := k + 1;
      }
      if ok {
        assert qs[k..] == [];
      }
    }

    /** The all-pairs pass of the game loop:
        `for i, p1 in enumerate(list_particles): for p2 in list_particles[i+1:]: p1.collide(p2)`,
        over the particles in group order. */
    method CollideAll(norm: Vec2 -> real) returns (ok: bool)
      requires IsNorm(norm)
      modifies this
      ensures |bodies| == |old(bodies)|
      ensures Outcome(ok, bodies) == Run(old(bodies), AllPairs(Range(0, |old(bodies)|)), norm)
    {
      var ids := Range(0, |bodies|);
      ok := true;
      var i := 0;
      while i < |ids| && ok
        invariant 0 <= i <= |ids| && |bodies| == |old(bodies)|
        invariant ok ==> Run(old(bodies), AllPairs(ids), norm) == Run(bodies, AllPairs(ids[i..]), norm)
        invariant !ok ==> Run(old(bodies), AllPairs(ids), norm) == None
      {
        ghost var before := bodies;
        assert ids[i..][0] == ids[i] && ids[i..][1..] == ids[i + 1..];
        ok := CollideWith(ids[i], ids[i + 1..], norm);
        if ok {
          RunThen(before, PairsWith(ids[i], ids[i + 1..]), AllPairs(ids[i + 1..]), norm, bodies);
        } else {
          RunStops(before, PairsWith(ids[i], ids[i + 1..]), AllPairs(ids[i + 1..]), norm);
        }
        i := i + 1;
      }
      if ok {
        assert ids[i..] == [];
      }
    }

    /** Group.update(dt): `update(dt)` on every particle, in id order. */
    method UpdateAll(dt: real)
      modifies this
      ensures bodies == Updated(old(bodies), dt, width, height)
    {
      var k := 0;
      while k < |bodies|
        invariant 0 <= k <= |bodies| && |bodies| == |old(bodies)|
        invariant forall t :: 0 <= t < k ==> bodies[t] == Update(old(bodies)[t], dt, width, height)
        invariant forall t :: k <= t < |bodies| ==> bodies[t] == old(bodies)[t]
      {
        bodies := bodies[k := Update(bodies[k], dt, width, height)];
        k := k + 1;
      }
    }
  }
}
