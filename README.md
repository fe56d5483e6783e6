# Pygame-On-Web simulators in Dafny

This project models the simulation core of two small pygame programs and
proves properties of the model:

- **Collision simulator.** Round particles move and bounce off the walls of
  the window. Overlapping particles collide elastically (a coefficient of
  0.95) and are pushed apart. Each frame finds the colliding pairs in one of
  two ways:
  - the *all-pairs path* tries every pair `i < j`;
  - the *grid path* files the particles in a uniform grid of boxes
    (`GridGroup`) and tries only the pairs in the same box or in adjacent
    boxes.

  There are two games:
  - `Interaction/game.py` has a "Gridding" switch that is forced on above
    801 particles.
  - `GridGroup/game.py` has a `gridding` flag and a particle count.

  An earlier particle, `Particle/particle.py`, only bounces.
- **Nebula simulator.** Stars attract each other by gravity. A pass over
  every pair either merges two touching stars (the heavier absorbs the
  lighter, so mass and momentum are conserved) or adds their mutual
  attraction to their accelerations. The absorbed stars are removed after
  the pass and the survivors move by semi-implicit Euler integration. A
  camera maps world coordinates to the screen and back, can lock on a star,
  and is moved by the keyboard and the mouse. The game has a speed control
  and a pause.

Modelling choices:

- **Particles and stars are ids into a registry.**
  - A group is a class holding a `seq` of values (`ParticleGroup.bodies`,
    `NebulaGroup.stars`).
  - The in-place updates of the Python objects become updates of that
    sequence.
  - A grid box is a `seq<nat>` of ids.
- **Real arithmetic.** Positions, velocities and masses are `real`.
  - Python `int()` on a float is `Trunc`, which truncates toward zero.
  - `length()` is a parameter `norm`. The predicate `IsNorm` constrains it to
    be the non-negative square root of the squared length.
- **Classes for stateful code.** Code that updates objects in place is a
  class whose methods are proved against specification functions:
  - `GridGroup` against `Regridded`/`GridPairs`/`Run`;
  - `NebulaGroup` against `Stepped`;
  - `Camera` and the games against their own contracts.
- **Errors.** Python raises `ZeroDivisionError` in `Particle.collide` when
  two overlapping particles have coincident centres or masses summing to
  zero. This becomes a `None` result (`Collide`, `Run`), and the looping
  methods return `ok == false`.

## Model

| member | source | states |
|---|---|---|
| Numbers.Trunc | Pygame-On-Web/Collision-Simulator/Interaction/grid.py:23-24 | `int()` of a float truncates toward zero. For `x >= 0` the result is the largest integer at most `x`. For `x < 0` it is the smallest integer at least `x`. |
| Numbers.ClampInt | Pygame-On-Web/Nebula-Simulator/game.py:73 | `max(lo, min(x, hi))` lies in `[lo, hi]`. It is `x` inside the range, `lo` below it and `hi` above it. |
| Numbers.ClampReal | Pygame-On-Web/Nebula-Simulator/camera.py:92-93 | The same clamp on reals. |
| Numbers.TruncMonotone | Pygame-On-Web/Collision-Simulator/Interaction/grid.py:23-24 | A particle further right or further down never maps to an earlier row or column: `int()` is monotone. |
| Vectors.ScaleToLength | Pygame-On-Web/Collision-Simulator/Interaction/particle.py:72 | `scale_to_length(len)` of a non-zero vector has squared length `len²` and points along the vector (`norm(v) * r == len * v`). |
| Particle.NewBody | Pygame-On-Web/Collision-Simulator/Interaction/particle.py:7-14 | A new particle has the given position, velocity, radius and density, mass `density * radius²` and elasticity 0.95. |
| Particle.BounceAxis | Pygame-On-Web/Collision-Simulator/Interaction/particle.py:34-41 | One axis of bounce. A coordinate inside the bounds is untouched. One below `lo` is mirrored about `lo` and leaves with a velocity `>= 0`. One above `hi` is mirrored about `hi` and leaves with a velocity `<= 0`. The speed on the axis is kept. An overshoot no wider than the band ends up inside it. |
| Particle.BounceAxisIdempotent | Pygame-On-Web/Collision-Simulator/Particle/particle.py:27-34 | A particle already moving inward is not reflected again: bouncing twice is bouncing once. |
| Particle.Bounce | Pygame-On-Web/Collision-Simulator/Interaction/particle.py:26-50 | The x and y axes are bounced independently between `radius` and `dimension - radius`. Radius, density, mass and elasticity do not change. |
| Particle.Update | Pygame-On-Web/Collision-Simulator/Interaction/particle.py:76-78 | Update integrates `position += velocity * dt` and then bounces; radius, mass and elasticity are kept. |
| Particle.ImpulseFactors | Pygame-On-Web/Collision-Simulator/Interaction/particle.py:66-67 | The two impulse factors have equal mass-weighted values. Their sum times `\|r1 - r2\|²` is twice the relative normal velocity. |
| Particle.ReboundMomentum | Pygame-On-Web/Collision-Simulator/Interaction/particle.py:66-67 | Before scaling, `m1 v1n + m2 v2n = m1 v1 + m2 v2`. |
| Particle.ReboundReflects | Pygame-On-Web/Collision-Simulator/Interaction/particle.py:66-67 | Before scaling, `(v1n - v2n).(r1 - r2) = -(v1 - v2).(r1 - r2)`. |
| Particle.ReboundEnergy | Pygame-On-Web/Collision-Simulator/Interaction/particle.py:66-67 | Before scaling, the kinetic energy `m1 \|v1\|² + m2 \|v2\|²` is kept. |
| Particle.Collide | Pygame-On-Web/Collision-Simulator/Interaction/particle.py:52-74 | Particles that do not overlap are returned unchanged. The result is None exactly when Python raises: the particles overlap and either their masses sum to 0 or their centres coincide. Only positions and velocities change. |
| Particle.CollideMomentum | Pygame-On-Web/Collision-Simulator/Interaction/particle.py:66-70 | After a collision of overlapping particles, `m1 v1' + m2 v2' = 0.95 (m1 v1 + m2 v2)`. |
| Particle.CollideReflects | Pygame-On-Web/Collision-Simulator/Interaction/particle.py:66-70 | After the collision the relative normal velocity is `-0.95` times what it was. |
| Particle.CollideEnergy | Pygame-On-Web/Collision-Simulator/Interaction/particle.py:66-70 | After the collision the kinetic energy is `0.95²` times what it was. |
| Particle.CollideSeparates | Pygame-On-Web/Collision-Simulator/Interaction/particle.py:72-74 | After the collision the centres are exactly `r1 + r2` apart (in squared length and in `norm`). The sum `p1 + p2` (the midpoint) is unchanged. |
| Particle.PushedApart | Pygame-On-Web/Collision-Simulator/Interaction/particle.py:72-74 | Moving each particle by half the separation rescaled to the overlap leaves the centres `r1 + r2` apart with the same midpoint. |
| Particle.CollideAlongCentres | Pygame-On-Web/Collision-Simulator/Interaction/particle.py:66-74 | The impulse and the push act along the line of centres `r1 - r2`. Beyond the common 0.95 scaling, each velocity changes by a multiple of `r1 - r2`, so the tangential components are only scaled. Each particle is displaced along `r1 - r2`, away from the other. |
| Particle.CollideSymmetric | Pygame-On-Web/Collision-Simulator/Interaction/particle.py:52-74 | For particles of equal elasticity, `p2.collide(p1)` gives the same two particles as `p1.collide(p2)`, and it crashes exactly when `p1.collide(p2)` does. |
| Balls.Ball.constructor | Pygame-On-Web/Collision-Simulator/Particle/particle.py:4-10 | A ball starts with the given position, radius and velocity. |
| Balls.Ball.Bounce | Pygame-On-Web/Collision-Simulator/Particle/particle.py:19-43 | The in-place bounce updates each axis as BounceAxis describes. |
| Balls.Ball.Update | Pygame-On-Web/Collision-Simulator/Particle/particle.py:45-47 | The in-place update moves by `velocity * dt` and then bounces each axis. |
| Particles.CollideAt | Pygame-On-Web/Collision-Simulator/Interaction/particle.py:52-74 | Colliding the particles with ids `i` and `j` in the group replaces exactly those two by Collide's result and leaves every other particle alone. It is None exactly when Collide crashes. |
| Particles.Run | Pygame-On-Web/Collision-Simulator/Interaction/game.py:133-136 | Running a list of pairs collides each in turn on the state the earlier ones left. It keeps the number of particles. |
| Particles.RunAppend | Pygame-On-Web/Collision-Simulator/Interaction/game.py:133-136 | Running two lists one after the other is running their concatenation. |
| Particles.RunKeepsConstants | Pygame-On-Web/Collision-Simulator/Interaction/particle.py:10-14 | No collision changes a particle's radius, density, mass or elasticity. |
| Particles.RunUntouched | Pygame-On-Web/Collision-Simulator/Interaction/game.py:133-136 | A particle that takes part in none of the pairs comes out of a run unchanged. |
| Particles.Updated | Pygame-On-Web/Collision-Simulator/Interaction/game.py:139 | `particles.update(dt)` applies Particle.Update to every particle. |
| Particles.ParticleGroup.constructor | Pygame-On-Web/Collision-Simulator/Interaction/game.py:69 | A new group is empty and knows the window size. |
| Particles.ParticleGroup.Add | Pygame-On-Web/Collision-Simulator/Interaction/game.py:53 | A new particle joins the group and gets the next id. |
| Particles.ParticleGroup.CollidePair | Pygame-On-Web/Collision-Simulator/Interaction/particle.py:52-74 | The in-place collide of two particles has the effect CollideAt describes. A crash changes nothing. |
| Particles.ParticleGroup.CollideWith | Pygame-On-Web/Collision-Simulator/Interaction/grid.py:73-74 | The loop `for p2 in qs: p.collide(p2)` has the effect of Run over the pairs `(p, q)` in order. |
| Particles.ParticleGroup.CollideAll | Pygame-On-Web/Collision-Simulator/Interaction/game.py:133-136 | The all-pairs loop has the effect of Run over `AllPairs` of the ids in group order. |
| Particles.ParticleGroup.UpdateAll | Pygame-On-Web/Collision-Simulator/Interaction/game.py:139 | `particles.update(dt)` leaves the group equal to Updated of the old group. |
| Pairs.AllPairsExactlyOnce | Pygame-On-Web/Collision-Simulator/Interaction/game.py:133-136 | In a list of distinct ids, the pair `(s[i], s[j])` is visited once if `i < j` and never otherwise. |
| Pairs.AllPairsOfRange | Pygame-On-Web/Collision-Simulator/GridGroup/game.py:113-116 | Over the ids `0..n-1`, every pair `i < j < n` is visited exactly once and no other pair is visited. |
| Grid.AdjoinPartition | Pygame-On-Web/Collision-Simulator/GridGroup/grid.py:44 | The offsets `(1,-1),(1,0),(1,1),(0,1)` are the forward ones. An offset and its negation are never both forward. Together they cover the eight neighbour offsets. |
| Grid.GridPairsExactlyOnce | Pygame-On-Web/Collision-Simulator/Interaction/grid.py:54-74 | In a grid filing each id at most once, collide visits two distinct filed particles once, in one order or the other, if their boxes are the same or adjacent, and never otherwise. |
| Grid.GridPairsNoSelf | Pygame-On-Web/Collision-Simulator/Interaction/grid.py:61-64 | No particle is ever paired with itself. |
| Grid.GridPairsIn | Pygame-On-Web/Collision-Simulator/Interaction/grid.py:67-74 | Every pair collide visits names particles of the group. Boxes outside the grid are skipped by `in_grid`. |
| Regrid.FiledBoxes | Pygame-On-Web/Collision-Simulator/Interaction/grid.py:21-25 | add2grid appends the id to its box and changes no other box. |
| Regrid.FiledContents | Pygame-On-Web/Collision-Simulator/Interaction/grid.py:21-25 | add2grid adds exactly one copy of the id to the grid's contents. |
| Regrid.SplitBox | Pygame-On-Web/Collision-Simulator/Interaction/grid.py:41-47 | The scan of a box splits it into the leavers (`outside`) and the stayers, losing nothing. |
| Regrid.Outside | Pygame-On-Web/Collision-Simulator/Interaction/grid.py:40-47 | The `outside` buffer of a box holds only particles that no longer belong to that box. |
| Regrid.Inside | Pygame-On-Web/Collision-Simulator/Interaction/grid.py:40-47 | The particles a box keeps all belong to that box. |
| Regrid.FileAllContents | Pygame-On-Web/Collision-Simulator/Interaction/grid.py:49 | Appending the leavers to their new boxes adds exactly them to the contents. |
| Regrid.RemoveFirst | Pygame-On-Web/Collision-Simulator/Interaction/grid.py:52 | `list.remove(x)` shortens the list by one when `x` is in it and leaves it alone otherwise. |
| Regrid.RemoveOutside | Pygame-On-Web/Collision-Simulator/Interaction/grid.py:51-52 | Removing the leavers one by one after the scan leaves exactly the stayers, in order. |
| Regrid.Refiled | Pygame-On-Web/Collision-Simulator/Interaction/grid.py:38-52 | Regridding one box, whenever every particle of the box maps to a box of the grid, keeps the grid's shape and contents. Every filed particle maps to a box afterwards iff it did before. |
| Regrid.BoxMisfit | Pygame-On-Web/Collision-Simulator/GridGroup/grid.py:34-39 | A box holding a particle whose position maps outside the grid means that not every filed particle fits, so the scan of that box cannot succeed. |
| Regrid.RefiledKeeps | Pygame-On-Web/Collision-Simulator/Interaction/grid.py:45 | A particle already in its correct box stays there. |
| Regrid.RefiledSettles | Pygame-On-Web/Collision-Simulator/Interaction/grid.py:38-52 | Scanning the boxes in order settles each box without unsettling the earlier ones: the leavers go where they belong and each box keeps only its own particles. |
| Regrid.RegridPlaces | Pygame-On-Web/Collision-Simulator/Interaction/grid.py:34-52 | regrid keeps the grid's shape and the multiset of filed ids. Afterwards every filed particle is in the box of its position. |
| Regrid.PlacedTargets | Pygame-On-Web/Collision-Simulator/GridGroup/grid.py:29-41 | A grid in which every particle sits in the box of its position holds only particles that map to a box of the grid. A regrid that ran to its end therefore started from such a grid. |
| Regrid.RegridSole | Pygame-On-Web/Collision-Simulator/Interaction/grid.py:34-52 | A particle filed once before regrid is filed once after it, in the box of its position. |
| Regrid.ScanBox | Pygame-On-Web/Collision-Simulator/Interaction/grid.py:41-49 | The scan loop fails exactly when a particle of the box maps outside the grid, where `self.grid[now_row][now_col]` raises or wraps a negative index. Otherwise it collects the leavers of the box in order and appends each to its new box. |
| Regrid.TrimBox | Pygame-On-Web/Collision-Simulator/Interaction/grid.py:51-52 | `box.remove(sprite)` for every leaver removes the first occurrence of each. |
| GridGroups.SpawnFits | Pygame-On-Web/Collision-Simulator/Interaction/grid.py:11-12 | A particle inside the window maps to a box of the `int(width/size)+1` by `int(height/size)+1` grid, so add2grid stays in range. |
| GridGroups.GridGroup.constructor | Pygame-On-Web/Collision-Simulator/Interaction/grid.py:5-19 | The grid has `int(width/size)+1` rows of `int(height/size)+1` boxes, all empty. |
| GridGroups.GridGroup.Add2Grid | Pygame-On-Web/Collision-Simulator/GridGroup/grid.py:18-21 | The in-place add2grid leaves the grid equal to Filed of the old grid at the box of the particle's position. |
| GridGroups.GridGroup.InGrid | Pygame-On-Web/Collision-Simulator/GridGroup/grid.py:23-27 | `in_grid(row, col)` holds iff `0 <= row < Nrow` and `0 <= col < Ncol`, which is iff the box exists. |
| GridGroups.GridGroup.RegridBox | Pygame-On-Web/Collision-Simulator/GridGroup/grid.py:32-41 | The in-place scan of one box fails (`ok` false) exactly when a particle of the box maps outside the grid. Otherwise it leaves the grid equal to Refiled. |
| GridGroups.GridGroup.RegridRowScan | Pygame-On-Web/Collision-Simulator/GridGroup/grid.py:31-41 | The boxes of one row are scanned in column order. When every filed particle maps to a box, the scan succeeds and the grid equals RegridRow. When it fails, some filed particle maps outside the grid. After a success the row is settled. |
| GridGroups.GridGroup.Regrid | Pygame-On-Web/Collision-Simulator/GridGroup/grid.py:29-41 | The in-place regrid succeeds iff every filed particle maps to a box of the grid (`TargetsIn`). It then leaves the grid equal to Regridded, keeps the multiset of ids and places every particle in the box of its position. |
| GridGroups.GridGroup.CollideNext | Pygame-On-Web/Collision-Simulator/GridGroup/grid.py:53-59 | One neighbour offset pairs the particle with every id of that box if the box is in the grid, and with nothing otherwise. |
| GridGroups.GridGroup.CollideAround | Pygame-On-Web/Collision-Simulator/GridGroup/grid.py:53-59 | The loop over the four offsets has the effect of Run over the particle's pairs with its forward neighbour boxes. |
| GridGroups.GridGroup.CollideTurn | Pygame-On-Web/Collision-Simulator/GridGroup/grid.py:49-59 | One particle's turn pairs it with the later ids of its box, then with the forward neighbours. |
| GridGroups.GridGroup.CollideBox | Pygame-On-Web/Collision-Simulator/GridGroup/grid.py:47-59 | One box has the effect of Run over BoxPairs. |
| GridGroups.GridGroup.CollideRow | Pygame-On-Web/Collision-Simulator/GridGroup/grid.py:46-59 | One row of boxes has the effect of Run over its pairs. |
| GridGroups.GridGroup.Collide | Pygame-On-Web/Collision-Simulator/GridGroup/grid.py:43-59 | The in-place collide has the effect of Run over GridPairs and does not change the grid. |
| GridGroups.GridGroup.Update | Pygame-On-Web/Collision-Simulator/GridGroup/grid.py:61-66 | update integrates and bounces all particles, then regrids for the moved positions, then collides over the regridded boxes. Every visited pair names particles of the group. When a moved particle maps outside the grid, regrid fails and `ok` is false with the particles as moved. |
| Arenas.DrawnBody | Pygame-On-Web/Collision-Simulator/Interaction/game.py:41-53 | A drawn particle lies in `[radius, dim - radius]` on both axes. Its radius is in `[2, 5]`, its mass in `[4, 500]` and its speed in `[100, 200]`. |
| Arenas.DrawnFits | Pygame-On-Web/Collision-Simulator/GridGroup/game.py:40-51 | A drawn particle's box is in the grid, and the group stays within `max_radius`. |
| Arenas.OverlapNear | Pygame-On-Web/Collision-Simulator/Interaction/game.py:67-70 | With boxes of side `2 * max_radius`, two overlapping particles lie in the same or adjacent boxes. |
| Arenas.GridMeetsOverlaps | Pygame-On-Web/Collision-Simulator/Interaction/game.py:67-70 | Suppose a grid files each particle once, in the box of its position. Then collide visits every overlapping pair exactly once. |
| Arenas.GridPathMeetsOverlaps | Pygame-On-Web/Collision-Simulator/Interaction/grid.py:76-83 | On the grid path, every pair that overlaps after the move is handed to collide exactly once. |
| Arenas.PairsFrameKeeps | Pygame-On-Web/Collision-Simulator/Interaction/game.py:131-139 | The all-pairs path keeps the number of particles and their radii. |
| Arenas.GridFrameKeeps | Pygame-On-Web/Collision-Simulator/Interaction/game.py:126-128 | The grid path keeps the number of particles and their radii. |
| Arenas.Arena.constructor | Pygame-On-Web/Collision-Simulator/Interaction/game.py:67-70 | The game starts with an empty group and, over the window, an empty grid of boxes of side 10 (`2 * max_radius`). |
| Arenas.Arena.Spawn | Pygame-On-Web/Collision-Simulator/Interaction/game.py:42-53 | One drawn particle joins the group with the next id and is filed in the box of its centre. The grid still files each particle exactly once. |
| Arenas.Arena.GridPath | Pygame-On-Web/Collision-Simulator/Interaction/game.py:126-128 | `grid.update(dt)` moves, then regrids, keeping every id filed once and placing it in the box of its moved position. It then collides over those boxes. When a moved particle maps outside the grid, the frame fails (`ok` false) with the particles as moved. |
| Arenas.Arena.PairsPath | Pygame-On-Web/Collision-Simulator/Interaction/game.py:131-139 | The all-pairs path collides every pair `i < j` once, in id order, and then updates every particle. The grid is left alone. |
| InteractionGame.Switch.constructor | Pygame-On-Web/Collision-Simulator/Interaction/game.py:75-82 | The switch starts off and available. |
| InteractionGame.Switch.Toggle | Pygame-On-Web/Collision-Simulator/Interaction/ui.py:191-193 | `switch()` flips the state only while the switch is available. |
| InteractionGame.Game.constructor | Pygame-On-Web/Collision-Simulator/Interaction/game.py:67-82 | The set-up of `start` gives one particle and the switch off. |
| InteractionGame.Game.Generate | Pygame-On-Web/Collision-Simulator/Interaction/game.py:41-53 | `generate(num)` adds exactly `num` particles, one per draw and in order, each filed in the grid. Earlier particles are unchanged. |
| InteractionGame.Game.PressP | Pygame-On-Web/Collision-Simulator/Interaction/game.py:103-104 | The P key adds exactly 100 particles. |
| InteractionGame.Game.PressG | Pygame-On-Web/Collision-Simulator/Interaction/game.py:106-107 | The G key flips the switch if it is available. |
| InteractionGame.Game.Frame | Pygame-On-Web/Collision-Simulator/Interaction/game.py:117-139 | Above 801 particles the switch is forced on and made unavailable. Otherwise it is made available and keeps its state. The frame then takes the grid path when the switch is on and the all-pairs path when it is off. |
| GridGame.Game.constructor | Pygame-On-Web/Collision-Simulator/GridGroup/game.py:67-76 | The game starts with one particle, `total_num == 1` and gridding off. |
| GridGame.Game.Generate | Pygame-On-Web/Collision-Simulator/GridGroup/game.py:40-51 | One drawn particle joins the group and the grid. |
| GridGame.Game.PressP | Pygame-On-Web/Collision-Simulator/GridGroup/game.py:96-99 | `total_num` grows by exactly 100, and exactly 100 particles are added in order, so the count still matches the group. |
| GridGame.Game.PressG | Pygame-On-Web/Collision-Simulator/GridGroup/game.py:100-101 | The G key flips `gridding`, so two presses restore it. |
| GridGame.Game.Frame | Pygame-On-Web/Collision-Simulator/GridGroup/game.py:106-121 | The grid path runs iff `gridding` is on or `total_num > 801`. Otherwise the all-pairs path runs. |
| Stars.CubeRoot | Pygame-On-Web/Nebula-Simulator/particle.py:16 | `int(cbrt(x))` for `x >= 0` is the largest `n` with `n³ <= x`. |
| Stars.Radius | Pygame-On-Web/Nebula-Simulator/particle.py:16 | The radius is the truncated cube root of `mass / 20`, of either sign. |
| Stars.CubeRootMonotone | Pygame-On-Web/Nebula-Simulator/particle.py:16 | The integer cube root never decreases as its argument grows. |
| Stars.RadiusGrows | Pygame-On-Web/Nebula-Simulator/particle.py:16 | A mass of at least 20 gives a radius of at least 1, and a heavier star is at least as large. |
| Stars.Blue | Pygame-On-Web/Nebula-Simulator/particle.py:20 | `max(0, int(255 - mass/250))` lies in `[0, 255]` for a non-negative mass. |
| Stars.UpdateMass | Pygame-On-Web/Nebula-Simulator/particle.py:14-21 | update_mass sets the mass, the radius and the colour of that mass, and resets `scale_radius` to the radius. Nothing else changes. |
| Stars.NewStar | Pygame-On-Web/Nebula-Simulator/particle.py:5-12 | A new star has zero acceleration and the radius and colour of its mass. |
| Stars.Update | Pygame-On-Web/Nebula-Simulator/particle.py:38-40 | The velocity gains `a * dt`, then the position moves by the new velocity times `dt`. Acceleration, mass and size stay. |
| Stars.ScaleImage | Pygame-On-Web/Nebula-Simulator/particle.py:30-36 | The image radius is `max(1, int(radius * scale))`. It is redrawn exactly when that value changes, and nothing else changes. |
| Stars.ScaleImageSettles | Pygame-On-Web/Nebula-Simulator/particle.py:34 | A second scale_image at the same scale redraws nothing. |
| Nebula.Merge | Pygame-On-Web/Nebula-Simulator/group.py:31-42 | The absorber gets the summed mass (with its radius and colour) and the momentum-weighted velocity. Mass and momentum add up, and position and acceleration stay. |
| Nebula.Pooled | Pygame-On-Web/Nebula-Simulator/group.py:33 | The whole mass at `(m1 v1 + m2 v2) / (m1 + m2)` carries both momenta. |
| Nebula.Attraction | Pygame-On-Web/Nebula-Simulator/group.py:43-46 | Only the accelerations change, with `m1 Δa1 + m2 Δa2 = 0`. The first star is pulled towards the second. |
| Nebula.PairStep | Pygame-On-Web/Nebula-Simulator/group.py:18-46 | One pair step changes only the two stars of the pair and keeps every star of mass at least 20. |
| Nebula.AttractRun | Pygame-On-Web/Nebula-Simulator/group.py:16-46 | A pass over a list of pairs keeps the number of stars and every star's mass at least 20. |
| Nebula.AttractRunAppend | Pygame-On-Web/Nebula-Simulator/group.py:16-17 | Running two lists of pairs in turn is running their concatenation. |
| Nebula.PairStepTally | Pygame-On-Web/Nebula-Simulator/group.py:26-46 | One pair step keeps the mass and momentum of the stars not yet absorbed. |
| Nebula.MergeTally | Pygame-On-Web/Nebula-Simulator/group.py:35-42 | After a merge the absorber carries the weight of both stars and the absorbed star is marked, so the live mass and momentum are unchanged. |
| Nebula.AttractRunTally | Pygame-On-Web/Nebula-Simulator/group.py:16-46 | A whole pass keeps the mass and momentum of the stars not absorbed. |
| Nebula.PairStepCombined | Pygame-On-Web/Nebula-Simulator/group.py:27 | A step marks at most one star, of the pair, that was not marked yet. |
| Nebula.AttractRunCombined | Pygame-On-Web/Nebula-Simulator/group.py:26-42 | In a pass, `combined` never repeats a star and only grows, with stars of the group. |
| Nebula.Without | Pygame-On-Web/Nebula-Simulator/group.py:51-52 | Killing the stars of `combined` leaves exactly the members not in it. |
| Nebula.Attracted | Pygame-On-Web/Nebula-Simulator/group.py:10-46 | attract keeps the number of stars and every star's mass at least 20. |
| Nebula.Stepped | Pygame-On-Web/Nebula-Simulator/group.py:48-56 | update keeps the group well-formed (distinct member ids of the registry, every star heavy) and the registry's size. |
| Nebula.AttractedConserves | Pygame-On-Web/Nebula-Simulator/group.py:10-46 | attract keeps the mass and momentum of the surviving stars, and marks each star at most once. |
| Nebula.SteppedKeepsMass | Pygame-On-Web/Nebula-Simulator/group.py:48-56 | update keeps the total mass of the group's members. |
| Nebula.NebulaGroup.constructor | Pygame-On-Web/Nebula-Simulator/group.py:5-8 | A new group is empty, with `combined` empty. |
| Nebula.NebulaGroup.Add | Pygame-On-Web/Nebula-Simulator/particle.py:5-12 | A new star joins the group with the next id. |
| Nebula.NebulaGroup.AttractPair | Pygame-On-Web/Nebula-Simulator/group.py:18-46 | The in-place inner loop body has the effect of PairStep. |
| Nebula.NebulaGroup.AttractWith | Pygame-On-Web/Nebula-Simulator/group.py:17-46 | The inner loop has the effect of AttractRun over the star's pairs. |
| Nebula.NebulaGroup.ResetAccelerations | Pygame-On-Web/Nebula-Simulator/group.py:13-14 | Every member's acceleration is set to zero, and nothing else changes. |
| Nebula.NebulaGroup.AttractAll | Pygame-On-Web/Nebula-Simulator/group.py:16-46 | The nested loops have the effect of AttractRun over every pair `i < j` of the members. |
| Nebula.NebulaGroup.Attract | Pygame-On-Web/Nebula-Simulator/group.py:10-46 | attract leaves the state equal to Attracted. |
| Nebula.NebulaGroup.KillCombined | Pygame-On-Web/Nebula-Simulator/group.py:51-53 | The marked stars leave the group and `combined` is cleared. |
| Nebula.NebulaGroup.Integrate | Pygame-On-Web/Nebula-Simulator/group.py:55-56 | Every member moves by Stars.Update, and no other star changes. |
| Nebula.NebulaGroup.Update | Pygame-On-Web/Nebula-Simulator/group.py:48-56 | update leaves the group equal to Stepped and keeps it well-formed. |
| Cameras.ToScreen | Pygame-On-Web/Nebula-Simulator/camera.py:133-134 | project2screen maps the centre to the offset and is affine. |
| Cameras.ToReal | Pygame-On-Web/Nebula-Simulator/camera.py:136-138 | For `scale != 0`, `project2screen(project2real(q)) == q`. |
| Cameras.RealOfScreen | Pygame-On-Web/Nebula-Simulator/camera.py:133-138 | For `scale != 0`, `project2real(project2screen(p)) == p`. |
| Cameras.KeyShift | Pygame-On-Web/Nebula-Simulator/camera.py:36-43 | UP wins over DOWN and LEFT over RIGHT. Each pressed direction moves the offset by exactly `300 * dt` on its axis. |
| Cameras.KeyShiftOpposite | Pygame-On-Web/Nebula-Simulator/camera.py:36-43 | Opposite single keys move the view back by the same amount. |
| Cameras.KeyZoom | Pygame-On-Web/Nebula-Simulator/camera.py:44-47 | MINUS zooms out, otherwise EQUALS zooms in. |
| Cameras.Clamped | Pygame-On-Web/Nebula-Simulator/camera.py:84-94 | The clamped mouse lies in the padded window. It is the mouse itself when the mouse is inside. |
| Cameras.Push | Pygame-On-Web/Nebula-Simulator/camera.py:96-100 | Inside the padded window the push is zero: `scale_to_length` raises, which is swallowed. |
| Cameras.PushOutside | Pygame-On-Web/Nebula-Simulator/camera.py:96-100 | Outside it the push has length `300 * dt` and points the way the mouse left. |
| Cameras.Camera.constructor | Pygame-On-Web/Nebula-Simulator/camera.py:4-20 | The camera starts at scale 1, with offset and centre at the screen centre and no target. |
| Cameras.Camera.Project | Pygame-On-Web/Nebula-Simulator/camera.py:133-134 | Under the current view, the centre point projects to the offset. |
| Cameras.Camera.CenterTarget | Pygame-On-Web/Nebula-Simulator/camera.py:26-30 | With a target, the view follows it and the target projects to the screen centre. Without one nothing changes. |
| Cameras.Camera.Zoom | Pygame-On-Web/Nebula-Simulator/camera.py:32-33 | `scale *= 1 + factor * 0.6 * dt`, and nothing else changes. |
| Cameras.Camera.KeyboardControl | Pygame-On-Web/Nebula-Simulator/camera.py:35-47 | The offset moves by KeyShift and the scale by the KeyZoom factor. |
| Cameras.Camera.OnClick | Pygame-On-Web/Nebula-Simulator/camera.py:57-68 | A picked star becomes the target and is followed, and its screen position does not change. A click on empty space unlocks the view, and every point keeps its screen position. |
| Cameras.Camera.MousePush | Pygame-On-Web/Nebula-Simulator/camera.py:83-102 | The offset moves back by Push. It is unchanged while the mouse is inside the padded window. |
| Cameras.Camera.MouseControl | Pygame-On-Web/Nebula-Simulator/camera.py:70-81 | The hovered star is the pick. With a button held the view is dragged by the mouse motion; otherwise the window edge pushes it. |
| Cameras.Camera.Update | Pygame-On-Web/Nebula-Simulator/camera.py:140-142 | The keyboard control runs first, then the mouse control. |
| NebulaGame.Schedule | Pygame-On-Web/Nebula-Simulator/game.py:164-169 | Above 1x a frame runs `int(speed / 2)` updates of `2 * dt`. Otherwise it runs one update of `dt * speed`. |
| NebulaGame.ScheduleTotals | Pygame-On-Web/Nebula-Simulator/game.py:159-169 | At every setting of the `time_speeds` table, a frame simulates `speed * dt` seconds in all. |
| NebulaGame.Evolve | Pygame-On-Web/Nebula-Simulator/game.py:166-167 | `n` updates keep the group well-formed, the number of stars and the total mass. |
| NebulaGame.SpawnedStar | Pygame-On-Web/Nebula-Simulator/game.py:55-69 | A generated star appears under the drawn screen point, has mass 2000 and a speed in `[10, 20]`, and has a radius of at least 1. |
| NebulaGame.Game.constructor | Pygame-On-Web/Nebula-Simulator/game.py:25-43 | The game starts at speed setting 3, not paused, with one star and a count of 1. |
| NebulaGame.Game.Generate | Pygame-On-Web/Nebula-Simulator/game.py:55-69 | `generate(num)` adds exactly `num` stars, one per draw and in order. Earlier stars are unchanged. |
| NebulaGame.Game.SpawnStar | Pygame-On-Web/Nebula-Simulator/game.py:56-69 | One star joins the group at the world point under the drawn screen point. |
| NebulaGame.Game.TimeControl | Pygame-On-Web/Nebula-Simulator/game.py:71-73 | The setting moves by `shift` and saturates at 0 and 6. |
| NebulaGame.Game.GamePause | Pygame-On-Web/Nebula-Simulator/game.py:75-76 | The pause flips, so two calls restore it. |
| NebulaGame.Game.Advance | Pygame-On-Web/Nebula-Simulator/game.py:159-184 | A paused frame changes nothing. Otherwise the frame runs the schedule of the current speed. Total mass is kept, and the count shown is the number of members. |
| NebulaGame.Game.Repeat | Pygame-On-Web/Nebula-Simulator/game.py:166-167 | `for i in range(n): nebula.update(step)` leaves the group equal to Evolve. |

## Left out

- Drawing, sprites' images and rectangles, fonts, the UI widgets other than the grid switch, the debug overlay, `asyncio`, the clock and the event queue. The frame time `dt`, the window size and the user's inputs are parameters.
- Event dispatch: the `pygame.QUIT` event and the loop of `start` are not modelled. Each key or click handler is a method of its own game class (PressP, PressG, TimeControl, GamePause, Camera.OnClick, Camera.Zoom).
- The "+100" button of the collision game and the "+10", ">>", "<<" and "Run" buttons of the nebula game. They call the same methods as the keys.
- The nebula game's P (10 stars) and C keys dispatch to Generate and Camera.CenterTarget. That dispatch is not a method of its own.
- Randomness: every random draw of `generate` is a parameter (Arenas.Draw, NebulaGame.Spawn), constrained to the ranges the code draws from. `(cos(angle), sin(angle))` is any unit vector.
- Floating point: every quantity is a real. `math.cbrt` followed by `int()` is the exact integer cube root (Stars.CubeRoot), so float rounding of the cube root is not captured. `length()` is the parameter `norm`.
- GridGroups.GridGroup.RegridBox, GridGroups.GridGroup.RegridRowScan, GridGroups.GridGroup.Regrid, GridGroups.GridGroup.Update, Arenas.Arena.GridPath, InteractionGame.Game.Frame, GridGame.Game.Frame: when a moved particle maps outside the grid, the model ends regrid, and the frame, with `ok` false and says nothing about the grid. Python does different things depending on the index. A row index of at least `Nrow` or below `-Nrow` raises IndexError, and so does a column index outside `-Ncol` to `Ncol - 1`. An index from -N to -1 wraps to the last row or column. If the wrapped box is the one being scanned, or one scanned later in the same pass, the particle is appended to the box under iteration again and again, so the `for sprite in box` loop never ends. If the wrapped box was scanned earlier, the particle stays misfiled and the program goes on.
- The grid holds particle ids, not particle objects. So GridGroups.GridGroup.Collide, RegridBox, RegridRowScan, Regrid and Update require every filed id to name a particle of the group (`GridBelow`). This holds by construction in Python, and the Arena invariant provides it.
- Particles.Run: a pair naming an id outside the group ends the run with None. The source pairs particle objects and has no such pair, and GridPairsIn and AllPairsOfRange show that the model never produces one.
- Arenas.Arena.GridPath, Arenas.Arena.PairsPath, InteractionGame.Game.Frame, GridGame.Game.Frame: the game invariant is promised only when `ok` holds. When a collision raises, the Python program stops.
- Nebula.Merge and NebulaGame.Game.Generate require every star to have mass at least 20 (`Heavy`). The game only creates stars of mass 2000 and merging adds masses, so the touching test always has radii of at least 1.
- NebulaGame.Game.Generate requires `camera.scale != 0`. At scale 0, `project2real` divides by zero.
- Mouse picking (`mouse_pick`) depends on the drawn image rectangles. Its answer is a parameter `pick` of Camera.OnClick and Camera.MouseControl. `mouse_pick` only returns live stars of the group, but the model accepts any registry id as `pick`, including a star that has merged away.
- `Camera.draw` forgets a target that has left the group. This side effect of drawing is not modelled, so Camera.Sees only requires the target to be an id of the registry.
- The camera's `rect` (the culling rectangle) and the hover/target outline colours belong to drawing.
- Aliasing: the source shares one particle object between the group and the grid group. The model names particles by id in the ParticleGroup, and the GridGroup refers to that group. The camera's `center` aliasing a star's position vector is modelled as `Center.Follows(id)`.
- NebulaGame.Game.Advance: the schedule runs Repeat with `Schedule(speed, dt)`. The availability of the pause and speed buttons (game.py:160-173) belongs to the UI.
- The colour of a collision particle (`rg_value`) and the image of a star belong to drawing; a star's colour is kept as its blue component only.
