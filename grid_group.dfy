/** The GridGroup class of Collision-Simulator/Interaction/grid.py (and of its
    uncommented copy Collision-Simulator/GridGroup/grid.py): the particles of a
    group filed into a grid of boxes of side `size`, updated in place. */
module GridGroups {
  import opened Numbers
  import opened Vectors
  import opened Wrappers
  import opened Pairs
  import opened Particle
  import opened Particles
  import opened Grid
  import opened Regrid

  /** A grid whose boxes are all empty holds no particle. */
  lemma {:induction false} EmptyContents(g: Cells)
    requires forall r, c :: InRange(g, r, c) ==> g[r][c] == []
    ensures Contents(g) == multiset{}
    decreases |g|
  {
    if |g| != 0 {
      EmptyRowContents(g[0]);
      assert forall r, c :: InRange(g[1..], r, c) ==> InRange(g, r + 1, c);
      EmptyContents(g[1..]);
    }
  }

  lemma {:induction false} EmptyRowContents(row: seq<seq<nat>>)
    requires forall c :: 0 <= c < |row| ==> row[c] == []
    ensures RowContents(row) == multiset{}
    decreases |row|
  {
    if |row| != 0 {
      assert multiset(row[0]) == multiset{};
      EmptyRowContents(row[1..]);
    }
  }

  /** Truncation after division by a positive size is monotone. */
  lemma TruncDivMonotone(x: real, width: real, size: real)
    requires size > 0.0 && x <= width
    ensures Trunc(x / size) <= Trunc(width / size)
  {
    assert x / size <= width / size;
    TruncMonotone(x / size, width / size);
  }

  /** A particle inside the window maps to a box of a grid of
      `int(width / size) + 1` by `int(height / size) + 1` boxes: the position
      ranges that Game.generate draws from keep add2grid in range. */
  lemma SpawnFits(g: Cells, bodies: seq<Body>, size: real, width: real, height: real, nrow: nat, ncol: nat, x: nat)
    requires size > 0.0 && x < |bodies|
    requires Shaped(g, nrow, ncol) && nrow == Trunc(width / size) + 1 && ncol == Trunc(height / size) + 1
    requires 0.0 <= bodies[x].position.x <= width && 0.0 <= bodies[x].position.y <= height
    ensures Fits(g, bodies, size, x)
  {
    var p := bodies[x].position;
    TruncDivMonotone(p.x, width, size);
    TruncDivMonotone(p.y, height, size);
    assert 0.0 <= p.x / size && 0.0 <= p.y / size;
  }

  /** Every particle of a grid whose particles fit names a particle of the
      group. */
  lemma TargetsBelow(g: Cells, bodies: seq<Body>, size: real)
    requires TargetsIn(g, bodies, size)
    ensures GridBelow(g, |bodies|)
  {
    forall r, c | InRange(g, r, c)
      ensures Below(g[r][c], |bodies|)
    {
      BoxTargets(g, bodies, size, r, c);
    }
  }

  /** Two grids of the same dimensions have the same shape. */
  lemma ShapedSame(g: Cells, h: Cells, nrow: nat, ncol: nat)
    requires Shaped(g, nrow, ncol) && Shaped(h, nrow, ncol)
    ensures SameShape(h, g)
  {
  }

  /** Refiling keeps the dimensions of the grid. */
  lemma ShapedKept(g: Cells, h: Cells, nrow: nat, ncol: nat)
    requires Shaped(g, nrow, ncol) && SameShape(h, g)
    ensures Shaped(h, nrow, ncol)
  {
  }

  class GridGroup {
    /** The group whose particles are filed, with the window size. */
    const particles: ParticleGroup
    const size: real
    const nrow: nat
    const ncol: nat
    var grid: Cells

    ghost predicate Valid()
      reads this
    {
      size > 0.0 && Shaped(grid, nrow, ncol)
    }

    /** GridGroup.__init__(box_size): `int(width / size) + 1` rows of
        `int(height / size) + 1` boxes, all of them empty. */
    constructor(particles: ParticleGroup, boxSize: real)
      requires boxSize > 0.0 && particles.width >= 0.0 && particles.height >= 0.0
      ensures this.particles == particles && size == boxSize
      ensures nrow == Trunc(particles.width / boxSize) + 1 && ncol == Trunc(particles.height / boxSize) + 1
      ensures Valid() && Contents(grid) == multiset{}
      ensures forall r, c :: InRange(grid, r, c) ==> grid[r][c] == []
    {
      assert particles.width / boxSize >= 0.0 && particles.height / boxSize >= 0.0;
      var nr: nat := Trunc(particles.width / boxSize) + 1;
      var nc: nat := Trunc(particles.height / boxSize) + 1;
      var g: Cells := [];
      var row := 0;
      while row < nr
        invariant 0 <= row <= nr && |g| == row
        invariant forall r :: 0 <= r < row ==> |g[r]| == nc
        invariant forall r, c :: InRange(g, r, c) ==> g[r][c] == []
      {
        var empty: seq<seq<nat>> := [];
        g := g + [empty];
        var col := 0;
        while col < nc
          invariant 0 <= col <= nc && |g| == row + 1 && |g[row]| == col
          invariant forall r :: 0 <= r < row ==> |g[r]| == nc
          invariant forall r, c :: InRange(g, r, c) ==> g[r][c] == []
        {
          var box: seq<nat> := [];
          g := g[row := g[row] + [box]];
          col := col + 1;
        }
        row := row + 1;
      }
      this.particles := particles;
      size := boxSize;
      nrow := nr;
      ncol := nc;
      grid := g;
      EmptyContents(g);
    }

    /** add2grid: particle `id` goes at the end of the box of its position;
        no other box changes. */
    method Add2Grid(id: nat)
      requires Valid() && Fits(grid, particles.bodies, size, id)
      modifies this
      ensures Valid()
      ensures grid == Filed(old(grid), CellOf(particles.bodies[id], size).0, CellOf(particles.bodies[id], size).1, id)
    {
      var row := Trunc(particles.bodies[id].position.x / size);
      var col := Trunc(particles.bodies[id].position.y / size);
      grid := grid[row := grid[row][col := grid[row][col] + [id]]];
    }

    /** in_grid: the box `(row, col)` exists. */
    function InGrid(row: int, col: int): (r: bool)
      reads this
      ensures r <==> 0 <= row < nrow && 0 <= col < ncol
      ensures Valid() ==> (r <==> InRange(grid, row, col))
    {
      !(row < 0 || col < 0 || row >= nrow || col >= ncol)
    }

    /** The scan of box `(row, col)` inside regrid, one statement of the
        source per step: the leavers are appended to their new boxes and
        collected in `outside`, then removed from the box one by one. It
        fails (`ok` false) exactly when a particle of the box maps outside
        the grid; the grid is then left in no particular state. */
    method RegridBox(row: nat, col: nat) returns (ok: bool)
      requires Valid() && GridBelow(grid, |particles.bodies|) && row < nrow && col < ncol
      modifies this
      ensures Valid()
      ensures ok == AllFit(old(grid), particles.bodies, size, old(grid)[row][col])
      ensures ok ==> grid == Refiled(old(grid), particles.bodies, size, row, col)
    {
      var box := grid[row][col];
      var g, outside;
      ok, g, outside := ScanBox(grid, particles.bodies, size, row, col, box);
      if !ok {
        return;
      }
      var kept := TrimBox(box, outside);
      RemoveOutside(box, particles.bodies, size, row, col);
      grid := g[row := g[row][col := kept]];
    }

    /** regrid: every box scanned in row-major order. It fails exactly when
        some particle filed in the grid maps outside it. Otherwise no
        particle is lost or duplicated, and afterwards every particle is in
        the box of its position. */
    method Regrid() returns (ok: bool)
      requires Valid() && GridBelow(grid, |particles.bodies|)
      modifies this
      ensures Valid()
      ensures ok == TargetsIn(old(grid), particles.bodies, size)
      ensures ok ==> grid == Regridded(old(grid), particles.bodies, size)
      ensures ok ==> Contents(grid) == Contents(old(grid)) && Placed(grid, particles.bodies, size)
    {
      ghost var g0, bodies := grid, particles.bodies;
      RowsScanStart(g0, bodies, size);
      ok := true;
      var row := 0;
      while row < nrow && ok
        invariant 0 <= row <= nrow && Valid() && particles.bodies == bodies
        invariant ok ==> RowsScanned(g0, grid, bodies, size, row)
        invariant !ok ==> !TargetsIn(g0, bodies, size)
        decreases nrow - row, ok
      {
        ghost var before := grid;
        ok := RegridRowScan(row);
        if ok {
          ShapedSame(before, grid, nrow, ncol);
          RowsScanStep(g0, before, grid, bodies, size, row);
          row := row + 1;
        } else {
          RowsScanFails(g0, before, bodies, size, row);
        }
      }
      if ok {
        RowsScanDone(g0, grid, bodies, size);
      }
    }

    /** The boxes of row `row` of regrid, in column order. When the particles
        of the grid all fit, it succeeds and scans the row; when it fails,
        they do not; when it succeeds, the row is settled. */
    method RegridRowScan(row: nat) returns (ok: bool)
      requires Valid() && GridBelow(grid, |particles.bodies|) && row < nrow
      requires Settled(grid, particles.bodies, size, row, 0)
      modifies this
      ensures Valid()
      ensures TargetsIn(old(grid), particles.bodies, size) ==> ok && grid == RegridRow(old(grid), particles.bodies, size, row, 0)
      ensures !ok ==> !TargetsIn(old(grid), particles.bodies, size)
      ensures ok ==> Contents(grid) == Contents(old(grid)) && GridBelow(grid, |particles.bodies|)
      ensures ok ==> Settled(grid, particles.bodies, size, row + 1, 0)
    {
      ghost var g0, bodies := grid, particles.bodies;
      RowScanStart(g0, bodies, size, row);
      ok := true;
      var col := 0;
      while col < ncol && ok
        invariant 0 <= col <= ncol && Valid() && particles.bodies == bodies
        invariant ok ==> RowScanned(g0, grid, bodies, size, row, col)
        invariant !ok ==> !TargetsIn(g0, bodies, size)
        decreases ncol - col, ok
      {
        ghost var before := grid;
        ok := RegridBox(row, col);
        if ok {
          RowScanStep(g0, before, bodies, size, row, col);
          col := col + 1;
        } else {
          RowScanFails(g0, before, bodies, size, row, col);
        }
      }
      if ok {
        RowScanDone(g0, grid, bodies, size, row);
      }
    }

    /** Offset `j` of the loop over Adjoin: if the box it leads to is in the
        grid (`in_grid`), `p` is paired with each of its particles; a box
        outside the grid is skipped. */
    method CollideNext(p: nat, row: int, col: int, j: nat, norm: Vec2 -> real) returns (ok: bool)
      requires Valid() && IsNorm(norm) && p < |particles.bodies| && GridBelow(grid, |particles.bodies|) && j < |Adjoin|
      modifies particles
      ensures |particles.bodies| == |old(particles.bodies)|
      ensures ok ==> Run(old(particles.bodies), PairsWith(p, Forwards(grid, row, col)[j]), norm) == Some(particles.bodies)
      ensures !ok ==> Run(old(particles.bodies), PairsWith(p, Forwards(grid, row, col)[j]), norm) == None
    {
      var (drow, dcol) := Adjoin[j];
      var nextRow, nextCol := row + drow, col + dcol;
      ghost var next := Forwards(grid, row, col)[j];
      assert next == BoxAt(grid, nextRow, nextCol);
      if InGrid(nextRow, nextCol) {
        var nextBox := grid[nextRow][nextCol];
        ok := particles.CollideWith(p, nextBox, norm);
      } else {
        ok := true;
      }
    }

    /** The turn of collide for particle `p` of box `(row, col)` that pairs
        it with the particles of the forward neighbour boxes, offset by
        offset in the order of Adjoin. */
    method CollideAround(p: nat, row: int, col: int, norm: Vec2 -> real) returns (ok: bool)
      requires Valid() && IsNorm(norm) && p < |particles.bodies| && GridBelow(grid, |particles.bodies|)
      modifies particles
      ensures |particles.bodies| == |old(particles.bodies)|
      ensures Outcome(ok, particles.bodies) == Run(old(particles.bodies), PairsWith(p, Around(grid, row, col)), norm)
    {
      ghost var n, start := |particles.bodies|, particles.bodies;
      ghost var all := PairsWith(p, Around(grid, row, col));
      ghost var bs := Forwards(grid, row, col);
      ForwardsAround(grid, row, col);
      ok := true;
      var j := 0;
      while j < |Adjoin| && ok
        invariant 0 <= j <= |Adjoin| && |particles.bodies| == n
        invariant ok ==> Run(start, all, norm) == Run(particles.bodies, PairsWith(p, Flatten(bs[j..])), norm)
        invariant !ok ==> Run(start, all, norm) == None
      {
        FlattenStep(bs, j);
        ghost var next, rest := bs[j], Flatten(bs[j + 1..]);
        ghost var before := particles.bodies;
        PairsWithAppend(p, next, rest);
        ok := CollideNext(p, row, col, j, norm);
        if ok {
          RunThen(before, PairsWith(p, next), PairsWith(p, rest), norm, particles.bodies);
        } else {
          RunStops(before, PairsWith(p, next), PairsWith(p, rest), norm);
        }
        j := j + 1;
      }
      if ok {
        assert bs[j..] == [];
      }
    }

    /** The turns of collide for the particles of box `(row, col)`: each one
        is paired with the particles after it in the box, then with those of
        the forward neighbour boxes. */
    method CollideBox(row: nat, col: nat, norm: Vec2 -> real) returns (ok: bool)
      requires Valid() && IsNorm(norm) && row < nrow && col < ncol && GridBelow(grid, |particles.bodies|)
      modifies particles
      ensures |particles.bodies| == |old(particles.bodies)|
      ensures Outcome(ok, particles.bodies) == Run(old(particles.bodies), BoxPairs(grid[row][col], Around(grid, row, col), 0), norm)
    {
      var box := grid[row][col];
      ghost var around := Around(grid, row, col);
      ghost var n := |particles.bodies|;
      ok := true;
      var i := 0;
      while i < |box| && ok
        invariant 0 <= i <= |box| && |particles.bodies| == n
        invariant ok ==> Run(old(particles.bodies), BoxPairs(box, around, 0), norm) == Run(particles.bodies, BoxPairs(box, around, i), norm)
        invariant !ok ==> Run(old(particles.bodies), BoxPairs(box, around, 0), norm) == None
      {
        ok := CollideTurn(box, i, row, col, norm);
        i := i + 1;
      }
      if ok {
        assert BoxPairs(box, around, i) == [];
      }
    }

    /** The turn of particle `box[i]` inside collide: the ids after it in its
        box, then the forward neighbour boxes. */
    method CollideTurn(box: seq<nat>, i: nat, row: nat, col: nat, norm: Vec2 -> real) returns (ok: bool)
      requires Valid() && IsNorm(norm) && row < nrow && col < ncol && GridBelow(grid, |particles.bodies|)
      requires box == grid[row][col] && i < |box|
      modifies particles
      ensures |particles.bodies| == |old(particles.bodies)|
      ensures ok ==> (Run(old(particles.bodies), BoxPairs(box, Around(grid, row, col), i), norm)
                      == Run(particles.bodies, BoxPairs(box, Around(grid, row, col), i + 1), norm))
      ensures !ok ==> Run(old(particles.bodies), BoxPairs(box, Around(grid, row, col), i), norm) == None
    {
      ghost var around := Around(grid, row, col);
      var p1 := box[i];
      ghost var mine, theirs, later := PairsWith(p1, box[i + 1..]), PairsWith(p1, around), BoxPairs(box, around, i + 1);
      BoxPairsStep(box, around, i);
      assert Below(box[i + 1..], |particles.bodies|);
      ok := particles.CollideWith(p1, box[i + 1..], norm);
      if ok {
        RunThen(old(particles.bodies), mine, theirs + later, norm, particles.bodies);
        ghost var middle := particles.bodies;
        ok := CollideAround(p1, row, col, norm);
        if ok {
          RunThen(middle, theirs, later, norm, particles.bodies);
        } else {
          RunStops(middle, theirs, later, norm);
        }
      } else {
        RunStops(old(particles.bodies), mine, theirs + later, norm);
      }
    }

    /** collide: the boxes in row-major order. The grid itself is not
        changed: only the particles' positions and velocities are. */
    method Collide(norm: Vec2 -> real) returns (ok: bool)
      requires Valid() && IsNorm(norm) && GridBelow(grid, |particles.bodies|)
      modifies particles
      ensures |particles.bodies| == |old(particles.bodies)|
      ensures Outcome(ok, particles.bodies) == Run(old(particles.bodies), GridPairs(grid, 0), norm)
    {
      ghost var n, start, g := |particles.bodies|, particles.bodies, grid;
      ghost var all := GridPairs(g, 0);
      ok := true;
      var row := 0;
      while row < nrow && ok
        invariant 0 <= row <= nrow && |particles.bodies| == n
        invariant ok ==> Run(start, all, norm) == Run(particles.bodies, GridPairs(g, row), norm)
        invariant !ok ==> Run(start, all, norm) == None
      {
        ok := CollideRow(row, norm);
        row := row + 1;
      }
      if ok {
        assert GridPairs(g, row) == [];
      }
    }

    /** The boxes of row `row` of collide, in column order, with the
        remaining rows after them. */
    method CollideRow(row: nat, norm: Vec2 -> real) returns (ok: bool)
      requires Valid() && IsNorm(norm) && row < nrow && GridBelow(grid, |particles.bodies|)
      modifies particles
      ensures |particles.bodies| == |old(particles.bodies)|
      ensures ok ==> Run(old(particles.bodies), GridPairs(grid, row), norm) == Run(particles.bodies, GridPairs(grid, row + 1), norm)
      ensures !ok ==> Run(old(particles.bodies), GridPairs(grid, row), norm) == None
    {
      ghost var n, start, g := |particles.bodies|, particles.bodies, grid;
      ghost var all, after := GridPairs(g, row), GridPairs(g, row + 1);
      ok := true;
      var col := 0;
      while col < ncol && ok
        invariant 0 <= col <= ncol && |particles.bodies| == n
        invariant ok ==> Run(start, all, norm) == Run(particles.bodies, RowPairs(g, row, col) + after, norm)
        invariant !ok ==> Run(start, all, norm) == None
      {
        ghost var box := BoxPairs(g[row][col], Around(g, row, col), 0);
        ghost var rest := RowPairs(g, row, col + 1);
        ghost var before := particles.bodies;
        RowPairsStep(g, row, col, after);
        ok := CollideBox(row, col, norm);
        if ok {
          RunThen(before, box, rest + after, norm, particles.bodies);
        } else {
          RunStops(before, box, rest + after, norm);
        }
        col := col + 1;
      }
      if ok {
        assert RowPairs(g, row, col) + after == after;
      }
    }

    /** update(dt): every particle integrated and bounced, then regrid, then
        collide on the regridded boxes. */
    method Update(dt: real, norm: Vec2 -> real) returns (ok: bool)
      requires Valid() && IsNorm(norm) && GridBelow(grid, |particles.bodies|)
      modifies this, particles
      ensures Valid()
      ensures var moved := Updated(old(particles.bodies), dt, particles.width, particles.height);
        !TargetsIn(old(grid), moved, size) ==> !ok && particles.bodies == moved
      ensures var moved := Updated(old(particles.bodies), dt, particles.width, particles.height);
        TargetsIn(old(grid), moved, size) ==>
          && grid == Regridded(old(grid), moved, size)
          && PairsIn(GridPairs(grid, 0), |old(particles.bodies)|)
          && Outcome(ok, particles.bodies) == Run(moved, GridPairs(grid, 0), norm)
    {
      particles.UpdateAll(dt);
      ok := Regrid();
      if !ok {
        return;
      }
      TargetsBelow(grid, particles.bodies, size);
      GridPairsIn(grid, 0, |particles.bodies|);
      ok := Collide(norm);
    }
  }
}
