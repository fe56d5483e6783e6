/** The uniform-grid broad phase of the collision simulator
    (Collision-Simulator/Interaction/grid.py; Collision-Simulator/GridGroup/grid.py
    is the same code without comments). The grid is a list of rows of boxes,
    each box a list of particle ids; a particle belongs to the box
    `(int(x / size), int(y / size))` of its position. */
module Grid {
  import opened Numbers
  import opened Vectors
  import opened Pairs
  import opened Particle
  import opened Particles

  /** `grid[row][col]` is the list of the ids filed in that box. */
  type Cells = seq<seq<seq<nat>>>

  /** The box a particle belongs to: `(int(position.x / size), int(position.y / size))`. */
  function CellOf(b: Body, size: real): (int, int)
    requires size != 0.0
  {
    (Trunc(b.position.x / size), Trunc(b.position.y / size))
  }

  /** `nrow` rows of `ncol` boxes each. */
  predicate Shaped(g: Cells, nrow: nat, ncol: nat)
  {
    |g| == nrow && forall r :: 0 <= r < |g| ==> |g[r]| == ncol
  }

  /** The box `(row, col)` exists. */
  predicate InRange(g: Cells, row: int, col: int)
  {
    0 <= row < |g| && 0 <= col < |g[row]|
  }

  /** The multiset of the ids of one row of boxes. */
  function RowContents(row: seq<seq<nat>>): multiset<nat>
  {
    if |row| == 0 then multiset{} else multiset(row[0]) + RowContents(row[1..])
  }

  /** The multiset of all the ids filed anywhere in the grid. */
  function Contents(g: Cells): multiset<nat>
  {
    if |g| == 0 then multiset{} else RowContents(g[0]) + Contents(g[1..])
  }

  lemma {:induction false} RowContentsUpdate(row: seq<seq<nat>>, c: nat, b: seq<nat>)
    requires c < |row|
    ensures RowContents(row[c := b]) + multiset(row[c]) == RowContents(row) + multiset(b)
  {
    if c == 0 {
      assert row[c := b][1..] == row[1..];
    } else {
      var row' := row[c := b];
      assert row'[0] == row[0] && row'[1..] == row[1..][c - 1 := b];
      RowContentsUpdate(row[1..], c - 1, b);
      assert row[1..][c - 1] == row[c];
      var m0, x, y := multiset(row[0]), RowContents(row[1..][c - 1 := b]), RowContents(row[1..]);
      assert x + multiset(row[c]) == y + multiset(b);
      assert RowContents(row') == m0 + x;
      assert RowContents(row) == m0 + y;
      assert m0 + x + multiset(row[c]) == m0 + (x + multiset(row[c]));
    }
  }

  /** Replacing one box replaces its ids in the grid's contents. */
  lemma {:induction false} ContentsUpdate(g: Cells, r: nat, c: nat, b: seq<nat>)
    requires InRange(g, r, c)
    ensures Contents(g[r := g[r][c := b]]) + multiset(g[r][c]) == Contents(g) + multiset(b)
  {
    if r == 0 {
      var g' := g[r := g[r][c := b]];
      assert g'[0] == g[0][c := b] && g'[1..] == g[1..];
      RowContentsUpdate(g[0], c, b);
      var x, y, z := RowContents(g[0][c := b]), RowContents(g[0]), Contents(g[1..]);
      assert Contents(g') == x + z;
      assert Contents(g) == y + z;
      assert x + z + multiset(g[r][c]) == (x + multiset(g[r][c])) + z;
    } else {
      var g' := g[r := g[r][c := b]];
      assert g'[0] == g[0] && g'[1..] == g[1..][r - 1 := g[1..][r - 1][c := b]];
      ContentsUpdate(g[1..], r - 1, c, b);
      assert g[1..][r - 1][c] == g[r][c];
      var m0, x, y := RowContents(g[0]), Contents(g[1..][r - 1 := g[1..][r - 1][c := b]]), Contents(g[1..]);
      assert x + multiset(g[r][c]) == y + multiset(b);
      assert Contents(g') == m0 + x;
      assert Contents(g) == m0 + y;
      assert m0 + x + multiset(g[r][c]) == m0 + (x + multiset(g[r][c]));
    }
  }

  /** Every box's ids are among the grid's contents. */
  lemma BoxInContents(g: Cells, r: nat, c: nat)
    requires InRange(g, r, c)
    ensures multiset(g[r][c]) <= Contents(g)
  {
    var empty: seq<nat> := [];
    ContentsUpdate(g, r, c, empty);
    assert multiset(empty) == multiset{};
    var h := Contents(g[r := g[r][c := empty]]);
    assert h + multiset(g[r][c]) == Contents(g);
  }

  /** No id is filed twice. */
  ghost predicate Unique(g: Cells)
  {
    forall x :: Contents(g)[x] <= 1
  }

  /** The id `x` is at position `k` of the box `(r, c)`. */
  predicate At(g: Cells, x: nat, r: int, c: int, k: int)
  {
    InRange(g, r, c) && 0 <= k < |g[r][c]| && g[r][c][k] == x
  }

  lemma TwoOccurrences(s: seq<nat>, i: nat, j: nat)
    requires i < j < |s| && s[i] == s[j]
    ensures multiset(s)[s[i]] >= 2
  {
    assert s == s[..j] + s[j..];
    assert s[i] in s[..j];
    assert s[j..][0] == s[i];
    assert multiset(s) == multiset(s[..j]) + multiset(s[j..]);
  }

  /** In a grid without repetitions, an id has one position at most. */
  lemma PositionUnique(g: Cells, x: nat, r1: int, c1: int, k1: int, r2: int, c2: int, k2: int)
    requires Unique(g) && At(g, x, r1, c1, k1) && At(g, x, r2, c2, k2)
    ensures r1 == r2 && c1 == c2 && k1 == k2
  {
    if r1 == r2 && c1 == c2 {
      BoxInContents(g, r1, c1);
      if k1 < k2 {
        TwoOccurrences(g[r1][c1], k1, k2);
        assert false;
      } else if k2 < k1 {
        TwoOccurrences(g[r1][c1], k2, k1);
        assert false;
      }
    } else {
      TwoBoxes(g, x, r1, c1, k1, r2, c2, k2);
      assert false;
    }
  }

  /** An id in two different boxes is counted twice in the contents. */
  lemma TwoBoxes(g: Cells, x: nat, r1: int, c1: int, k1: int, r2: int, c2: int, k2: int)
    requires At(g, x, r1, c1, k1) && At(g, x, r2, c2, k2) && (r1 != r2 || c1 != c2)
    ensures Contents(g)[x] >= 2
  {
    var empty: seq<nat> := [];
    var h := g[r1 := g[r1][c1 := empty]];
    ContentsUpdate(g, r1, c1, empty);
    assert multiset(empty) == multiset{};
    assert h[r2][c2] == g[r2][c2];
    BoxInContents(h, r2, c2);
    assert multiset(g[r2][c2])[x] >= 1 && multiset(g[r1][c1])[x] >= 1;
    assert Contents(h) + multiset(g[r1][c1]) == Contents(g);
  }

  /** `x` is at position `k` of box `(r, c)` and nowhere else. */
  ghost predicate Sole(g: Cells, x: nat, r: int, c: int, k: int)
  {
    At(g, x, r, c, k) && forall r2, c2, k2 :: At(g, x, r2, c2, k2) ==> r2 == r && c2 == c && k2 == k
  }

  /** In a grid without repetitions, every id has its sole position. */
  lemma UniqueSole(g: Cells, x: nat, r: int, c: int, k: int)
    requires Unique(g) && At(g, x, r, c, k)
    ensures Sole(g, x, r, c, k)
  {
    forall r2, c2, k2 | At(g, x, r2, c2, k2)
      ensures r2 == r && c2 == c && k2 == k
    {
      PositionUnique(g, x, r2, c2, k2, r, c, k);
    }
  }

  /** How often an id with its sole position at `(ra, ca, ka)` occurs in the
      part of box `(r, c)` from position `i` on: once if that is where it
      is, else never. */
  lemma {:induction false} SuffixCount(g: Cells, x: nat, r: int, c: int, i: nat, ra: int, ca: int, ka: int)
    requires Sole(g, x, ra, ca, ka) && InRange(g, r, c) && i <= |g[r][c]|
    ensures Occ(g[r][c][i..], x) == if r == ra && c == ca && i <= ka then 1 else 0
    decreases |g[r][c]| - i
  {
    var s := g[r][c];
    if i < |s| {
      SuffixCount(g, x, r, c, i + 1, ra, ca, ka);
      assert s[i..][1..] == s[i + 1..];
      if s[i] == x {
        assert At(g, x, r, c, i);
      }
    }
  }

  /** The four "forward" neighbour offsets that Collide looks at:
      `adjoin = ((1, -1), (1, 0), (1, 1), (0, 1))`. */
  const Adjoin: seq<(int, int)> := [(1, -1), (1, 0), (1, 1), (0, 1)]

  /** The offsets of Adjoin, as a condition: the next row, or the next
      column of the same row. */
  predicate Forward(dr: int, dc: int)
  {
    (dr == 1 && -1 <= dc <= 1) || (dr == 0 && dc == 1)
  }

  /** Two boxes are the same or touch, including diagonally. */
  predicate Neighbours(r1: int, c1: int, r2: int, c2: int)
  {
    -1 <= r1 - r2 <= 1 && -1 <= c1 - c2 <= 1
  }

  /** Adjoin is Forward, and Adjoin and its negation split the eight
      neighbouring offsets between them: each offset to a different
      neighbouring box is in exactly one of the two, the zero offset and
      every farther one in neither. */
  lemma AdjoinPartition(dr: int, dc: int)
    ensures (dr, dc) in Adjoin <==> Forward(dr, dc)
    ensures !(Forward(dr, dc) && Forward(-dr, -dc))
    ensures Forward(dr, dc) || Forward(-dr, -dc) <==> Neighbours(dr, dc, 0, 0) && (dr, dc) != (0, 0)
  {
  }

  /** The ids of box `(r, c)`; nothing for a box outside the grid
      (`in_grid`). */
  function BoxAt(g: Cells, r: int, c: int): seq<nat>
  {
    if InRange(g, r, c) then g[r][c] else []
  }

  /** The ids of the forward neighbour boxes of `(row, col)`, box after box
      in the order of Adjoin. */
  function Around(g: Cells, row: int, col: int): seq<nat>
  {
    BoxAt(g, row + 1, col - 1) + BoxAt(g, row + 1, col) + BoxAt(g, row + 1, col + 1) + BoxAt(g, row, col + 1)
  }

  /** The pairs visited for the ids of a box from position `i` on, the box
      holding `ids` and its forward neighbour boxes `around`: each id is
      paired with the ids after it in the box, then with those of `around`. */
  function BoxPairs(ids: seq<nat>, around: seq<nat>, i: nat): seq<Pair>
    requires i <= |ids|
    decreases |ids| - i
  {
    if i == |ids| then [] else PairsWith(ids[i], ids[i + 1..] + around) + BoxPairs(ids, around, i + 1)
  }

  /** The pairs visited for the boxes of row `row` from column `col` on. */
  function RowPairs(g: Cells, row: nat, col: nat): seq<Pair>
    requires row < |g| && col <= |g[row]|
    decreases |g[row]| - col
  {
    if col == |g[row]| then [] else BoxPairs(g[row][col], Around(g, row, col), 0) + RowPairs(g, row, col + 1)
  }

  /** The pairs visited by GridGroup.collide for the rows from `row` on,
      box by box in row-major order. */
  function GridPairs(g: Cells, row: nat): seq<Pair>
    requires row <= |g|
    decreases |g| - row
  {
    if row == |g| then [] else RowPairs(g, row, 0) + GridPairs(g, row + 1)
  }

  /** One particle's turn opens BoxPairs: its pairs with the later ids of
      its box, then with the forward neighbours, then the later turns. */
  lemma BoxPairsStep(ids: seq<nat>, around: seq<nat>, i: nat)
    requires i < |ids|
    ensures BoxPairs(ids, around, i)
         == PairsWith(ids[i], ids[i + 1..]) + (PairsWith(ids[i], around) + BoxPairs(ids, around, i + 1))
  {
    PairsWithAppend(ids[i], ids[i + 1..], around);
  }

  /** One box opens RowPairs, followed by whatever is visited after it. */
  lemma RowPairsStep(g: Cells, row: nat, col: nat, after: seq<Pair>)
    requires row < |g| && col < |g[row]|
    ensures RowPairs(g, row, col) + after
         == BoxPairs(g[row][col], Around(g, row, col), 0) + (RowPairs(g, row, col + 1) + after)
  {
  }

  /** How often `b` is filed in box `(r, c)`; a box outside the grid holds
      nothing. */
  function Boxed(g: Cells, r: int, c: int, b: nat): nat
  {
    if InRange(g, r, c) then Occ(g[r][c], b) else 0
  }

  /** How often `b` is filed in the four forward neighbour boxes of
      `(row, col)`. */
  function NeighbourN(g: Cells, row: int, col: int, b: nat): nat
  {
    Boxed(g, row + 1, col - 1, b) + Boxed(g, row + 1, col, b) + Boxed(g, row + 1, col + 1, b) + Boxed(g, row, col + 1, b)
  }

  /** How often `(a, b)` is visited for the ids of a box from position `i`
      on: for each occurrence of `a` there, once per later `b` in the box and
      once per `b` in `around`. */
  function BoxN(ids: seq<nat>, around: seq<nat>, i: nat, a: nat, b: nat): nat
    requires i <= |ids|
    decreases |ids| - i
  {
    if i == |ids| then 0
    else (if ids[i] == a then Occ(ids[i + 1..], b) + Occ(around, b) else 0) + BoxN(ids, around, i + 1, a, b)
  }

  /** How often `(a, b)` is visited for row `row` from column `col` on. */
  function RowN(g: Cells, row: nat, col: nat, a: nat, b: nat): nat
    requires row < |g| && col <= |g[row]|
    decreases |g[row]| - col
  {
    if col == |g[row]| then 0 else BoxN(g[row][col], Around(g, row, col), 0, a, b) + RowN(g, row, col + 1, a, b)
  }

  /** How often `(a, b)` is visited for the rows from `row` on. */
  function GridN(g: Cells, row: nat, a: nat, b: nat): nat
    requires row <= |g|
    decreases |g| - row
  {
    if row == |g| then 0 else RowN(g, row, 0, a, b) + GridN(g, row + 1, a, b)
  }

  lemma AdjoinValues()
    ensures Adjoin[0] == (1, -1) && Adjoin[1] == (1, 0) && Adjoin[2] == (1, 1) && Adjoin[3] == (0, 1)
  {
  }

  /** The forward neighbour boxes hold `b` as often as NeighbourN says. */
  lemma AroundIs(g: Cells, row: int, col: int, b: nat)
    ensures Occ(Around(g, row, col), b) == NeighbourN(g, row, col, b)
  {
    var w, x, y, z := BoxAt(g, row + 1, col - 1), BoxAt(g, row + 1, col), BoxAt(g, row + 1, col + 1), BoxAt(g, row, col + 1);
    OccAppend(w + x + y, z, b);
    OccAppend(w + x, y, b);
    OccAppend(w, x, b);
  }

  lemma {:induction false} BoxNIs(ids: seq<nat>, around: seq<nat>, i: nat, a: nat, b: nat)
    requires i <= |ids|
    ensures Occ(BoxPairs(ids, around, i), (a, b)) == BoxN(ids, around, i, a, b)
    decreases |ids| - i
  {
    if i < |ids| {
      BoxNIs(ids, around, i + 1, a, b);
      PairsWithCount(ids[i], ids[i + 1..] + around, a, b);
      OccAppend(PairsWith(ids[i], ids[i + 1..] + around), BoxPairs(ids, around, i + 1), (a, b));
      OccAppend(ids[i + 1..], around, b);
    }
  }

  lemma {:induction false} RowNIs(g: Cells, row: nat, col: nat, a: nat, b: nat)
    requires row < |g| && col <= |g[row]|
    ensures Occ(RowPairs(g, row, col), (a, b)) == RowN(g, row, col, a, b)
    decreases |g[row]| - col
  {
    if col < |g[row]| {
      RowNIs(g, row, col + 1, a, b);
      BoxNIs(g[row][col], Around(g, row, col), 0, a, b);
      OccAppend(BoxPairs(g[row][col], Around(g, row, col), 0), RowPairs(g, row, col + 1), (a, b));
    }
  }

  lemma {:induction false} GridNIs(g: Cells, row: nat, a: nat, b: nat)
    requires row <= |g|
    ensures Occ(GridPairs(g, row), (a, b)) == GridN(g, row, a, b)
    decreases |g| - row
  {
    if row < |g| {
      GridNIs(g, row + 1, a, b);
      RowNIs(g, row, 0, a, b);
      OccAppend(RowPairs(g, row, 0), GridPairs(g, row + 1), (a, b));
    }
  }

  /** An id with its sole position in box `(rb, cb)` is filed once there and
      nowhere else. */
  lemma BoxedCount(g: Cells, r: int, c: int, b: nat, rb: int, cb: int, kb: int)
    requires Sole(g, b, rb, cb, kb)
    ensures Boxed(g, r, c, b) == if r == rb && c == cb then 1 else 0
  {
    if InRange(g, r, c) {
      SuffixCount(g, b, r, c, 0, rb, cb, kb);
      assert g[r][c][0..] == g[r][c];
    }
  }

  /** The forward neighbour boxes are four different boxes: such an id is in
      one of them exactly when its box is a forward neighbour. */
  lemma NeighbourCount(g: Cells, row: int, col: int, b: nat, rb: int, cb: int, kb: int)
    requires Sole(g, b, rb, cb, kb)
    ensures NeighbourN(g, row, col, b) == if Forward(rb - row, cb - col) then 1 else 0
  {
    BoxedCount(g, row + 1, col - 1, b, rb, cb, kb);
    BoxedCount(g, row + 1, col, b, rb, cb, kb);
    BoxedCount(g, row + 1, col + 1, b, rb, cb, kb);
    BoxedCount(g, row, col + 1, b, rb, cb, kb);
  }

  /** How often `(a, b)` is visited for the box of `a`, with `a` at
      `(ra, ca, ka)` and `b` at `(rb, cb, kb)`: once if `b` comes after `a`
      in the same box, plus once if `b` is in a forward neighbour box. */
  function Expected(ra: int, ca: int, ka: int, rb: int, cb: int, kb: int): nat
  {
    (if rb == ra && cb == ca && ka < kb then 1 else 0) + (if Forward(rb - ra, cb - ca) then 1 else 0)
  }

  /** How often `(a, b)` is visited from position `i` of box `(row, col)`
      on: as Expected says if `a` is in that box at or after `i`, else
      never. */
  lemma {:induction false} BoxCount(g: Cells, row: nat, col: nat, i: nat, a: nat, b: nat,
                                    ra: int, ca: int, ka: int, rb: int, cb: int, kb: int)
    requires Sole(g, a, ra, ca, ka) && Sole(g, b, rb, cb, kb)
    requires InRange(g, row, col) && i <= |g[row][col]|
    ensures BoxN(g[row][col], Around(g, row, col), i, a, b)
         == if row == ra && col == ca && i <= ka then Expected(ra, ca, ka, rb, cb, kb) else 0
    decreases |g[row][col]| - i
  {
    if i < |g[row][col]| {
      BoxCount(g, row, col, i + 1, a, b, ra, ca, ka, rb, cb, kb);
      if a == g[row][col][i] {
        assert At(g, a, row, col, i);
        SuffixCount(g, b, row, col, i + 1, rb, cb, kb);
        AroundIs(g, row, col, b);
        NeighbourCount(g, row, col, b, rb, cb, kb);
      } else {
        assert !(row == ra && col == ca && i == ka);
      }
    }
  }

  /** The same for row `row` from column `col` on: as Expected says if `a`
      is in one of those boxes, else never. */
  lemma {:induction false} RowCount(g: Cells, row: nat, col: nat, a: nat, b: nat,
                                    ra: int, ca: int, ka: int, rb: int, cb: int, kb: int)
    requires Sole(g, a, ra, ca, ka) && Sole(g, b, rb, cb, kb)
    requires row < |g| && col <= |g[row]|
    ensures RowN(g, row, col, a, b)
         == if ra == row && col <= ca then Expected(ra, ca, ka, rb, cb, kb) else 0
    decreases |g[row]| - col
  {
    if col < |g[row]| {
      assert 0 <= ka;
      BoxCount(g, row, col, 0, a, b, ra, ca, ka, rb, cb, kb);
      RowCount(g, row, col + 1, a, b, ra, ca, ka, rb, cb, kb);
      assert RowN(g, row, col, a, b) == BoxN(g[row][col], Around(g, row, col), 0, a, b) + RowN(g, row, col + 1, a, b);
    }
  }

  /** The same for the rows from `row` on: as Expected says if `a` is in one
      of those rows, else never. */
  lemma {:induction false} GridCount(g: Cells, row: nat, a: nat, b: nat,
                                     ra: int, ca: int, ka: int, rb: int, cb: int, kb: int)
    requires Sole(g, a, ra, ca, ka) && Sole(g, b, rb, cb, kb) && row <= |g|
    ensures GridN(g, row, a, b) == if row <= ra then Expected(ra, ca, ka, rb, cb, kb) else 0
    decreases |g| - row
  {
    if row < |g| {
      RowCount(g, row, 0, a, b, ra, ca, ka, rb, cb, kb);
      GridCount(g, row + 1, a, b, ra, ca, ka, rb, cb, kb);
    }
  }

  /** GridGroup.collide visits every unordered pair of distinct particles
      in the same or in touching boxes exactly once (as `(a, b)` or as
      `(b, a)`), and no other pair of particles of the grid. */
  lemma GridPairsExactlyOnce(g: Cells, a: nat, b: nat, ra: int, ca: int, ka: int, rb: int, cb: int, kb: int)
    requires Unique(g) && At(g, a, ra, ca, ka) && At(g, b, rb, cb, kb) && a != b
    ensures multiset(GridPairs(g, 0))[(a, b)] + multiset(GridPairs(g, 0))[(b, a)]
         == if Neighbours(ra, ca, rb, cb) then 1 else 0
  {
    UniqueSole(g, a, ra, ca, ka);
    UniqueSole(g, b, rb, cb, kb);
    GridNIs(g, 0, a, b);
    GridNIs(g, 0, b, a);
    OccIsMultiplicity(GridPairs(g, 0), (a, b));
    OccIsMultiplicity(GridPairs(g, 0), (b, a));
    GridCount(g, 0, a, b, ra, ca, ka, rb, cb, kb);
    GridCount(g, 0, b, a, rb, cb, kb, ra, ca, ka);
    AdjoinPartition(rb - ra, cb - ca);
    if ra == rb && ca == cb && ka == kb {
      assert false;
    }
  }

  /** No particle of the grid is ever paired with itself. */
  lemma GridPairsNoSelf(g: Cells, a: nat, ra: int, ca: int, ka: int)
    requires Unique(g) && At(g, a, ra, ca, ka)
    ensures multiset(GridPairs(g, 0))[(a, a)] == 0
  {
    UniqueSole(g, a, ra, ca, ka);
    GridNIs(g, 0, a, a);
    OccIsMultiplicity(GridPairs(g, 0), (a, a));
    GridCount(g, 0, a, a, ra, ca, ka, ra, ca, ka);
  }

  /** Every id filed in the grid names a particle of a group of `n`. */
  ghost predicate GridBelow(g: Cells, n: nat)
  {
    forall r, c :: InRange(g, r, c) ==> Below(g[r][c], n)
  }

  lemma AroundBelow(g: Cells, row: int, col: int, n: nat)
    requires GridBelow(g, n)
    ensures Below(Around(g, row, col), n)
  {
  }

  lemma {:induction false} BoxPairsIn(ids: seq<nat>, around: seq<nat>, i: nat, n: nat)
    requires Below(ids, n) && Below(around, n) && i <= |ids|
    ensures PairsIn(BoxPairs(ids, around, i), n)
    decreases |ids| - i
  {
    if i < |ids| {
      BoxPairsIn(ids, around, i + 1, n);
      PairsWithIn(ids[i], ids[i + 1..] + around, n);
      PairsInAppend(PairsWith(ids[i], ids[i + 1..] + around), BoxPairs(ids, around, i + 1), n);
    }
  }

  lemma {:induction false} RowPairsIn(g: Cells, row: nat, col: nat, n: nat)
    requires GridBelow(g, n) && row < |g| && col <= |g[row]|
    ensures PairsIn(RowPairs(g, row, col), n)
    decreases |g[row]| - col
  {
    if col < |g[row]| {
      AroundBelow(g, row, col, n);
      BoxPairsIn(g[row][col], Around(g, row, col), 0, n);
      RowPairsIn(g, row, col + 1, n);
      PairsInAppend(BoxPairs(g[row][col], Around(g, row, col), 0), RowPairs(g, row, col + 1), n);
    }
  }

  /** The pairs GridGroup.collide visits are pairs of particles of the
      group. */
  lemma {:induction false} GridPairsIn(g: Cells, row: nat, n: nat)
    requires GridBelow(g, n) && row <= |g|
    ensures PairsIn(GridPairs(g, row), n)
    decreases |g| - row
  {
    if row < |g| {
      RowPairsIn(g, row, 0, n);
      GridPairsIn(g, row + 1, n);
      PairsInAppend(RowPairs(g, row, 0), GridPairs(g, row + 1), n);
    }
  }

  /** The forward neighbour boxes of `(row, col)`, one per offset of Adjoin
      and in its order; a box outside the grid counts as empty. */
  function Forwards(g: Cells, row: int, col: int): (bs: seq<seq<nat>>)
    ensures |bs| == |Adjoin|
    ensures forall j :: 0 <= j < |Adjoin| ==> bs[j] == BoxAt(g, row + Adjoin[j].0, col + Adjoin[j].1)
  {
    seq(|Adjoin|, j requires 0 <= j < |Adjoin| => BoxAt(g, row + Adjoin[j].0, col + Adjoin[j].1))
  }

  /** The boxes' ids one box after the other. */
  function Flatten(bs: seq<seq<nat>>): seq<nat>
  {
    if |bs| == 0 then [] else bs[0] + Flatten(bs[1..])
  }

  /** One turn of the loop over the boxes takes the `j`-th box. */
  lemma FlattenStep(bs: seq<seq<nat>>, j: nat)
    requires j < |bs|
    ensures Flatten(bs[j..]) == bs[j] + Flatten(bs[j + 1..])
  {
    assert bs[j..][1..] == bs[j + 1..];
  }

  /** The forward neighbour boxes, one after the other, are Around. */
  lemma ForwardsAround(g: Cells, row: int, col: int)
    ensures Flatten(Forwards(g, row, col)[0..]) == Around(g, row, col)
  {
    var bs := Forwards(g, row, col);
    assert bs[0..] == bs;
    FlattenFour(bs);
    AdjoinValues();
    assert bs[0] == BoxAt(g, row + 1, col - 1);
    assert bs[1] == BoxAt(g, row + 1, col);
    assert bs[2] == BoxAt(g, row + 1, col + 1);
    assert bs[3] == BoxAt(g, row, col + 1);
  }

  lemma FlattenFour(bs: seq<seq<nat>>)
    requires |bs| == 4
    ensures Flatten(bs) == bs[0] + bs[1] + bs[2] + bs[3]
  {
    assert bs[1..][1..] == bs[2..] && bs[2..][1..] == bs[3..] && bs[3..][1..] == [];
    assert Flatten(bs[3..]) == bs[3] + [] == bs[3];
    assert Flatten(bs[2..]) == bs[2] + bs[3];
    assert Flatten(bs[1..]) == bs[1] + (bs[2] + bs[3]);
  }
}
