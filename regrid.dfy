/** GridGroup.regrid (Collision-Simulator/Interaction/grid.py, and its copy in
    Collision-Simulator/GridGroup/grid.py) as functions on the grid: the grid
    after one box has been scanned, after one row, after all of them; and
    what regrid keeps (the particles filed) and establishes (every particle
    in the box of its position). */
module Regrid {
  import opened Pairs
  import opened Particle
  import opened Grid

  /** Both grids have the same rows of the same lengths. */
  predicate SameShape(g: Cells, h: Cells)
  {
    |g| == |h| && forall r :: 0 <= r < |g| ==> |g[r]| == |h[r]|
  }

  /** Particle `x` exists and its position maps to a box of the grid. */
  predicate Fits(g: Cells, bodies: seq<Body>, size: real, x: nat)
  {
    size != 0.0 && x < |bodies| && InRange(g, CellOf(bodies[x], size).0, CellOf(bodies[x], size).1)
  }

  /** Every particle of `xs` fits. */
  predicate AllFit(g: Cells, bodies: seq<Body>, size: real, xs: seq<nat>)
  {
    forall k :: 0 <= k < |xs| ==> Fits(g, bodies, size, xs[k])
  }

  lemma AllFitAppend(g: Cells, bodies: seq<Body>, size: real, xs: seq<nat>, ys: seq<nat>)
    requires AllFit(g, bodies, size, xs) && AllFit(g, bodies, size, ys)
    ensures AllFit(g, bodies, size, xs + ys)
  {
    forall k | 0 <= k < |xs + ys|
      ensures Fits(g, bodies, size, (xs + ys)[k])
    {
      if k < |xs| {
        assert (xs + ys)[k] == xs[k];
      } else {
        assert (xs + ys)[k] == ys[k - |xs|];
      }
    }
  }

  /** Every particle filed in the grid fits: regrid never indexes outside
      the grid. */
  ghost predicate TargetsIn(g: Cells, bodies: seq<Body>, size: real)
  {
    size != 0.0 && forall x {:trigger Fits(g, bodies, size, x)} :: x in Contents(g) ==> Fits(g, bodies, size, x)
  }

  /** Whether the particles of a grid fit depends only on its shape and on
      which particles it holds. */
  lemma TargetsKept(g: Cells, h: Cells, bodies: seq<Body>, size: real)
    requires SameShape(h, g) && Contents(h) == Contents(g)
    ensures TargetsIn(h, bodies, size) == TargetsIn(g, bodies, size)
  {
    forall x ensures Fits(h, bodies, size, x) == Fits(g, bodies, size, x) {
    }
  }

  /** `grid[row][col].append(x)`: `x` goes at the end of box `(row, col)`
      and every other box is left as it was. */
  function Filed(g: Cells, row: int, col: int, x: nat): (h: Cells)
    requires InRange(g, row, col)
    ensures SameShape(h, g)
  {
    g[row := g[row][col := g[row][col] + [x]]]
  }

  /** Only box `(row, col)` changes, and it gains `x` at its end. */
  lemma FiledBoxes(g: Cells, row: int, col: int, x: nat)
    requires InRange(g, row, col)
    ensures forall r, c :: InRange(g, r, c) ==>
      Filed(g, row, col, x)[r][c] == if r == row && c == col then g[r][c] + [x] else g[r][c]
  {
  }

  /** Filing `x` adds one `x` to the grid's contents. */
  lemma FiledContents(g: Cells, row: int, col: int, x: nat)
    requires InRange(g, row, col)
    ensures Contents(Filed(g, row, col, x)) == Contents(g) + multiset{x}
  {
    var s := g[row][col];
    ContentsUpdate(g, row, col, s + [x]);
    assert multiset(s + [x]) == multiset(s) + multiset{x};
    Cancel(Contents(g[row := g[row][col := s + [x]]]), Contents(g) + multiset{x}, multiset(s));
  }

  lemma Cancel(a: multiset<nat>, b: multiset<nat>, m: multiset<nat>)
    requires a + m == b + m
    ensures a == b
  {
    assert forall y :: a[y] == (a + m)[y] - m[y];
  }

  /** Every particle filed in box `(row, col)` fits. */
  lemma BoxTargets(g: Cells, bodies: seq<Body>, size: real, row: int, col: int)
    requires TargetsIn(g, bodies, size) && InRange(g, row, col)
    ensures AllFit(g, bodies, size, g[row][col])
  {
    BoxInContents(g, row, col);
    forall k | 0 <= k < |g[row][col]|
      ensures Fits(g, bodies, size, g[row][col][k])
    {
      assert g[row][col][k] in multiset(g[row][col]);
    }
  }

  /** A box holding a particle that does not fit: the grid's particles do
      not all fit. */
  lemma BoxMisfit(g: Cells, bodies: seq<Body>, size: real, row: int, col: int)
    requires InRange(g, row, col) && !AllFit(g, bodies, size, g[row][col])
    ensures !TargetsIn(g, bodies, size)
  {
    if TargetsIn(g, bodies, size) {
      BoxTargets(g, bodies, size, row, col);
      assert false;
    }
  }

  /** The list `outside` of the scan of box `(row, col)`: the ids of `s`
      whose particle has left the box, in the order of `s`. */
  function Outside(s: seq<nat>, bodies: seq<Body>, size: real, row: int, col: int): (m: seq<nat>)
    requires size != 0.0 && Below(s, |bodies|)
    ensures Below(m, |bodies|)
    ensures forall k :: 0 <= k < |m| ==> CellOf(bodies[m[k]], size) != (row, col)
    decreases |s|
  {
    if |s| == 0 then []
    else (if CellOf(bodies[s[0]], size) != (row, col) then [s[0]] else []) + Outside(s[1..], bodies, size, row, col)
  }

  /** The ids of `s` whose particle belongs to box `(row, col)`, in the
      order of `s`. */
  function Inside(s: seq<nat>, bodies: seq<Body>, size: real, row: int, col: int): (m: seq<nat>)
    requires size != 0.0 && Below(s, |bodies|)
    ensures Below(m, |bodies|)
    ensures forall k :: 0 <= k < |m| ==> CellOf(bodies[m[k]], size) == (row, col)
    decreases |s|
  {
    if |s| == 0 then []
    else (if CellOf(bodies[s[0]], size) == (row, col) then [s[0]] else []) + Inside(s[1..], bodies, size, row, col)
  }

  /** A box splits into the ids that leave and the ids that stay. */
  lemma {:induction false} SplitBox(s: seq<nat>, bodies: seq<Body>, size: real, row: int, col: int)
    requires size != 0.0 && Below(s, |bodies|)
    ensures multiset(Outside(s, bodies, size, row, col)) + multiset(Inside(s, bodies, size, row, col)) == multiset(s)
    decreases |s|
  {
    if |s| != 0 {
      SplitBox(s[1..], bodies, size, row, col);
      SplitHead(s, bodies, size, row, col);
      assert s == [s[0]] + s[1..];
    }
  }

  /** The first id of a box goes to exactly one of the two lists. */
  lemma SplitHead(s: seq<nat>, bodies: seq<Body>, size: real, row: int, col: int)
    requires size != 0.0 && Below(s, |bodies|) && |s| != 0
    ensures multiset(Outside(s, bodies, size, row, col)) + multiset(Inside(s, bodies, size, row, col))
         == multiset{s[0]} + (multiset(Outside(s[1..], bodies, size, row, col)) + multiset(Inside(s[1..], bodies, size, row, col)))
  {
    var out, ins := Outside(s[1..], bodies, size, row, col), Inside(s[1..], bodies, size, row, col);
    if CellOf(bodies[s[0]], size) != (row, col) {
      assert Outside(s, bodies, size, row, col) == [s[0]] + out;
      assert Inside(s, bodies, size, row, col) == ins;
      assert multiset([s[0]] + out) == multiset{s[0]} + multiset(out);
    } else {
      assert Outside(s, bodies, size, row, col) == out;
      assert Inside(s, bodies, size, row, col) == [s[0]] + ins;
      assert multiset([s[0]] + ins) == multiset{s[0]} + multiset(ins);
    }
  }

  lemma {:induction false} OutsideAppend(a: seq<nat>, b: seq<nat>, bodies: seq<Body>, size: real, row: int, col: int)
    requires size != 0.0 && Below(a, |bodies|) && Below(b, |bodies|)
    ensures Below(a + b, |bodies|)
    ensures Outside(a + b, bodies, size, row, col) == Outside(a, bodies, size, row, col) + Outside(b, bodies, size, row, col)
    decreases |a|
  {
    BelowAppend(a, b, |bodies|);
    if |a| == 0 {
      assert a + b == b;
    } else {
      assert (a + b)[0] == a[0] && (a + b)[1..] == a[1..] + b;
      OutsideAppend(a[1..], b, bodies, size, row, col);
      var head := if CellOf(bodies[a[0]], size) != (row, col) then [a[0]] else [];
      assert Outside(a, bodies, size, row, col) == head + Outside(a[1..], bodies, size, row, col);
      assert Outside(a + b, bodies, size, row, col) == head + Outside(a[1..] + b, bodies, size, row, col);
    }
  }

  lemma {:induction false} InsideAppend(a: seq<nat>, b: seq<nat>, bodies: seq<Body>, size: real, row: int, col: int)
    requires size != 0.0 && Below(a, |bodies|) && Below(b, |bodies|)
    ensures Below(a + b, |bodies|)
    ensures Inside(a + b, bodies, size, row, col) == Inside(a, bodies, size, row, col) + Inside(b, bodies, size, row, col)
    decreases |a|
  {
    BelowAppend(a, b, |bodies|);
    if |a| == 0 {
      assert a + b == b;
    } else {
      assert (a + b)[0] == a[0] && (a + b)[1..] == a[1..] + b;
      InsideAppend(a[1..], b, bodies, size, row, col);
      var head := if CellOf(bodies[a[0]], size) == (row, col) then [a[0]] else [];
      assert Inside(a, bodies, size, row, col) == head + Inside(a[1..], bodies, size, row, col);
      assert Inside(a + b, bodies, size, row, col) == head + Inside(a[1..] + b, bodies, size, row, col);
    }
  }

  /** No id of a list of leavers belongs to the box they leave. */
  lemma {:induction false} InsideNone(s: seq<nat>, bodies: seq<Body>, size: real, row: int, col: int)
    requires size != 0.0 && Below(s, |bodies|)
    requires forall k :: 0 <= k < |s| ==> CellOf(bodies[s[k]], size) != (row, col)
    ensures Inside(s, bodies, size, row, col) == []
    decreases |s|
  {
    if |s| != 0 {
      InsideNone(s[1..], bodies, size, row, col);
    }
  }

  /** The leavers of a box whose particles fit fit too. */
  lemma {:induction false} OutsideFits(g: Cells, s: seq<nat>, bodies: seq<Body>, size: real, row: int, col: int)
    requires size != 0.0 && AllFit(g, bodies, size, s)
    ensures Below(s, |bodies|)
    ensures AllFit(g, bodies, size, Outside(s, bodies, size, row, col))
    decreases |s|
  {
    if |s| != 0 {
      OutsideFits(g, s[1..], bodies, size, row, col);
    }
  }

  /** The appends of the scan: each id of `xs` in turn is filed in the box
      of its particle's position. */
  function FileAll(g: Cells, bodies: seq<Body>, size: real, xs: seq<nat>): (h: Cells)
    requires AllFit(g, bodies, size, xs)
    ensures SameShape(h, g)
    decreases |xs|
  {
    if |xs| == 0 then g
    else
      var last := xs[|xs| - 1];
      var h := FileAll(g, bodies, size, xs[..|xs| - 1]);
      Filed(h, CellOf(bodies[last], size).0, CellOf(bodies[last], size).1, last)
  }

  /** The appends add the ids of `xs` to the grid's contents. */
  lemma {:induction false} FileAllContents(g: Cells, bodies: seq<Body>, size: real, xs: seq<nat>)
    requires AllFit(g, bodies, size, xs)
    ensures Contents(FileAll(g, bodies, size, xs)) == Contents(g) + multiset(xs)
    decreases |xs|
  {
    if |xs| != 0 {
      var init, last := xs[..|xs| - 1], xs[|xs| - 1];
      assert xs == init + [last];
      FileAllContents(g, bodies, size, init);
      var h := FileAll(g, bodies, size, init);
      FiledContents(h, CellOf(bodies[last], size).0, CellOf(bodies[last], size).1, last);
    }
  }

  /** After the appends, box `(r, c)` is what it was followed by the ids of
      `xs` that belong to it, in the order of `xs`. */
  lemma {:induction false} FileAllBox(g: Cells, bodies: seq<Body>, size: real, xs: seq<nat>, r: int, c: int)
    requires size != 0.0 && AllFit(g, bodies, size, xs) && InRange(g, r, c)
    ensures Below(xs, |bodies|)
    ensures FileAll(g, bodies, size, xs)[r][c] == g[r][c] + Inside(xs, bodies, size, r, c)
    decreases |xs|
  {
    if |xs| == 0 {
      assert g[r][c] + [] == g[r][c];
    } else {
      var init, last := xs[..|xs| - 1], xs[|xs| - 1];
      assert xs == init + [last];
      var h := FileAll(g, bodies, size, init);
      FileAllBox(g, bodies, size, init, r, c);
      assert Fits(g, bodies, size, last);
      var cell := CellOf(bodies[last], size);
      FileAllSnoc(g, bodies, size, init, last);
      InsideSnoc(init, last, bodies, size, r, c);
      FiledBoxes(h, cell.0, cell.1, last);
      var tail := if cell == (r, c) then [last] else [];
      assert g[r][c] + Inside(init, bodies, size, r, c) + tail == g[r][c] + (Inside(init, bodies, size, r, c) + tail);
    }
  }

  /** `list.remove(x)`: the list without the first occurrence of `x`. */
  function RemoveFirst(s: seq<nat>, x: nat): (r: seq<nat>)
    ensures x in s ==> |r| == |s| - 1
    ensures x !in s ==> r == s
    decreases |s|
  {
    if |s| == 0 then []
    else if s[0] == x then s[1..]
    else [s[0]] + RemoveFirst(s[1..], x)
  }

  /** `for sprite in outside: box.remove(sprite)`. */
  function RemoveAll(s: seq<nat>, xs: seq<nat>): seq<nat>
    decreases |xs|
  {
    if |xs| == 0 then s else RemoveAll(RemoveFirst(s, xs[0]), xs[1..])
  }

  lemma {:induction false} RemoveAllSnoc(s: seq<nat>, xs: seq<nat>, x: nat)
    ensures RemoveAll(s, xs + [x]) == RemoveFirst(RemoveAll(s, xs), x)
    decreases |xs|
  {
    if |xs| == 0 {
      assert ([] + [x])[1..] == [];
    } else {
      assert (xs + [x])[1..] == xs[1..] + [x];
      RemoveAllSnoc(RemoveFirst(s, xs[0]), xs[1..], x);
    }
  }

  /** Removing ids other than the first one leaves the first one first. */
  lemma {:induction false} RemoveAllSkips(h: nat, t: seq<nat>, xs: seq<nat>)
    requires h !in xs
    ensures RemoveAll([h] + t, xs) == [h] + RemoveAll(t, xs)
    decreases |xs|
  {
    if |xs| != 0 {
      assert ([h] + t)[1..] == t;
      assert xs[0] in xs;
      RemoveAllSkips(h, RemoveFirst(t, xs[0]), xs[1..]);
    }
  }

  /** Removing the leavers from a box leaves exactly the ids that stay, in
      their order. */
  lemma {:induction false} RemoveOutside(s: seq<nat>, bodies: seq<Body>, size: real, row: int, col: int)
    requires size != 0.0 && Below(s, |bodies|)
    ensures RemoveAll(s, Outside(s, bodies, size, row, col)) == Inside(s, bodies, size, row, col)
    decreases |s|
  {
    if |s| != 0 {
      var t := s[1..];
      assert s == [s[0]] + t;
      RemoveOutside(t, bodies, size, row, col);
      if CellOf(bodies[s[0]], size) == (row, col) {
        assert Outside(s, bodies, size, row, col) == Outside(t, bodies, size, row, col);
        RemoveAllSkips(s[0], t, Outside(t, bodies, size, row, col));
      } else {
        assert Outside(s, bodies, size, row, col) == [s[0]] + Outside(t, bodies, size, row, col);
      }
    }
  }

  /** The scan of box `(row, col)`: its leavers are filed in their new boxes
      and removed from it; it keeps the ids that stay. The grid holds the
      same particles as before. */
  function Refiled(g: Cells, bodies: seq<Body>, size: real, row: int, col: int): (h: Cells)
    requires size != 0.0 && InRange(g, row, col) && AllFit(g, bodies, size, g[row][col])
    ensures SameShape(h, g) && Contents(h) == Contents(g)
    ensures TargetsIn(h, bodies, size) == TargetsIn(g, bodies, size)
  {
    var s := g[row][col];
    OutsideFits(g, s, bodies, size, row, col);
    var out := Outside(s, bodies, size, row, col);
    var h := FileAll(g, bodies, size, out);
    FileAllContents(g, bodies, size, out);
    FileAllBox(g, bodies, size, out, row, col);
    InsideNone(out, bodies, size, row, col);
    assert h[row][col] == s;
    var kept := Inside(s, bodies, size, row, col);
    SplitBox(s, bodies, size, row, col);
    ContentsUpdate(h, row, col, kept);
    var h' := h[row := h[row][col := kept]];
    assert Contents(h') + multiset(s) == Contents(g) + (multiset(out) + multiset(kept));
    Cancel(Contents(h'), Contents(g), multiset(s));
    TargetsKept(g, h', bodies, size);
    h'
  }

  /** The scans of the boxes of row `row` from column `col` on. */
  function RegridRow(g: Cells, bodies: seq<Body>, size: real, row: nat, col: nat): (h: Cells)
    requires TargetsIn(g, bodies, size) && row < |g| && col <= |g[row]|
    ensures SameShape(h, g) && Contents(h) == Contents(g) && TargetsIn(h, bodies, size)
    decreases |g[row]| - col
  {
    if col == |g[row]| then g
    else BoxTargets(g, bodies, size, row, col); RegridRow(Refiled(g, bodies, size, row, col), bodies, size, row, col + 1)
  }

  /** The scans of the rows from `row` on. */
  function RegridRows(g: Cells, bodies: seq<Body>, size: real, row: nat): (h: Cells)
    requires TargetsIn(g, bodies, size) && row <= |g|
    ensures SameShape(h, g) && Contents(h) == Contents(g) && TargetsIn(h, bodies, size)
    decreases |g| - row
  {
    if row == |g| then g else RegridRows(RegridRow(g, bodies, size, row, 0), bodies, size, row + 1)
  }

  /** One box of a row, and one row of the grid, at a time. */
  lemma RegridRowStep(g: Cells, bodies: seq<Body>, size: real, row: nat, col: nat)
    requires TargetsIn(g, bodies, size) && row < |g| && col < |g[row]| && AllFit(g, bodies, size, g[row][col])
    ensures RegridRow(g, bodies, size, row, col) == RegridRow(Refiled(g, bodies, size, row, col), bodies, size, row, col + 1)
  {
  }

  lemma RegridRowEnd(g: Cells, bodies: seq<Body>, size: real, row: nat)
    requires TargetsIn(g, bodies, size) && row < |g|
    ensures RegridRow(g, bodies, size, row, |g[row]|) == g
  {
  }

  lemma RegridRowsStep(g: Cells, bodies: seq<Body>, size: real, row: nat)
    requires TargetsIn(g, bodies, size) && row < |g|
    ensures RegridRows(g, bodies, size, row) == RegridRows(RegridRow(g, bodies, size, row, 0), bodies, size, row + 1)
  {
  }

  lemma RegridRowsEnd(g: Cells, bodies: seq<Body>, size: real)
    requires TargetsIn(g, bodies, size)
    ensures RegridRows(g, bodies, size, |g|) == g
  {
  }

  /** GridGroup.regrid: every box scanned, in row-major order. */
  function Regridded(g: Cells, bodies: seq<Body>, size: real): (h: Cells)
    requires TargetsIn(g, bodies, size)
  {
    RegridRows(g, bodies, size, 0)
  }

  /** The grid after the scans of the first `k` rows, built forwards, the
      way the row loop of regrid goes. */
  function RegridFirst(g: Cells, bodies: seq<Body>, size: real, k: nat): (h: Cells)
    requires TargetsIn(g, bodies, size) && k <= |g|
    ensures SameShape(h, g) && TargetsIn(h, bodies, size)
    decreases k
  {
    if k == 0 then g else RegridRow(RegridFirst(g, bodies, size, k - 1), bodies, size, k - 1, 0)
  }

  /** Scanning the first `k` rows and then the rest is scanning them all. */
  lemma {:induction false} RegridFirstRows(g: Cells, bodies: seq<Body>, size: real, k: nat)
    requires TargetsIn(g, bodies, size) && k <= |g|
    ensures RegridRows(RegridFirst(g, bodies, size, k), bodies, size, k) == Regridded(g, bodies, size)
    decreases k
  {
    if k > 0 {
      RegridFirstRows(g, bodies, size, k - 1);
      RegridRowsStep(RegridFirst(g, bodies, size, k - 1), bodies, size, k - 1);
    }
  }

  /** The rows scanned forwards, all of them: the regridded grid. */
  lemma RegridFirstAll(g: Cells, bodies: seq<Body>, size: real)
    requires TargetsIn(g, bodies, size)
    ensures RegridFirst(g, bodies, size, |g|) == Regridded(g, bodies, size)
  {
    RegridFirstRows(g, bodies, size, |g|);
    RegridRowsEnd(RegridFirst(g, bodies, size, |g|), bodies, size);
  }

  /** Every particle filed in a box before `(row, col)` in row-major order
      belongs to that box. */
  ghost predicate Settled(g: Cells, bodies: seq<Body>, size: real, row: int, col: int)
  {
    size != 0.0 &&
    forall r, c, k :: InRange(g, r, c) && (r < row || (r == row && c < col)) && 0 <= k < |g[r][c]| ==>
      g[r][c][k] < |bodies| && CellOf(bodies[g[r][c][k]], size) == (r, c)
  }

  /** Every particle filed in the grid is in the box of its position. */
  ghost predicate Placed(g: Cells, bodies: seq<Body>, size: real)
  {
    Settled(g, bodies, size, |g|, 0)
  }

  /** Scanning box `(row, col)` settles it without unsettling the boxes
      before it: the leavers it files elsewhere belong where they go, and it
      keeps only the particles that belong to it. */
  lemma RefiledSettles(g: Cells, bodies: seq<Body>, size: real, row: int, col: int)
    requires InRange(g, row, col) && AllFit(g, bodies, size, g[row][col]) && Settled(g, bodies, size, row, col)
    ensures Settled(Refiled(g, bodies, size, row, col), bodies, size, row, col + 1)
  {
    var s := g[row][col];
    OutsideFits(g, s, bodies, size, row, col);
    var out := Outside(s, bodies, size, row, col);
    var h := Refiled(g, bodies, size, row, col);
    forall r, c, k | InRange(h, r, c) && (r < row || (r == row && c < col + 1)) && 0 <= k < |h[r][c]|
      ensures h[r][c][k] < |bodies| && CellOf(bodies[h[r][c][k]], size) == (r, c)
    {
      if r == row && c == col {
        assert h[r][c] == Inside(s, bodies, size, row, col);
      } else {
        FileAllBox(g, bodies, size, out, r, c);
        var moved := Inside(out, bodies, size, r, c);
        assert h[r][c] == g[r][c] + moved;
        if k >= |g[r][c]| {
          assert h[r][c][k] == moved[k - |g[r][c]|];
        }
      }
    }
  }

  /** Scanning the rest of row `row` settles the whole row. */
  lemma {:induction false} RegridRowSettles(g: Cells, bodies: seq<Body>, size: real, row: nat, col: nat)
    requires TargetsIn(g, bodies, size) && row < |g| && col <= |g[row]| && Settled(g, bodies, size, row, col)
    ensures Settled(RegridRow(g, bodies, size, row, col), bodies, size, row + 1, 0)
    decreases |g[row]| - col
  {
    if col < |g[row]| {
      BoxTargets(g, bodies, size, row, col);
      RefiledSettles(g, bodies, size, row, col);
      RegridRowSettles(Refiled(g, bodies, size, row, col), bodies, size, row, col + 1);
    }
  }

  /** Scanning the rows from `row` on settles the whole grid. */
  lemma {:induction false} RegridRowsSettles(g: Cells, bodies: seq<Body>, size: real, row: nat)
    requires TargetsIn(g, bodies, size) && row <= |g| && Settled(g, bodies, size, row, 0)
    ensures Placed(RegridRows(g, bodies, size, row), bodies, size)
    decreases |g| - row
  {
    if row < |g| {
      RegridRowSettles(g, bodies, size, row, 0);
      RegridRowsSettles(RegridRow(g, bodies, size, row, 0), bodies, size, row + 1);
    }
  }

  /** regrid loses and duplicates no particle, and leaves every particle in
      the box of its current position. */
  lemma RegridPlaces(g: Cells, bodies: seq<Body>, size: real)
    requires TargetsIn(g, bodies, size)
    ensures SameShape(Regridded(g, bodies, size), g)
    ensures Contents(Regridded(g, bodies, size)) == Contents(g)
    ensures Placed(Regridded(g, bodies, size), bodies, size)
  {
    RegridRowsSettles(g, bodies, size, 0);
  }

  /** A row settled up to its end is settled up to the next row. */
  lemma SettledRowEnd(g: Cells, bodies: seq<Body>, size: real, row: nat)
    requires row < |g| && Settled(g, bodies, size, row, |g[row]|)
    ensures Settled(g, bodies, size, row + 1, 0)
  {
  }

  /** The grid after the scans of the first `k` boxes of row `row`, built
      forwards, the way the column loop of regrid goes. */
  function RowFirst(g: Cells, bodies: seq<Body>, size: real, row: nat, k: nat): (h: Cells)
    requires TargetsIn(g, bodies, size) && row < |g| && k <= |g[row]|
    ensures SameShape(h, g) && Contents(h) == Contents(g) && TargetsIn(h, bodies, size)
    decreases k
  {
    if k == 0 then g
    else
      var h := RowFirst(g, bodies, size, row, k - 1);
      BoxTargets(h, bodies, size, row, k - 1);
      Refiled(h, bodies, size, row, k - 1)
  }

  /** Scanning the first `k` boxes of a row and then the rest is scanning
      the whole row. */
  lemma {:induction false} RowFirstCols(g: Cells, bodies: seq<Body>, size: real, row: nat, k: nat)
    requires TargetsIn(g, bodies, size) && row < |g| && k <= |g[row]|
    ensures RegridRow(RowFirst(g, bodies, size, row, k), bodies, size, row, k) == RegridRow(g, bodies, size, row, 0)
    decreases k
  {
    if k > 0 {
      RowFirstCols(g, bodies, size, row, k - 1);
      RowFirstStep(g, bodies, size, row, k);
    }
  }

  lemma RowFirstStep(g: Cells, bodies: seq<Body>, size: real, row: nat, k: nat)
    requires TargetsIn(g, bodies, size) && row < |g| && 0 < k <= |g[row]|
    ensures RegridRow(RowFirst(g, bodies, size, row, k), bodies, size, row, k)
         == RegridRow(RowFirst(g, bodies, size, row, k - 1), bodies, size, row, k - 1)
  {
    var h := RowFirst(g, bodies, size, row, k - 1);
    BoxTargets(h, bodies, size, row, k - 1);
    RegridRowStep(h, bodies, size, row, k - 1);
  }

  /** The boxes of a row scanned forwards, all of them: the scanned row. */
  lemma RowFirstAll(g: Cells, bodies: seq<Body>, size: real, row: nat)
    requires TargetsIn(g, bodies, size) && row < |g|
    ensures RowFirst(g, bodies, size, row, |g[row]|) == RegridRow(g, bodies, size, row, 0)
  {
    RowFirstCols(g, bodies, size, row, |g[row]|);
    RegridRowEnd(RowFirst(g, bodies, size, row, |g[row]|), bodies, size, row);
  }

  /** A grid whose particles are each in the box of their position holds
      only particles that fit. */
  lemma PlacedTargets(g: Cells, bodies: seq<Body>, size: real)
    requires Placed(g, bodies, size)
    ensures TargetsIn(g, bodies, size)
  {
    forall x | x in Contents(g)
      ensures Fits(g, bodies, size, x)
    {
      InContents(g, x);
      var r, c, k :| At(g, x, r, c, k);
    }
  }

  /** Every id of a grid names a particle when every id of a grid with the
      same contents does. */
  lemma BelowKept(g: Cells, h: Cells, n: nat)
    requires Contents(h) == Contents(g) && GridBelow(g, n)
    ensures GridBelow(h, n)
  {
    forall r, c, k | InRange(h, r, c) && 0 <= k < |h[r][c]|
      ensures h[r][c][k] < n
    {
      BoxInContents(h, r, c);
      assert h[r][c][k] in multiset(h[r][c]);
      InContents(g, h[r][c][k]);
      var r', c', k' :| At(g, h[r][c][k], r', c', k');
    }
  }
  /** What the column loop of regrid keeps once it has scanned the boxes of
      row `row` before column `col`, starting from grid `g0`: the grid has
      its shape and its particles, names only particles of the group, is
      settled up to `(row, col)` and, when the particles of `g0` fit, is
      `g0` with those boxes scanned. */
  ghost predicate RowScanned(g0: Cells, g: Cells, bodies: seq<Body>, size: real, row: nat, col: nat)
  {
    && row < |g0| && col <= |g0[row]| && SameShape(g, g0) && Contents(g) == Contents(g0)
    && GridBelow(g, |bodies|) && Settled(g, bodies, size, row, col)
    && (TargetsIn(g0, bodies, size) ==> g == RowFirst(g0, bodies, size, row, col))
  }

  lemma RowScanStart(g0: Cells, bodies: seq<Body>, size: real, row: nat)
    requires row < |g0| && GridBelow(g0, |bodies|) && Settled(g0, bodies, size, row, 0)
    ensures RowScanned(g0, g0, bodies, size, row, 0)
  {
  }

  /** One box scanned by the column loop. */
  lemma RowScanStep(g0: Cells, g: Cells, bodies: seq<Body>, size: real, row: nat, col: nat)
    requires RowScanned(g0, g, bodies, size, row, col) && col < |g[row]| && AllFit(g, bodies, size, g[row][col])
    ensures RowScanned(g0, Refiled(g, bodies, size, row, col), bodies, size, row, col + 1)
  {
    var h := Refiled(g, bodies, size, row, col);
    RefiledSettles(g, bodies, size, row, col);
    BelowKept(g, h, |bodies|);
    if TargetsIn(g0, bodies, size) {
      assert h == RowFirst(g0, bodies, size, row, col + 1);
    }
  }

  /** A box of the row holding a particle that maps outside the grid: the
      particles of `g0` do not all fit. */
  lemma RowScanFails(g0: Cells, g: Cells, bodies: seq<Body>, size: real, row: nat, col: nat)
    requires RowScanned(g0, g, bodies, size, row, col) && col < |g[row]| && !AllFit(g, bodies, size, g[row][col])
    ensures !TargetsIn(g0, bodies, size)
  {
    BoxMisfit(g, bodies, size, row, col);
  }

  /** The whole row scanned: it is settled, and the grid is `g0` with the
      row scanned when the particles of `g0` fit. */
  lemma RowScanDone(g0: Cells, g: Cells, bodies: seq<Body>, size: real, row: nat)
    requires row < |g0| && RowScanned(g0, g, bodies, size, row, |g0[row]|)
    ensures SameShape(g, g0) && Contents(g) == Contents(g0) && GridBelow(g, |bodies|)
    ensures Settled(g, bodies, size, row + 1, 0)
    ensures TargetsIn(g0, bodies, size) ==> g == RegridRow(g0, bodies, size, row, 0)
  {
    SettledRowEnd(g, bodies, size, row);
    if TargetsIn(g0, bodies, size) {
      RowFirstAll(g0, bodies, size, row);
    }
  }

  /** What the row loop of regrid keeps once it has scanned the rows before
      `row`, starting from grid `g0`. */
  ghost predicate RowsScanned(g0: Cells, g: Cells, bodies: seq<Body>, size: real, row: nat)
  {
    && row <= |g0| && SameShape(g, g0) && Contents(g) == Contents(g0)
    && GridBelow(g, |bodies|) && Settled(g, bodies, size, row, 0)
    && (TargetsIn(g0, bodies, size) ==> g == RegridFirst(g0, bodies, size, row))
  }

  lemma RowsScanStart(g0: Cells, bodies: seq<Body>, size: real)
    requires size != 0.0 && GridBelow(g0, |bodies|)
    ensures RowsScanned(g0, g0, bodies, size, 0)
  {
  }

  /** One row scanned by the row loop. */
  lemma RowsScanStep(g0: Cells, g: Cells, h: Cells, bodies: seq<Body>, size: real, row: nat)
    requires RowsScanned(g0, g, bodies, size, row) && row < |g0|
    requires SameShape(h, g) && Contents(h) == Contents(g) && GridBelow(h, |bodies|) && Settled(h, bodies, size, row + 1, 0)
    requires TargetsIn(g, bodies, size) ==> h == RegridRow(g, bodies, size, row, 0)
    ensures RowsScanned(g0, h, bodies, size, row + 1)
  {
  }

  /** A row whose scan fails: the particles of `g0` do not all fit. */
  lemma RowsScanFails(g0: Cells, g: Cells, bodies: seq<Body>, size: real, row: nat)
    requires RowsScanned(g0, g, bodies, size, row) && !TargetsIn(g, bodies, size)
    ensures !TargetsIn(g0, bodies, size)
  {
  }

  /** Every row scanned without failure: the grid is settled, so its
      particles fit, and so did those of the grid the scan started from;
      the grid is the regridded one. */
  lemma RowsScanDone(g0: Cells, g: Cells, bodies: seq<Body>, size: real)
    requires RowsScanned(g0, g, bodies, size, |g0|)
    ensures TargetsIn(g0, bodies, size) && g == Regridded(g0, bodies, size)
    ensures Contents(g) == Contents(g0) && Placed(g, bodies, size)
  {
    PlacedTargets(g, bodies, size);
    TargetsKept(g0, g, bodies, size);
    RegridFirstAll(g0, bodies, size);
  }


  /** A particle that already belongs to the box being scanned stays in it. */
  lemma RefiledKeeps(g: Cells, bodies: seq<Body>, size: real, row: int, col: int, k: nat)
    requires size != 0.0 && InRange(g, row, col) && AllFit(g, bodies, size, g[row][col]) && k < |g[row][col]|
    requires CellOf(bodies[g[row][col][k]], size) == (row, col)
    ensures g[row][col][k] in Refiled(g, bodies, size, row, col)[row][col]
  {
    var s := g[row][col];
    assert Fits(g, bodies, size, s[k]);
    OutsideFits(g, s, bodies, size, row, col);
    SplitBox(s, bodies, size, row, col);
    var out := Outside(s, bodies, size, row, col);
    assert s[k] in multiset(s);
    assert s[k] !in multiset(out);
  }

  /** An id counted in a row of boxes is filed in one of them. */
  lemma {:induction false} InRowContents(row: seq<seq<nat>>, x: nat)
    requires x in RowContents(row)
    ensures exists c, k :: 0 <= c < |row| && 0 <= k < |row[c]| && row[c][k] == x
    decreases |row|
  {
    if x in multiset(row[0]) {
      var k :| 0 <= k < |row[0]| && row[0][k] == x;
      assert row[0][k] == x;
    } else {
      InRowContents(row[1..], x);
      var c, k :| 0 <= c < |row[1..]| && 0 <= k < |row[1..][c]| && row[1..][c][k] == x;
      assert row[c + 1][k] == x;
    }
  }

  /** An id counted in the grid is filed in one of its boxes. */
  lemma {:induction false} InContents(g: Cells, x: nat)
    requires x in Contents(g)
    ensures exists r, c, k :: At(g, x, r, c, k)
    decreases |g|
  {
    if x in RowContents(g[0]) {
      InRowContents(g[0], x);
      var c, k :| 0 <= c < |g[0]| && 0 <= k < |g[0][c]| && g[0][c][k] == x;
      assert At(g, x, 0, c, k);
    } else {
      InContents(g[1..], x);
      var r, c, k :| At(g[1..], x, r, c, k);
      assert At(g, x, r + 1, c, k);
    }
  }

  /** After regrid, in a grid without repetitions, every particle of the grid
      is filed exactly once, in the box of its current position, and nowhere
      else. */
  lemma RegridSole(g: Cells, bodies: seq<Body>, size: real, x: nat)
    requires TargetsIn(g, bodies, size) && Unique(g) && x in Contents(g)
    ensures x < |bodies|
    ensures var h := Regridded(g, bodies, size);
      Unique(h) && exists k :: Sole(h, x, CellOf(bodies[x], size).0, CellOf(bodies[x], size).1, k)
  {
    var h := Regridded(g, bodies, size);
    RegridPlaces(g, bodies, size);
    InContents(h, x);
    var r, c, k :| At(h, x, r, c, k);
    UniqueSole(h, x, r, c, k);
  }

  /** One more id at the end of the scanned part of a box. */
  lemma OutsideSnoc(s: seq<nat>, x: nat, bodies: seq<Body>, size: real, row: int, col: int)
    requires size != 0.0 && Below(s, |bodies|) && x < |bodies|
    ensures Below(s + [x], |bodies|)
    ensures Outside(s + [x], bodies, size, row, col)
         == Outside(s, bodies, size, row, col) + if CellOf(bodies[x], size) != (row, col) then [x] else []
  {
    OutsideAppend(s, [x], bodies, size, row, col);
    assert [x][1..] == [];
  }

  /** One more id at the end of a sequence of ids. */
  lemma InsideSnoc(s: seq<nat>, x: nat, bodies: seq<Body>, size: real, row: int, col: int)
    requires size != 0.0 && Below(s, |bodies|) && x < |bodies|
    ensures Below(s + [x], |bodies|)
    ensures Inside(s + [x], bodies, size, row, col)
         == Inside(s, bodies, size, row, col) + if CellOf(bodies[x], size) == (row, col) then [x] else []
  {
    InsideAppend(s, [x], bodies, size, row, col);
    assert [x][1..] == [];
  }

  /** One more append at the end of a run of appends. */
  lemma FileAllSnoc(g: Cells, bodies: seq<Body>, size: real, xs: seq<nat>, x: nat)
    requires AllFit(g, bodies, size, xs) && Fits(g, bodies, size, x)
    ensures AllFit(g, bodies, size, xs + [x])
    ensures FileAll(g, bodies, size, xs + [x])
         == Filed(FileAll(g, bodies, size, xs), CellOf(bodies[x], size).0, CellOf(bodies[x], size).1, x)
  {
    assert AllFit(g, bodies, size, [x]);
    AllFitAppend(g, bodies, size, xs, [x]);
    var more := xs + [x];
    assert more[..|more| - 1] == xs && more[|more| - 1] == x;
  }

  /** The ids among the first `k` of `box` whose particle has left box
      `(row, col)`, in order: what the scan has collected after `k` steps. */
  function OutsideUpTo(box: seq<nat>, k: nat, bodies: seq<Body>, size: real, row: int, col: int): seq<nat>
    requires size != 0.0 && k <= |box| && Below(box, |bodies|)
    decreases k
  {
    if k == 0 then []
    else
      var x := box[k - 1];
      OutsideUpTo(box, k - 1, bodies, size, row, col) + if CellOf(bodies[x], size) != (row, col) then [x] else []
  }

  lemma {:induction false} OutsideUpToIsOutside(box: seq<nat>, k: nat, bodies: seq<Body>, size: real, row: int, col: int)
    requires size != 0.0 && k <= |box| && Below(box, |bodies|)
    ensures OutsideUpTo(box, k, bodies, size, row, col) == Outside(box[..k], bodies, size, row, col)
    decreases k
  {
    if k == 0 {
    } else {
      OutsideUpToIsOutside(box, k - 1, bodies, size, row, col);
      assert box[..k] == box[..k - 1] + [box[k - 1]];
      OutsideSnoc(box[..k - 1], box[k - 1], bodies, size, row, col);
    }
  }

  /** The grid after the first `k` steps of the scan of box `(row, col)`:
      each leaver among the first `k` ids of `box` appended to its new box. */
  function ScanGridUpTo(g0: Cells, box: seq<nat>, k: nat, bodies: seq<Body>, size: real, row: int, col: int): (h: Cells)
    requires size != 0.0 && k <= |box| && forall i :: 0 <= i < k ==> Fits(g0, bodies, size, box[i])
    ensures SameShape(h, g0)
    decreases k
  {
    if k == 0 then g0
    else
      var h := ScanGridUpTo(g0, box, k - 1, bodies, size, row, col);
      var x := box[k - 1];
      assert Fits(g0, bodies, size, x);
      var cell := CellOf(bodies[x], size);
      if cell != (row, col) then Filed(h, cell.0, cell.1, x) else h
  }

  lemma {:induction false} ScanGridUpToIsFileAll(g0: Cells, box: seq<nat>, k: nat, bodies: seq<Body>, size: real, row: int, col: int)
    requires size != 0.0 && k <= |box| && AllFit(g0, bodies, size, box) && Below(box, |bodies|)
    ensures AllFit(g0, bodies, size, OutsideUpTo(box, k, bodies, size, row, col))
    ensures ScanGridUpTo(g0, box, k, bodies, size, row, col) == FileAll(g0, bodies, size, OutsideUpTo(box, k, bodies, size, row, col))
    decreases k
  {
    if k != 0 {
      ScanGridUpToIsFileAll(g0, box, k - 1, bodies, size, row, col);
      var x := box[k - 1];
      assert Fits(g0, bodies, size, x);
      if CellOf(bodies[x], size) != (row, col) {
        FileAllSnoc(g0, bodies, size, OutsideUpTo(box, k - 1, bodies, size, row, col), x);
      } else {
        assert OutsideUpTo(box, k - 1, bodies, size, row, col) + [] == OutsideUpTo(box, k - 1, bodies, size, row, col);
      }
    }
  }

  /** The first loop of the scan of box `(row, col)` in regrid: each
      particle of `box` whose position now maps to another box is appended
      to that box and to `outside`. `box` itself is only read. A position
      that maps outside the grid ends the scan with `ok` false: `list`
      indexing raises there, or wraps a negative index round to another box. */
  method ScanBox(g0: Cells, bodies: seq<Body>, size: real, row: int, col: int, box: seq<nat>)
      returns (ok: bool, grid: Cells, outside: seq<nat>)
    requires size != 0.0 && InRange(g0, row, col) && Below(box, |bodies|)
    ensures ok == AllFit(g0, bodies, size, box)
    ensures ok ==> outside == Outside(box, bodies, size, row, col)
    ensures ok ==> AllFit(g0, bodies, size, outside)
    ensures ok ==> grid == FileAll(g0, bodies, size, outside)
  {
    grid := g0;
    outside := [];
    var k := 0;
    while k < |box|
      invariant 0 <= k <= |box|
      invariant forall i :: 0 <= i < k ==> Fits(g0, bodies, size, box[i])
      invariant outside == OutsideUpTo(box, k, bodies, size, row, col)
      invariant grid == ScanGridUpTo(g0, box, k, bodies, size, row, col)
    {
      var sprite := box[k];
      var cell := CellOf(bodies[sprite], size);
      if cell != (row, col) && !InRange(grid, cell.0, cell.1) {
        assert !Fits(g0, bodies, size, box[k]);
        return false, grid, outside;
      }
      ScanStep(g0, box, k, bodies, size, row, col);
      if cell != (row, col) {
        outside := outside + [sprite];
        grid := Filed(grid, cell.0, cell.1, sprite);
      }
      k := k + 1;
    }
    ok := true;
    OutsideUpToIsOutside(box, k, bodies, size, row, col);
    ScanGridUpToIsFileAll(g0, box, k, bodies, size, row, col);
    assert box[..k] == box;
  }

  /** One more particle of the box scanned: it joins the leavers and is
      filed in its box when it does not belong to `(row, col)`. */
  lemma ScanStep(g0: Cells, box: seq<nat>, k: nat, bodies: seq<Body>, size: real, row: int, col: int)
    requires size != 0.0 && k < |box| && Below(box, |bodies|) && forall i :: 0 <= i <= k ==> Fits(g0, bodies, size, box[i])
    ensures var x, h := box[k], ScanGridUpTo(g0, box, k, bodies, size, row, col);
      && InRange(h, CellOf(bodies[x], size).0, CellOf(bodies[x], size).1)
      && OutsideUpTo(box, k + 1, bodies, size, row, col)
         == OutsideUpTo(box, k, bodies, size, row, col) + (if CellOf(bodies[x], size) != (row, col) then [x] else [])
      && ScanGridUpTo(g0, box, k + 1, bodies, size, row, col)
         == if CellOf(bodies[x], size) != (row, col) then Filed(h, CellOf(bodies[x], size).0, CellOf(bodies[x], size).1, x) else h
  {
    assert Fits(g0, bodies, size, box[k]);
  }

  /** The second loop of the scan: `box.remove(sprite)` for every particle
      of `outside`, in order. */
  method TrimBox(box: seq<nat>, outside: seq<nat>) returns (kept: seq<nat>)
    ensures kept == RemoveAll(box, outside)
  {
    kept := box;
    var j := 0;
    while j < |outside|
      invariant 0 <= j <= |outside|
      invariant kept == RemoveAll(box, outside[..j])
    {
      RemoveAllSnoc(box, outside[..j], outside[j]);
      assert outside[..j + 1] == outside[..j] + [outside[j]];
      kept := RemoveFirst(kept, outside[j]);
      j := j + 1;
    }
    assert outside[..j] == outside;
  }
}
