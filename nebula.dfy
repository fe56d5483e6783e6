/** The NebulaGroup of the nebula simulator (Nebula-Simulator/group.py):
    one pass over every pair of stars either merges two touching stars or
    adds their mutual gravity to their accelerations; the absorbed stars are
    removed after the pass and the survivors move. */
module Nebula {
  import opened Vectors
  import opened Pairs
  import opened Stars

  /** A star of mass 20 or more, whose radius is therefore at least 1. The
      game creates stars of mass 2000 only, and merging adds masses. */
  predicate Heavy(s: Star)
  {
    s.mass >= 20.0 && s.radius >= 1
  }

  predicate AllHeavy(stars: seq<Star>)
  {
    forall k :: 0 <= k < |stars| ==> Heavy(stars[k])
  }

  /** The test of attract: the centres are closer than the sum of the radii. */
  predicate Touching(s1: Star, s2: Star, norm: Vec2 -> real)
  {
    norm(Sub(s2.position, s1.position)) < (s1.radius + s2.radius) as real
  }

  /** Mass and momentum, the quantities a merge conserves. */
  datatype Tally = Tally(mass: real, momentum: Vec2)

  const Nothing: Tally := Tally(0.0, Zero)

  function Plus(a: Tally, b: Tally): Tally
  {
    Tally(a.mass + b.mass, Add(a.momentum, b.momentum))
  }

  function Minus(a: Tally, b: Tally): Tally
  {
    Tally(a.mass - b.mass, Sub(a.momentum, b.momentum))
  }

  function Weight(s: Star): Tally
  {
    Tally(s.mass, Scale(s.mass, s.velocity))
  }

  /** The merge of attract, as the star that absorbs the other ends: the
      heavier of the two takes the sum of the masses (with the radius and
      colour of it) and the momentum-weighted velocity
      `(m1 * v1 + m2 * v2) / (m1 + m2)`, so that mass and momentum add up. */
  function Merge(s1: Star, s2: Star, winner: Star): (r: Star)
    requires Heavy(s1) && Heavy(s2) && (winner == s1 || winner == s2)
    ensures Heavy(r) && Weight(r) == Plus(Weight(s1), Weight(s2))
    ensures r.position == winner.position && r.acceleration == winner.acceleration
    ensures r == UpdateMass(winner, s1.mass + s2.mass).(velocity := r.velocity)
  {
    var mm := s1.mass + s2.mass;
    RadiusGrows(20.0, mm);
    UpdateMass(winner, mm).(velocity := Pooled(s1.mass, s1.velocity, s2.mass, s2.velocity))
  }

  /** The momentum-weighted velocity `(m1 * v1 + m2 * v2) / (m1 + m2)`:
      the whole mass at that velocity carries the momentum of both. */
  function Pooled(m1: real, v1: Vec2, m2: real, v2: Vec2): (v: Vec2)
    requires m1 + m2 != 0.0
    ensures Scale(m1 + m2, v) == Add(Scale(m1, v1), Scale(m2, v2))
  {
    var mm := m1 + m2;
    MomentumOfAverage(mm, m1 * v1.x + m2 * v2.x);
    MomentumOfAverage(mm, m1 * v1.y + m2 * v2.y);
    Vec2((m1 * v1.x + m2 * v2.x) / mm, (m1 * v1.y + m2 * v2.y) / mm)
  }

  lemma MomentumOfAverage(mm: real, p: real)
    requires mm != 0.0
    ensures mm * (p / mm) == p
  {
  }

  /** The gravity of attract between two stars that do not touch:
      `fr = (r2 - r1) / d³`, then `a1 += m2 * fr` and `a2 -= m1 * fr`. Only
      the accelerations change, and they change in balance:
      `m1 * Δa1 + m2 * Δa2 = 0`, whatever `fr` is. The first star is pulled
      towards the second. */
  function Attraction(s1: Star, s2: Star, norm: Vec2 -> real): (r: (Star, Star))
    requires IsNorm(norm) && Heavy(s1) && Heavy(s2) && !Touching(s1, s2, norm)
    ensures r.0 == s1.(acceleration := r.0.acceleration) && r.1 == s2.(acceleration := r.1.acceleration)
    ensures Add(Scale(s1.mass, Sub(r.0.acceleration, s1.acceleration)),
                Scale(s2.mass, Sub(r.1.acceleration, s2.acceleration))) == Zero
    ensures Dot(Sub(r.0.acceleration, s1.acceleration), Sub(s2.position, s1.position)) > 0.0
  {
    var r := Sub(s2.position, s1.position);
    var d := norm(r);
    var d3 := d * d * d;
    assert d3 > 0.0 by {
      assert d >= 2.0;
      PositiveCube(d);
    }
    var fr := Vec2(r.x / d3, r.y / d3);
    Balanced(s1.mass, s2.mass, fr);
    Pulled(s2.mass, d, d3, r, fr);
    (s1.(acceleration := Add(s1.acceleration, Scale(s2.mass, fr))),
     s2.(acceleration := Sub(s2.acceleration, Scale(s1.mass, fr))))
  }

  lemma PositiveCube(d: real)
    requires d >= 2.0
    ensures d * d * d > 0.0
  {
    assert d * d >= 2.0 * d;
  }

  lemma Balanced(m1: real, m2: real, fr: Vec2)
    ensures m1 * (m2 * fr.x) + m2 * -(m1 * fr.x) == 0.0
    ensures m1 * (m2 * fr.y) + m2 * -(m1 * fr.y) == 0.0
  {
  }

  /** `m2 * (r / d³)` points along `r` for a positive mass and a non-zero
      `r` of length `d`. */
  lemma Pulled(m2: real, d: real, d3: real, r: Vec2, fr: Vec2)
    requires m2 >= 20.0 && d3 > 0.0 && d >= 2.0 && d * d == LengthSquared(r)
    requires fr == Vec2(r.x / d3, r.y / d3)
    ensures Dot(Scale(m2, fr), r) > 0.0
  {
    assert Dot(Scale(m2, fr), r) == m2 * (LengthSquared(r) / d3);
    assert LengthSquared(r) > 0.0 by {
      assert d * d >= 2.0 * d;
    }
    assert LengthSquared(r) / d3 > 0.0;
  }

  /** The state a pass of attract works on: the stars, and the list
      `combined` of the stars absorbed so far. */
  datatype Pass = Pass(stars: seq<Star>, combined: seq<nat>)

  /** The body of the inner loop of attract for the stars with ids `pr.0`
      and `pr.1`. Touching stars merge unless one of them has been absorbed
      already; otherwise they attract each other. */
  function PairStep(p: Pass, pr: Pair, norm: Vec2 -> real): (r: Pass)
    requires IsNorm(norm) && pr.0 < |p.stars| && pr.1 < |p.stars| && AllHeavy(p.stars)
    ensures |r.stars| == |p.stars| && AllHeavy(r.stars)
    ensures forall k :: 0 <= k < |p.stars| && k != pr.0 && k != pr.1 ==> r.stars[k] == p.stars[k]
  {
    var (i, j) := pr;
    var s1, s2 := p.stars[i], p.stars[j];
    if Touching(s1, s2, norm) then
      if !(i in p.combined || j in p.combined) then
        if s1.mass >= s2.mass then Pass(p.stars[i := Merge(s1, s2, s1)], p.combined + [j])
        else Pass(p.stars[j := Merge(s1, s2, s2)], p.combined + [i])
      else p
    else
      var (t1, t2) := Attraction(s1, s2, norm);
      Pass(p.stars[i := t1][j := t2], p.combined)
  }

  /** The pairs in turn, each on the state the earlier ones left. */
  function AttractRun(p: Pass, pairs: seq<Pair>, norm: Vec2 -> real): (r: Pass)
    requires IsNorm(norm) && PairsIn(pairs, |p.stars|) && AllHeavy(p.stars)
    ensures |r.stars| == |p.stars| && AllHeavy(r.stars)
    decreases |pairs|
  {
    if |pairs| == 0 then p
    else AttractRun(PairStep(p, pairs[0], norm), pairs[1..], norm)
  }

  /** Running two lists of pairs one after the other is running their
      concatenation. */
  lemma {:induction false} AttractRunAppend(p: Pass, xs: seq<Pair>, ys: seq<Pair>, norm: Vec2 -> real)
    requires IsNorm(norm) && PairsIn(xs, |p.stars|) && PairsIn(ys, |p.stars|) && AllHeavy(p.stars)
    ensures PairsIn(xs + ys, |p.stars|)
    ensures AttractRun(p, xs + ys, norm) == AttractRun(AttractRun(p, xs, norm), ys, norm)
    decreases |xs|
  {
    PairsInAppend(xs, ys, |p.stars|);
    if |xs| == 0 {
      assert xs + ys == ys;
    } else {
      assert (xs + ys)[0] == xs[0] && (xs + ys)[1..] == xs[1..] + ys;
      AttractRunAppend(PairStep(p, xs[0], norm), xs[1..], ys, norm);
    }
  }

  /** The mass and momentum of the stars of `ids` that are not in `dead`
      (an id outside the registry counts for nothing). */
  function LiveTally(stars: seq<Star>, ids: seq<nat>, dead: seq<nat>): Tally
    decreases |ids|
  {
    if |ids| == 0 then Nothing
    else Plus(if ids[0] in dead || ids[0] >= |stars| then Nothing else Weight(stars[ids[0]]),
              LiveTally(stars, ids[1..], dead))
  }

  /** Changing a star outside `ids` changes nothing in their tally. */
  lemma {:induction false} TallyOutside(stars: seq<Star>, ids: seq<nat>, dead: seq<nat>, w: nat, t: Star)
    requires w < |stars| && w !in ids
    ensures LiveTally(stars[w := t], ids, dead) == LiveTally(stars, ids, dead)
    decreases |ids|
  {
    if |ids| != 0 {
      TallyOutside(stars, ids[1..], dead, w, t);
    }
  }

  /** Changing a live star of `ids` changes their tally by the difference. */
  lemma {:induction false} TallyChange(stars: seq<Star>, ids: seq<nat>, dead: seq<nat>, w: nat, t: Star)
    requires Distinct(ids) && w < |stars| && w in ids && w !in dead
    ensures LiveTally(stars[w := t], ids, dead) == Plus(Minus(LiveTally(stars, ids, dead), Weight(stars[w])), Weight(t))
    decreases |ids|
  {
    DistinctTail(ids);
    if ids[0] == w {
      TallyOutside(stars, ids[1..], dead, w, t);
    } else {
      TallyChange(stars, ids[1..], dead, w, t);
    }
  }

  /** Marking a live star of `ids` as dead takes its weight off their tally. */
  lemma {:induction false} TallyMark(stars: seq<Star>, ids: seq<nat>, dead: seq<nat>, x: nat)
    requires Distinct(ids) && x < |stars| && x in ids && x !in dead
    ensures LiveTally(stars, ids, dead + [x]) == Minus(LiveTally(stars, ids, dead), Weight(stars[x]))
    decreases |ids|
  {
    DistinctTail(ids);
    if ids[0] == x {
      TallyUnmarked(stars, ids[1..], dead, x);
    } else {
      TallyMark(stars, ids[1..], dead, x);
    }
  }

  /** Marking a star outside `ids` changes nothing in their tally. */
  lemma {:induction false} TallyUnmarked(stars: seq<Star>, ids: seq<nat>, dead: seq<nat>, x: nat)
    requires x !in ids
    ensures LiveTally(stars, ids, dead + [x]) == LiveTally(stars, ids, dead)
    decreases |ids|
  {
    if |ids| != 0 {
      TallyUnmarked(stars, ids[1..], dead, x);
    }
  }

  /** Stars of the same mass and velocity weigh the same. */
  lemma {:induction false} TallySame(stars: seq<Star>, other: seq<Star>, ids: seq<nat>, dead: seq<nat>)
    requires |stars| == |other|
    requires forall k :: 0 <= k < |stars| ==> Weight(stars[k]) == Weight(other[k])
    ensures LiveTally(stars, ids, dead) == LiveTally(other, ids, dead)
    decreases |ids|
  {
    if |ids| != 0 {
      TallySame(stars, other, ids[1..], dead);
    }
  }

  /** Every pair is made of two different stars of `ids`. */
  predicate PairsAmong(pairs: seq<Pair>, ids: seq<nat>)
  {
    forall k :: 0 <= k < |pairs| ==> pairs[k].0 in ids && pairs[k].1 in ids && pairs[k].0 != pairs[k].1
  }

  lemma AllPairsAmong(s: seq<nat>)
    requires Distinct(s)
    ensures PairsAmong(AllPairs(s), s)
  {
    forall k | 0 <= k < |AllPairs(s)|
      ensures AllPairs(s)[k].0 in s && AllPairs(s)[k].1 in s && AllPairs(s)[k].0 != AllPairs(s)[k].1
    {
      var (a, b) := AllPairs(s)[k];
      AllPairsMembers(s, a, b);
    }
  }

  /** A merge keeps the tally of `ids`: the absorber `w` takes on the
      weight of both stars, and the absorbed `l` is marked dead. */
  lemma MergeTally(stars: seq<Star>, ids: seq<nat>, dead: seq<nat>, w: nat, l: nat, t: Star)
    requires Distinct(ids) && w < |stars| && l < |stars| && w != l
    requires w in ids && l in ids && w !in dead && l !in dead
    requires Weight(t) == Plus(Weight(stars[w]), Weight(stars[l]))
    ensures LiveTally(stars[w := t], ids, dead + [l]) == LiveTally(stars, ids, dead)
  {
    TallyChange(stars, ids, dead, w, t);
    TallyMark(stars[w := t], ids, dead, l);
    assert stars[w := t][l] == stars[l];
  }

  /** One step of the pass keeps the mass and the momentum of the stars of
      `ids` not yet absorbed. */
  lemma PairStepTally(p: Pass, pr: Pair, ids: seq<nat>, norm: Vec2 -> real)
    requires IsNorm(norm) && pr.0 < |p.stars| && pr.1 < |p.stars| && AllHeavy(p.stars)
    requires Distinct(ids) && pr.0 in ids && pr.1 in ids && pr.0 != pr.1
    ensures var r := PairStep(p, pr, norm);
      LiveTally(r.stars, ids, r.combined) == LiveTally(p.stars, ids, p.combined)
  {
    var (i, j) := pr;
    var s1, s2 := p.stars[i], p.stars[j];
    if Touching(s1, s2, norm) {
      if !(i in p.combined || j in p.combined) {
        if s1.mass >= s2.mass {
          MergeTally(p.stars, ids, p.combined, i, j, Merge(s1, s2, s1));
        } else {
          MergeTally(p.stars, ids, p.combined, j, i, Merge(s1, s2, s2));
        }
      }
    } else {
      var r := PairStep(p, pr, norm);
      TallySame(r.stars, p.stars, ids, p.combined);
    }
  }

  /** A pass keeps the mass and the momentum of the stars of `ids` not yet
      absorbed: what an absorbed star had, its absorber now has. */
  lemma {:induction false} AttractRunTally(p: Pass, pairs: seq<Pair>, ids: seq<nat>, norm: Vec2 -> real)
    requires IsNorm(norm) && PairsIn(pairs, |p.stars|) && AllHeavy(p.stars)
    requires Distinct(ids) && PairsAmong(pairs, ids)
    ensures var r := AttractRun(p, pairs, norm);
      LiveTally(r.stars, ids, r.combined) == LiveTally(p.stars, ids, p.combined)
    decreases |pairs|
  {
    if |pairs| != 0 {
      PairStepTally(p, pairs[0], ids, norm);
      AttractRunTally(PairStep(p, pairs[0], norm), pairs[1..], ids, norm);
    }
  }

  /** A pass absorbs a star only once: `combined` gets no repetition, and
      only stars of `ids` join it. An absorber is never itself absorbed at
      the time it absorbs, because merging requires neither star to be in
      `combined`. */
  lemma {:induction false} AttractRunCombined(p: Pass, pairs: seq<Pair>, ids: seq<nat>, norm: Vec2 -> real)
    requires IsNorm(norm) && PairsIn(pairs, |p.stars|) && AllHeavy(p.stars)
    requires PairsAmong(pairs, ids) && Distinct(p.combined)
    ensures var r := AttractRun(p, pairs, norm);
      Distinct(r.combined) && |p.combined| <= |r.combined| && r.combined[..|p.combined|] == p.combined
      && forall k :: |p.combined| <= k < |r.combined| ==> r.combined[k] in ids
    decreases |pairs|
  {
    if |pairs| != 0 {
      var q := PairStep(p, pairs[0], norm);
      PairStepCombined(p, pairs[0], ids, norm);
      AttractRunCombined(q, pairs[1..], ids, norm);
      var r := AttractRun(q, pairs[1..], norm);
      assert r.combined[..|q.combined|][..|p.combined|] == r.combined[..|p.combined|];
    }
  }

  /** One step of the pass marks at most one star, a star of the pair, and
      only one not marked yet. */
  lemma PairStepCombined(p: Pass, pr: Pair, ids: seq<nat>, norm: Vec2 -> real)
    requires IsNorm(norm) && pr.0 < |p.stars| && pr.1 < |p.stars| && AllHeavy(p.stars)
    requires pr.0 in ids && pr.1 in ids && Distinct(p.combined)
    ensures var q := PairStep(p, pr, norm);
      q.combined == p.combined ||
      (q.combined == p.combined + [q.combined[|p.combined|]] &&
       q.combined[|p.combined|] in ids && q.combined[|p.combined|] !in p.combined)
    ensures Distinct(PairStep(p, pr, norm).combined)
  {
  }

  /** The stars of `ids` with their acceleration set to zero, the others as
      they are. */
  function Reset(stars: seq<Star>, ids: seq<nat>): (r: seq<Star>)
    ensures |r| == |stars|
    ensures forall k :: 0 <= k < |stars| ==> r[k] == if k in ids then stars[k].(acceleration := Zero) else stars[k]
  {
    seq(|stars|, k requires 0 <= k < |stars| => if k in ids then stars[k].(acceleration := Zero) else stars[k])
  }

  /** The stars of `ids` after Particle.update(dt), the others as they are. */
  function Integrated(stars: seq<Star>, ids: seq<nat>, dt: real): (r: seq<Star>)
    ensures |r| == |stars|
    ensures forall k :: 0 <= k < |stars| ==> r[k] == if k in ids then Update(stars[k], dt) else stars[k]
  {
    seq(|stars|, k requires 0 <= k < |stars| => if k in ids then Update(stars[k], dt) else stars[k])
  }

  /** The ids of `ids` that are not in `dead`, in their order: the group
      after `kill()` of every star of `dead`. */
  function Without(ids: seq<nat>, dead: seq<nat>): (r: seq<nat>)
    ensures forall x :: x in r <==> x in ids && x !in dead
    ensures Distinct(ids) ==> Distinct(r)
    decreases |ids|
  {
    if |ids| == 0 then []
    else if ids[0] in dead then Without(ids[1..], dead)
    else [ids[0]] + Without(ids[1..], dead)
  }

  /** Killing no star leaves the group as it is. */
  lemma {:induction false} WithoutNothing(ids: seq<nat>)
    ensures Without(ids, []) == ids
    decreases |ids|
  {
    if |ids| != 0 {
      WithoutNothing(ids[1..]);
    }
  }

  /** Killing the stars of `dead` one after the other. */
  lemma {:induction false} WithoutSnoc(ids: seq<nat>, dead: seq<nat>, x: nat)
    ensures Without(Without(ids, dead), [x]) == Without(ids, dead + [x])
    decreases |ids|
  {
    if |ids| != 0 {
      WithoutSnoc(ids[1..], dead, x);
    }
  }

  /** The tally of the live stars is the tally of the group once the dead
      are removed. */
  lemma {:induction false} TallyWithout(stars: seq<Star>, ids: seq<nat>, dead: seq<nat>)
    ensures LiveTally(stars, Without(ids, dead), []) == LiveTally(stars, ids, dead)
    decreases |ids|
  {
    if |ids| != 0 {
      TallyWithout(stars, ids[1..], dead);
      if ids[0] !in dead {
        assert ([ids[0]] + Without(ids[1..], dead))[1..] == Without(ids[1..], dead);
      }
    }
  }

  /** Only the masses count in the mass of a tally. */
  lemma {:induction false} TallyMass(stars: seq<Star>, other: seq<Star>, ids: seq<nat>, dead: seq<nat>)
    requires |stars| == |other|
    requires forall k :: 0 <= k < |stars| ==> stars[k].mass == other[k].mass
    ensures LiveTally(stars, ids, dead).mass == LiveTally(other, ids, dead).mass
    decreases |ids|
  {
    if |ids| != 0 {
      TallyMass(stars, other, ids[1..], dead);
    }
  }

  /** The stars and the group between two frames: `members` are the ids of
      the stars of the group, in the group's order; a killed star stays in
      the registry. */
  datatype Cluster = Cluster(stars: seq<Star>, members: seq<nat>)

  ghost predicate Formed(c: Cluster)
  {
    Distinct(c.members) && Below(c.members, |c.stars|) && AllHeavy(c.stars)
  }

  lemma PairsOfMembers(c: Cluster)
    requires Formed(c)
    ensures PairsAmong(AllPairs(c.members), c.members) && PairsIn(AllPairs(c.members), |c.stars|)
  {
    AllPairsAmong(c.members);
    forall k | 0 <= k < |AllPairs(c.members)|
      ensures AllPairs(c.members)[k].0 < |c.stars| && AllPairs(c.members)[k].1 < |c.stars|
    {
      assert AllPairs(c.members)[k].0 in c.members && AllPairs(c.members)[k].1 in c.members;
    }
  }

  /** NebulaGroup.attract: every acceleration reset, then every pair of the
      group visited once, in the group's order, with nothing absorbed yet. */
  function Attracted(c: Cluster, norm: Vec2 -> real): (r: Pass)
    requires Formed(c) && IsNorm(norm)
    ensures |r.stars| == |c.stars| && AllHeavy(r.stars)
  {
    PairsOfMembers(c);
    AttractRun(Pass(Reset(c.stars, c.members), []), AllPairs(c.members), norm)
  }

  /** NebulaGroup.update(dt): attract, kill every absorbed star, then move
      the survivors. */
  function Stepped(c: Cluster, dt: real, norm: Vec2 -> real): (r: Cluster)
    requires Formed(c) && IsNorm(norm)
    ensures Formed(r) && |r.stars| == |c.stars|
  {
    var a := Attracted(c, norm);
    var survivors := Without(c.members, a.combined);
    WithoutBelow(c.members, a.combined, |c.stars|);
    Cluster(Integrated(a.stars, survivors, dt), survivors)
  }

  /** The total mass of the group. */
  function TotalMass(c: Cluster): real
  {
    LiveTally(c.stars, c.members, []).mass
  }

  /** A pass of attract keeps the mass and the momentum of the stars it has
      not absorbed, absorbs each star at most once and only stars of the
      group. */
  lemma AttractedConserves(c: Cluster, norm: Vec2 -> real)
    requires Formed(c) && IsNorm(norm)
    ensures var a := Attracted(c, norm);
      LiveTally(a.stars, c.members, a.combined) == LiveTally(c.stars, c.members, [])
      && Distinct(a.combined) && forall k :: 0 <= k < |a.combined| ==> a.combined[k] in c.members
  {
    PairsOfMembers(c);
    var start := Pass(Reset(c.stars, c.members), []);
    AttractRunTally(start, AllPairs(c.members), c.members, norm);
    AttractRunCombined(start, AllPairs(c.members), c.members, norm);
    TallySame(start.stars, c.stars, c.members, []);
  }

  /** update(dt) keeps the total mass of the group: the absorbed stars
      leave it, and their mass is in their absorbers. */
  lemma SteppedKeepsMass(c: Cluster, dt: real, norm: Vec2 -> real)
    requires Formed(c) && IsNorm(norm)
    ensures TotalMass(Stepped(c, dt, norm)) == TotalMass(c)
  {
    var a := Attracted(c, norm);
    var survivors := Without(c.members, a.combined);
    AttractedConserves(c, norm);
    TallyWithout(a.stars, c.members, a.combined);
    TallyMass(Integrated(a.stars, survivors, dt), a.stars, survivors, []);
  }

  lemma ResetSnoc(stars: seq<Star>, ids: seq<nat>, x: nat)
    requires x < |stars|
    ensures Reset(stars, ids + [x]) == Reset(stars, ids)[x := Reset(stars, ids)[x].(acceleration := Zero)]
  {
  }

  lemma IntegratedSnoc(stars: seq<Star>, ids: seq<nat>, x: nat, dt: real)
    requires x < |stars| && x !in ids
    ensures Integrated(stars, ids + [x], dt) == Integrated(stars, ids, dt)[x := Update(Integrated(stars, ids, dt)[x], dt)]
  {
  }

  lemma {:induction false} WithoutBelow(ids: seq<nat>, dead: seq<nat>, n: nat)
    requires Below(ids, n)
    ensures Below(Without(ids, dead), n)
    decreases |ids|
  {
    if |ids| != 0 {
      WithoutBelow(ids[1..], dead, n);
    }
  }

  lemma PairsInSplit(xs: seq<Pair>, ys: seq<Pair>, n: nat)
    requires PairsIn(xs + ys, n)
    ensures PairsIn(xs, n) && PairsIn(ys, n)
  {
    assert forall k :: 0 <= k < |xs| ==> xs[k] == (xs + ys)[k];
    assert forall k :: 0 <= k < |ys| ==> ys[k] == (xs + ys)[|xs| + k];
  }

  /** pygame.sprite.Group of the stars, with the list `combined` of the
      stars absorbed in the current pass. */
  class NebulaGroup {
    var stars: seq<Star>
    var members: seq<nat>
    var combined: seq<nat>

    ghost function State(): Cluster
      reads this
    {
      Cluster(stars, members)
    }

    /** Between two calls of update, `combined` is empty. */
    ghost predicate Valid()
      reads this
    {
      Formed(State()) && combined == []
    }

    constructor()
      ensures Valid() && stars == [] && members == []
    {
      stars := [];
      members := [];
      combined := [];
    }

    /** A new star joins the group and gets the next id. */
    method Add(s: Star) returns (id: nat)
      requires Valid() && Heavy(s)
      modifies this
      ensures Valid()
      ensures id == |old(stars)| && stars == old(stars) + [s] && members == old(members) + [id]
    {
      id := |stars|;
      stars := stars + [s];
      members := members + [id];
    }

    /** The inner loop of attract for the star `i` of the group and its
        pair with star `j`. */
    method AttractPair(i: nat, j: nat, norm: Vec2 -> real)
      requires IsNorm(norm) && i < |stars| && j < |stars| && AllHeavy(stars)
      modifies this
      ensures members == old(members)
      ensures Pass(stars, combined) == PairStep(Pass(old(stars), old(combined)), (i, j), norm)
    {
      var s1, s2 := stars[i], stars[j];
      var r := Sub(s2.position, s1.position);
      var d := norm(r);
      if d < (s1.radius + s2.radius) as real {
        if !(i in combined || j in combined) {
          if s1.mass >= s2.mass {
            stars := stars[i := Merge(s1, s2, s1)];
            combined := combined + [j];
          } else {
            stars := stars[j := Merge(s1, s2, s2)];
            combined := combined + [i];
          }
        }
      } else {
        var (t1, t2) := Attraction(s1, s2, norm);
        stars := stars[i := t1];
        stars := stars[j := t2];
      }
    }

    /** `for p2 in qs` for the star `p`. */
    method AttractWith(p: nat, qs: seq<nat>, norm: Vec2 -> real)
      requires IsNorm(norm) && p < |stars| && Below(qs, |stars|) && AllHeavy(stars)
      modifies this
      ensures members == old(members) && |stars| == |old(stars)| && AllHeavy(stars)
      ensures PairsIn(PairsWith(p, qs), |old(stars)|)
      ensures Pass(stars, combined) == AttractRun(Pass(old(stars), old(combined)), PairsWith(p, qs), norm)
    {
      ghost var start, n := Pass(stars, combined), |stars|;
      PairsWithIn(p, qs, n);
      var k := 0;
      while k < |qs|
        invariant 0 <= k <= |qs| && |stars| == n && AllHeavy(stars) && members == old(members)
        invariant PairsIn(PairsWith(p, qs[k..]), n)
        invariant AttractRun(start, PairsWith(p, qs), norm) == AttractRun(Pass(stars, combined), PairsWith(p, qs[k..]), norm)
      {
        PairsWithIndex(p, qs[k..]);
        assert PairsWith(p, qs[k..])[1..] == PairsWith(p, qs[k + 1..]);
        AttractPair(p, qs[k], norm);
        k := k + 1;
      }
      assert qs[k..] == [];
    }

    /** The first loop of attract: `p.acceleration = Vector2(0, 0)` for
        every star of the group. */
    method ResetAccelerations()
      requires Valid()
      modifies this
      ensures Valid() && members == old(members)
      ensures stars == Reset(old(stars), members)
    {
      ghost var s0, ids := stars, members;
      var k := 0;
      while k < |members|
        invariant 0 <= k <= |ids| && members == ids && combined == []
        invariant stars == Reset(s0, ids[..k])
      {
        ResetSnoc(s0, ids[..k], ids[k]);
        assert ids[..k + 1] == ids[..k] + [ids[k]];
        stars := stars[members[k] := stars[members[k]].(acceleration := Zero)];
        k := k + 1;
      }
      assert ids[..k] == ids;
    }

    /** The nested loops of attract: every pair of the group visited once,
        in the group's order. */
    method AttractAll(norm: Vec2 -> real)
      requires Formed(State()) && IsNorm(norm)
      modifies this
      ensures members == old(members)
      ensures PairsIn(AllPairs(members), |old(stars)|)
      ensures Pass(stars, combined) == AttractRun(Pass(old(stars), old(combined)), AllPairs(members), norm)
    {
      ghost var c, start := State(), Pass(stars, combined);
      ghost var all := AllPairs(c.members);
      PairsOfMembers(c);
      var i := 0;
      while i < |members|
        invariant 0 <= i <= |c.members| && members == c.members && |stars| == |c.stars| && AllHeavy(stars)
        invariant PairsIn(AllPairs(c.members[i..]), |c.stars|)
        invariant AttractRun(start, all, norm) == AttractRun(Pass(stars, combined), AllPairs(c.members[i..]), norm)
      {
        ghost var before := Pass(stars, combined);
        ghost var mine, rest := PairsWith(c.members[i], c.members[i + 1..]), AllPairs(c.members[i + 1..]);
        assert c.members[i..][0] == c.members[i] && c.members[i..][1..] == c.members[i + 1..];
        assert AllPairs(c.members[i..]) == mine + rest;
        PairsInSplit(mine, rest, |c.stars|);
        AttractWith(members[i], members[i + 1..], norm);
        AttractRunAppend(before, mine, rest, norm);
        i := i + 1;
      }
      assert c.members[i..] == [];
    }

    /** attract: the accelerations of the group reset, then every pair of
        the group visited once. */
    method Attract(norm: Vec2 -> real)
      requires Valid() && IsNorm(norm)
      modifies this
      ensures members == old(members)
      ensures Pass(stars, combined) == Attracted(old(State()), norm)
    {
      ResetAccelerations();
      AttractAll(norm);
    }

    /** `for sprite in self.combined: sprite.kill()`, then
        `self.combined.clear()`. */
    method KillCombined()
      modifies this
      ensures stars == old(stars) && combined == []
      ensures members == Without(old(members), old(combined))
    {
      ghost var ids, dead := members, combined;
      WithoutNothing(ids);
      var k := 0;
      while k < |combined|
        invariant 0 <= k <= |dead| && combined == dead && stars == old(stars)
        invariant members == Without(ids, dead[..k])
      {
        assert dead[..k + 1] == dead[..k] + [dead[k]];
        WithoutSnoc(ids, dead[..k], dead[k]);
        members := Without(members, [combined[k]]);
        k := k + 1;
      }
      assert dead[..k] == dead;
      combined := [];
    }

    /** `for sprite in self.sprites(): sprite.update(dt)`. */
    method Integrate(dt: real)
      requires Distinct(members) && Below(members, |stars|)
      modifies this
      ensures members == old(members) && combined == old(combined)
      ensures stars == Integrated(old(stars), members, dt)
    {
      ghost var s0, ids := stars, members;
      var k := 0;
      while k < |members|
        invariant 0 <= k <= |ids| && members == ids && combined == old(combined) && |stars| == |s0|
        invariant stars == Integrated(s0, ids[..k], dt)
      {
        assert ids[..k + 1] == ids[..k] + [ids[k]];
        assert ids[k] !in ids[..k];
        IntegratedSnoc(s0, ids[..k], ids[k], dt);
        stars := stars[members[k] := Stars.Update(stars[members[k]], dt)];
        k := k + 1;
      }
      assert ids[..k] == ids;
    }

    /** update(dt): attract; kill every star of `combined` and empty it;
        then `update(dt)` on each star left in the group. */
    method Update(dt: real, norm: Vec2 -> real)
      requires Valid() && IsNorm(norm)
      modifies this
      ensures Valid()
      ensures State() == Stepped(old(State()), dt, norm)
    {
      ghost var c := State();
      Attract(norm);
      KillCombined();
      WithoutBelow(c.members, Attracted(c, norm).combined, |stars|);
      Integrate(dt);
    }
  }
}
