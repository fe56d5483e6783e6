/** Enumerations of pairs of particle ids, in the order the simulators' nested
    loops visit them. */
module Pairs {

  type Pair = (nat, nat)

  /** The pairs `(p, q)` for each `q` of `qs` in turn: one pass of an inner
      loop `for p2 in qs: p.collide(p2)`. */
  function PairsWith(p: nat, qs: seq<nat>): (r: seq<Pair>)
    ensures |r| == |qs|
  {
    if qs == [] then [] else [(p, qs[0])] + PairsWith(p, qs[1..])
  }

  /** The k-th pair of `PairsWith(p, qs)` is `p` with the k-th element of
      `qs`. */
  lemma {:induction false} PairsWithIndex(p: nat, qs: seq<nat>)
    ensures forall k :: 0 <= k < |qs| ==> PairsWith(p, qs)[k] == (p, qs[k])
    decreases |qs|
  {
    if qs != [] {
      PairsWithIndex(p, qs[1..]);
      assert forall k :: 1 <= k < |qs| ==> PairsWith(p, qs)[k] == PairsWith(p, qs[1..])[k - 1];
    }
  }

  /** `for p2 in xs + ys` is `for p2 in xs` followed by `for p2 in ys`. */
  lemma {:induction false} PairsWithAppend(p: nat, xs: seq<nat>, ys: seq<nat>)
    ensures PairsWith(p, xs + ys) == PairsWith(p, xs) + PairsWith(p, ys)
    decreases |xs|
  {
    if xs == [] {
      assert xs + ys == ys;
    } else {
      assert (xs + ys)[1..] == xs[1..] + ys;
      PairsWithAppend(p, xs[1..], ys);
    }
  }

  /** Every pair names two particles of a group of `n`. */
  predicate PairsIn(pairs: seq<Pair>, n: nat)
  {
    forall k :: 0 <= k < |pairs| ==> pairs[k].0 < n && pairs[k].1 < n
  }

  /** Pairing a particle with particles of the group gives pairs of the
      group. */
  lemma PairsWithIn(p: nat, qs: seq<nat>, n: nat)
    requires p < n && Below(qs, n)
    ensures PairsIn(PairsWith(p, qs), n)
  {
    PairsWithIndex(p, qs);
  }

  lemma PairsInAppend(xs: seq<Pair>, ys: seq<Pair>, n: nat)
    requires PairsIn(xs, n) && PairsIn(ys, n)
    ensures PairsIn(xs + ys, n)
  {
  }

  /** The pairs visited by `for i, p1 in enumerate(s): for p2 in s[i+1:]`. */
  function AllPairs(s: seq<nat>): seq<Pair>
  {
    if |s| == 0 then [] else PairsWith(s[0], s[1..]) + AllPairs(s[1..])
  }

  /** Every id of `s` is below `n`: `s` names particles of a group of `n`. */
  predicate Below(s: seq<nat>, n: nat)
  {
    forall k :: 0 <= k < |s| ==> s[k] < n
  }

  /** A concatenation names particles of a group exactly when both parts do. */
  lemma BelowAppend(xs: seq<nat>, ys: seq<nat>, n: nat)
    ensures Below(xs + ys, n) <==> Below(xs, n) && Below(ys, n)
  {
    if Below(xs + ys, n) {
      forall k | 0 <= k < |xs| ensures xs[k] < n {
        assert xs[k] == (xs + ys)[k];
      }
      forall k | 0 <= k < |ys| ensures ys[k] < n {
        assert ys[k] == (xs + ys)[|xs| + k];
      }
    }
    if Below(xs, n) && Below(ys, n) {
      forall k | 0 <= k < |xs + ys| ensures (xs + ys)[k] < n {
        if k < |xs| {
          assert (xs + ys)[k] == xs[k];
        } else {
          assert (xs + ys)[k] == ys[k - |xs|];
        }
      }
    }
  }

  ghost predicate Distinct(s: seq<nat>)
  {
    forall i, j :: 0 <= i < j < |s| ==> s[i] != s[j]
  }

  /** The ids lo, lo + 1, ..., hi - 1. */
  function Range(lo: nat, hi: nat): (r: seq<nat>)
    ensures |r| == if lo <= hi then hi - lo else 0
    ensures forall k :: 0 <= k < |r| ==> r[k] == lo + k
    decreases hi - lo
  {
    if lo >= hi then [] else [lo] + Range(lo + 1, hi)
  }

  lemma RangeDistinct(lo: nat, hi: nat)
    ensures Distinct(Range(lo, hi))
  {
  }

  /** The number of occurrences of `x` in `s`. */
  function Occ<T(==)>(s: seq<T>, x: T): nat
    decreases |s|
  {
    if |s| == 0 then 0 else (if s[0] == x then 1 else 0) + Occ(s[1..], x)
  }

  /** Occurrences in a concatenation add up. */
  lemma {:induction false} OccAppend<T>(s: seq<T>, t: seq<T>, x: T)
    ensures Occ(s + t, x) == Occ(s, x) + Occ(t, x)
    decreases |s|
  {
    if |s| == 0 {
      assert s + t == t;
    } else {
      assert (s + t)[1..] == s[1..] + t;
      OccAppend(s[1..], t, x);
    }
  }

  /** Occ counts as the multiset of the sequence does. */
  lemma {:induction false} OccIsMultiplicity<T>(s: seq<T>, x: T)
    ensures Occ(s, x) == multiset(s)[x]
    decreases |s|
  {
    if |s| != 0 {
      OccIsMultiplicity(s[1..], x);
      assert s == [s[0]] + s[1..];
      assert multiset(s) == multiset{s[0]} + multiset(s[1..]);
    }
  }

  /** `(a, b)` occurs in `PairsWith(p, qs)` once for every occurrence of `b`
      in `qs` when `a` is `p`, and never otherwise. */
  lemma {:induction false} PairsWithCount(p: nat, qs: seq<nat>, a: nat, b: nat)
    ensures Occ(PairsWith(p, qs), (a, b)) == if a == p then Occ(qs, b) else 0
    decreases |qs|
  {
    if qs != [] {
      PairsWithCount(p, qs[1..], a, b);
      assert PairsWith(p, qs)[1..] == PairsWith(p, qs[1..]);
    }
  }

  /** Every pair of `AllPairs(s)` is made of two elements of `s`, the first one
      strictly before the second. */
  lemma {:induction false} AllPairsMembers(s: seq<nat>, a: nat, b: nat)
    requires (a, b) in AllPairs(s)
    ensures exists i, j :: 0 <= i < j < |s| && s[i] == a && s[j] == b
  {
    var ps := PairsWith(s[0], s[1..]);
    PairsWithIndex(s[0], s[1..]);
    if (a, b) in ps {
      var k :| 0 <= k < |ps| && ps[k] == (a, b);
      assert s[0] == a && s[k + 1] == b;
    } else {
      assert (a, b) in AllPairs(s[1..]);
      AllPairsMembers(s[1..], a, b);
      var i, j :| 0 <= i < j < |s[1..]| && s[1..][i] == a && s[1..][j] == b;
      assert s[i + 1] == a && s[j + 1] == b;
    }
  }

  /** In a sequence without repetitions, AllPairs lists the pair of the
      elements at positions i and j exactly once when i < j, and never when
      j <= i: every unordered pair of distinct elements is visited once, and
      no element is paired with itself. */
  lemma {:induction false} AllPairsExactlyOnce(s: seq<nat>, i: nat, j: nat)
    requires Distinct(s) && i < |s| && j < |s|
    ensures multiset(AllPairs(s))[(s[i], s[j])] == if i < j then 1 else 0
  {
    var t := s[1..];
    DistinctTail(s);
    AllPairsSplit(s, (s[i], s[j]));
    HeadCount(s, i, j);
    if i == 0 {
      NoPairsFrom(t, s[0], s[j]);
    } else if j == 0 {
      NoPairsTo(t, s[i], s[0]);
    } else {
      AllPairsExactlyOnce(t, i - 1, j - 1);
      assert t[i - 1] == s[i] && t[j - 1] == s[j];
    }
  }

  /** The tail of a sequence without repetitions has none either, and does
      not hold its head. */
  lemma DistinctTail(s: seq<nat>)
    requires Distinct(s) && |s| > 0
    ensures Distinct(s[1..]) && s[0] !in s[1..]
  {
  }

  /** AllPairs counts the pairs of its first element, then the others. */
  lemma AllPairsSplit(s: seq<nat>, x: Pair)
    requires |s| > 0
    ensures multiset(AllPairs(s))[x] == multiset(PairsWith(s[0], s[1..]))[x] + multiset(AllPairs(s[1..]))[x]
  {
  }

  /** The pairs of the first element of a sequence without repetitions. */
  lemma HeadCount(s: seq<nat>, i: nat, j: nat)
    requires Distinct(s) && i < |s| && j < |s|
    ensures multiset(PairsWith(s[0], s[1..]))[(s[i], s[j])] == if i == 0 && 0 < j then 1 else 0
  {
    var t := s[1..];
    assert Distinct(t);
    PairsWithCount(s[0], t, s[i], s[j]);
    OccIsMultiplicity(PairsWith(s[0], t), (s[i], s[j]));
    OccIsMultiplicity(t, s[j]);
    if i == 0 {
      if 0 < j {
        CountDistinct(t, j - 1);
      } else {
        NotInTail(s);
      }
    } else {
      assert s[i] != s[0];
    }
  }

  /** An element occurring once in a sequence without repetitions. */
  lemma CountDistinct(t: seq<nat>, k: nat)
    requires Distinct(t) && k < |t|
    ensures multiset(t)[t[k]] == 1
  {
    assert t == t[..k] + [t[k]] + t[k + 1..];
    assert t[k] !in t[..k];
    assert t[k] !in t[k + 1..];
    assert multiset(t) == multiset(t[..k]) + multiset{t[k]} + multiset(t[k + 1..]);
  }

  lemma NotInTail(s: seq<nat>)
    requires Distinct(s) && |s| > 0
    ensures multiset(s[1..])[s[0]] == 0
  {
    assert s[0] !in s[1..];
  }

  lemma NoPairsFrom(t: seq<nat>, a: nat, b: nat)
    requires a !in t
    ensures multiset(AllPairs(t))[(a, b)] == 0
  {
    if (a, b) in AllPairs(t) {
      AllPairsMembers(t, a, b);
      assert false;
    }
  }

  lemma NoPairsTo(t: seq<nat>, a: nat, b: nat)
    requires b !in t
    ensures multiset(AllPairs(t))[(a, b)] == 0
  {
    if (a, b) in AllPairs(t) {
      AllPairsMembers(t, a, b);
      assert false;
    }
  }

  /** Over the ids 0, ..., n - 1, AllPairs lists exactly the pairs (i, j) with
      i < j < n, each of them once. */
  lemma AllPairsOfRange(n: nat, i: nat, j: nat)
    ensures multiset(AllPairs(Range(0, n)))[(i, j)] == if i < j < n then 1 else 0
  {
    var s := Range(0, n);
    RangeDistinct(0, n);
    if i < n && j < n {
      AllPairsExactlyOnce(s, i, j);
    } else if i >= n {
      NoPairsFrom(s, i, j);
    } else {
      NoPairsTo(s, i, j);
    }
  }
}
