/** Counting and summing over sequences and integer ranges: the arithmetic shared by the
    rate limiter, the failover client, the statistics queries and the usage table. */
module Counting {

  /** Everything satisfies it. */
  function All<T>(): T -> bool
  {
    _ => true
  }

  /** The number of elements of xs that satisfy p. */
  function Count<T>(xs: seq<T>, p: T -> bool): (n: nat)
    ensures n <= |xs|
  {
    if xs == [] then 0
    else Count(xs[..|xs| - 1], p) + (if p(xs[|xs| - 1]) then 1 else 0)
  }

  /** The sum of w over the elements of xs that satisfy p. */
  function SumIf<T>(xs: seq<T>, p: T -> bool, w: T -> int): int
  {
    if xs == [] then 0
    else SumIf(xs[..|xs| - 1], p, w) + (if p(xs[|xs| - 1]) then w(xs[|xs| - 1]) else 0)
  }

  /** f(lo) + f(lo + 1) + ... + f(hi - 1). */
  function SumRange(lo: int, hi: int, f: int -> nat): (n: nat)
    decreases hi - lo
  {
    if lo >= hi then 0 else SumRange(lo, hi - 1, f) + f(hi - 1)
  }

  lemma {:induction false} CountAppend<T>(xs: seq<T>, x: T, p: T -> bool)
    ensures Count(xs + [x], p) == Count(xs, p) + (if p(x) then 1 else 0)
  {
    assert (xs + [x])[..|xs|] == xs;
  }

  lemma {:induction false} CountConcat<T>(xs: seq<T>, ys: seq<T>, p: T -> bool)
    ensures Count(xs + ys, p) == Count(xs, p) + Count(ys, p)
  {
    if ys == [] {
      assert xs + ys == xs;
    } else {
      var y := ys[|ys| - 1];
      assert xs + ys == (xs + ys[..|ys| - 1]) + [y];
      CountAppend(xs + ys[..|ys| - 1], y, p);
      CountConcat(xs, ys[..|ys| - 1], p);
    }
  }

  /** Replacing one element changes the count by that element's contribution only. */
  lemma {:induction false} CountUpdate<T>(xs: seq<T>, i: nat, x: T, p: T -> bool)
    requires i < |xs|
    ensures Count(xs[i := x], p) == Count(xs, p) - (if p(xs[i]) then 1 else 0) + (if p(x) then 1 else 0)
  {
    var n := |xs| - 1;
    if i == n {
      assert xs[i := x][..n] == xs[..n];
    } else {
      assert xs[i := x][..n] == xs[..n][i := x];
      CountUpdate(xs[..n], i, x, p);
    }
  }

  /** Predicates ordered pointwise on the elements order the counts. */
  lemma {:induction false} CountMonotone<T>(xs: seq<T>, p: T -> bool, q: T -> bool)
    requires forall i :: 0 <= i < |xs| && p(xs[i]) ==> q(xs[i])
    ensures Count(xs, p) <= Count(xs, q)
  {
    if xs != [] {
      CountMonotone(xs[..|xs| - 1], p, q);
    }
  }

  lemma CountSame<T>(xs: seq<T>, p: T -> bool, q: T -> bool)
    requires forall i :: 0 <= i < |xs| ==> p(xs[i]) == q(xs[i])
    ensures Count(xs, p) == Count(xs, q)
  {
    CountMonotone(xs, p, q);
    CountMonotone(xs, q, p);
  }

  lemma {:induction false} CountNone<T>(xs: seq<T>, p: T -> bool)
    requires forall i :: 0 <= i < |xs| ==> !p(xs[i])
    ensures Count(xs, p) == 0
  {
    if xs != [] {
      CountNone(xs[..|xs| - 1], p);
    }
  }

  lemma {:induction false} CountPositive<T>(xs: seq<T>, p: T -> bool, i: nat)
    requires i < |xs| && p(xs[i])
    ensures Count(xs, p) > 0
  {
    if i < |xs| - 1 {
      CountPositive(xs[..|xs| - 1], p, i);
    }
  }

  lemma {:induction false} CountBelowLength<T>(xs: seq<T>, p: T -> bool, i: nat)
    requires i < |xs| && !p(xs[i])
    ensures Count(xs, p) < |xs|
  {
    if i < |xs| - 1 {
      CountBelowLength(xs[..|xs| - 1], p, i);
    }
  }

  lemma {:induction false} CountFirst<T>(xs: seq<T>, p: T -> bool)
    requires xs != []
    ensures Count(xs, p) == (if p(xs[0]) then 1 else 0) + Count(xs[1..], p)
  {
    assert xs == [xs[0]] + xs[1..];
    CountConcat([xs[0]], xs[1..], p);
    assert [xs[0]][..0] == [];
  }

  /** xs without its i-th element. */
  function Remove<T>(xs: seq<T>, i: nat): seq<T>
    requires i < |xs|
  {
    xs[..i] + xs[i + 1..]
  }

  lemma {:induction false} CountRemove<T>(xs: seq<T>, i: nat, p: T -> bool)
    requires i < |xs|
    ensures Count(Remove(xs, i), p) == Count(xs, p) - (if p(xs[i]) then 1 else 0)
  {
    var n := |xs| - 1;
    if i == n {
      assert Remove(xs, i) == xs[..n];
    } else {
      CountRemove(xs[..n], i, p);
      assert Remove(xs, i) == Remove(xs[..n], i) + [xs[n]];
      CountAppend(Remove(xs[..n], i), xs[n], p);
    }
  }

  lemma {:induction false} SumRangeSame(lo: int, hi: int, f: int -> nat, g: int -> nat)
    requires forall i :: lo <= i < hi ==> f(i) == g(i)
    ensures SumRange(lo, hi, f) == SumRange(lo, hi, g)
    decreases hi - lo
  {
    if lo < hi {
      SumRangeSame(lo, hi - 1, f, g);
    }
  }

  /** A sum of terms bounded by b is bounded by the number of terms times b. */
  lemma {:induction false} SumRangeBound(lo: int, hi: int, f: int -> nat, b: nat)
    requires lo <= hi
    requires forall i :: lo <= i < hi ==> f(i) <= b
    ensures SumRange(lo, hi, f) <= (hi - lo) * b
    decreases hi - lo
  {
    if lo < hi {
      SumRangeBound(lo, hi - 1, f, b);
      assert (hi - lo) * b == (hi - 1 - lo) * b + b;
    }
  }

  /** Raising a single term of a range sum by one raises the sum by one. */
  lemma {:induction false} SumRangeBump(lo: int, hi: int, f: int -> nat, g: int -> nat, at: int)
    requires lo <= at < hi
    requires g(at) == f(at) + 1
    requires forall i :: lo <= i < hi && i != at ==> g(i) == f(i)
    ensures SumRange(lo, hi, g) == SumRange(lo, hi, f) + 1
    decreases hi - lo
  {
    if at == hi - 1 {
      SumRangeSame(lo, hi - 1, f, g);
    } else {
      SumRangeBump(lo, hi - 1, f, g, at);
    }
  }

  /** The elements that satisfy p and whose class is i. */
  function InClass<T>(p: T -> bool, cls: T -> int, i: int): T -> bool
  {
    x => p(x) && cls(x) == i
  }

  /** How many elements that satisfy p are in each class. */
  function ClassSizes<T>(xs: seq<T>, p: T -> bool, cls: T -> int): int -> nat
  {
    i => Count(xs, InClass(p, cls, i))
  }

  /** Counting class by class gives the whole count, when every element counted has its class in the range. */
  lemma {:induction false} CountByClass<T>(xs: seq<T>, p: T -> bool, cls: T -> int, lo: int, hi: int)
    requires forall i :: 0 <= i < |xs| && p(xs[i]) ==> lo <= cls(xs[i]) < hi
    ensures Count(xs, p) == SumRange(lo, hi, ClassSizes(xs, p, cls))
  {
    if xs == [] {
      SumRangeZero(lo, hi, ClassSizes(xs, p, cls));
    } else {
      var n := |xs| - 1;
      var init := xs[..n];
      CountByClass(init, p, cls, lo, hi);
      if p(xs[n]) {
        SumRangeBump(lo, hi, ClassSizes(init, p, cls), ClassSizes(xs, p, cls), cls(xs[n]));
      } else {
        SumRangeSame(lo, hi, ClassSizes(init, p, cls), ClassSizes(xs, p, cls));
      }
    }
  }

  lemma {:induction false} SumRangeZero(lo: int, hi: int, f: int -> nat)
    requires forall i :: lo <= i < hi ==> f(i) == 0
    ensures SumRange(lo, hi, f) == 0
    decreases hi - lo
  {
    if lo < hi {
      SumRangeZero(lo, hi - 1, f);
    }
  }

  lemma {:induction false} SumIfAppend<T>(xs: seq<T>, x: T, p: T -> bool, w: T -> int)
    ensures SumIf(xs + [x], p, w) == SumIf(xs, p, w) + (if p(x) then w(x) else 0)
  {
    assert (xs + [x])[..|xs|] == xs;
  }

  lemma {:induction false} SumIfConcat<T>(xs: seq<T>, ys: seq<T>, p: T -> bool, w: T -> int)
    ensures SumIf(xs + ys, p, w) == SumIf(xs, p, w) + SumIf(ys, p, w)
  {
    if ys == [] {
      assert xs + ys == xs;
    } else {
      var y := ys[|ys| - 1];
      assert xs + ys == (xs + ys[..|ys| - 1]) + [y];
      SumIfAppend(xs + ys[..|ys| - 1], y, p, w);
      SumIfConcat(xs, ys[..|ys| - 1], p, w);
    }
  }

  lemma {:induction false} SumIfSame<T>(xs: seq<T>, p: T -> bool, q: T -> bool, w: T -> int, v: T -> int)
    requires forall i :: 0 <= i < |xs| ==> p(xs[i]) == q(xs[i])
    requires forall i :: 0 <= i < |xs| && p(xs[i]) ==> w(xs[i]) == v(xs[i])
    ensures SumIf(xs, p, w) == SumIf(xs, q, v)
  {
    if xs != [] {
      SumIfSame(xs[..|xs| - 1], p, q, w, v);
    }
  }

  /** A sum over a disjoint union of two selections is the sum of the two sums. */
  lemma {:induction false} SumIfSplit<T>(xs: seq<T>, whole: T -> bool, p: T -> bool, q: T -> bool, w: T -> int)
    requires forall i :: 0 <= i < |xs| ==> !(p(xs[i]) && q(xs[i]))
    requires forall i :: 0 <= i < |xs| ==> (whole(xs[i]) <==> p(xs[i]) || q(xs[i]))
    ensures SumIf(xs, whole, w) == SumIf(xs, p, w) + SumIf(xs, q, w)
  {
    if xs != [] {
      SumIfSplit(xs[..|xs| - 1], whole, p, q, w);
    }
  }

  /** A sum of ones and zeros is the number of the ones. */
  lemma {:induction false} SumIfIsCount<T>(xs: seq<T>, p: T -> bool, w: T -> int, ones: T -> bool)
    requires forall i :: 0 <= i < |xs| ==> (if p(xs[i]) then w(xs[i]) else 0) == if ones(xs[i]) then 1 else 0
    ensures SumIf(xs, p, w) == Count(xs, ones)
  {
    if xs != [] {
      var init := xs[..|xs| - 1];
      assert forall i :: 0 <= i < |init| ==> init[i] == xs[i];
      SumIfIsCount(init, p, w, ones);
    }
  }

  /** The sum of the reals f over the elements of xs that satisfy p. */
  function SumReal<T>(xs: seq<T>, p: T -> bool, f: T -> real): real
  {
    if xs == [] then 0.0
    else SumReal(xs[..|xs| - 1], p, f) + (if p(xs[|xs| - 1]) then f(xs[|xs| - 1]) else 0.0)
  }

  lemma {:induction false} SumRealIsSum<T>(xs: seq<T>, p: T -> bool, f: T -> real, w: T -> int)
    requires forall i :: 0 <= i < |xs| && p(xs[i]) ==> f(xs[i]) == w(xs[i]) as real
    ensures SumReal(xs, p, f) == SumIf(xs, p, w) as real
  {
    if xs != [] {
      SumRealIsSum(xs[..|xs| - 1], p, f, w);
    }
  }

  // ----- Grouping -----

  predicate NoRepeats<K(==)>(ks: seq<K>)
  {
    forall i, j :: 0 <= i < j < |ks| ==> ks[i] != ks[j]
  }

  lemma {:induction false} NoRepeatsSize<K>(ks: seq<K>)
    requires NoRepeats(ks)
    ensures |set k | k in ks| == |ks|
  {
    if ks != [] {
      var n := |ks| - 1;
      NoRepeatsSize(ks[..n]);
      assert (set k | k in ks) == (set k | k in ks[..n]) + {ks[n]};
    }
  }

  /** A sequence without repetitions over a set has as many elements as the set. */
  lemma NoRepeatsCover<K>(ks: seq<K>, s: set<K>)
    requires NoRepeats(ks) && forall k :: k in ks <==> k in s
    ensures |ks| == |s|
  {
    NoRepeatsSize(ks);
    assert s == set k | k in ks;
  }

  /** What a loop over query rows has collected when the query breaks off after some of them: nothing tells it
      from the end of the rows. */
  function Delivered<T>(rows: seq<T>, n: nat): (got: seq<T>)
    ensures got <= rows
    ensures |got| == if n < |rows| then n else |rows|
    ensures got == rows <==> n >= |rows|
  {
    if n < |rows| then rows[..n] else rows
  }

  /** The elements of one group. */
  function GroupIs<T, K(==)>(key: T -> K, k: K): T -> bool
  {
    x => key(x) == k
  }

  /** The sum of w over each group of xs. */
  function GroupSums<T, K(==)>(xs: seq<T>, key: T -> K, w: T -> int): K -> int
  {
    k => SumIf(xs, GroupIs(key, k), w)
  }

  /** The elements whose group is one of ks and is selected. */
  function InGroups<T, K(==)>(key: T -> K, ks: seq<K>, sel: K -> bool): T -> bool
  {
    x => key(x) in ks && sel(key(x))
  }

  /** Group, then sum: adding the group sums of distinct selected groups is summing over their elements. */
  lemma {:induction false} SumByGroups<T, K>(xs: seq<T>, key: T -> K, ks: seq<K>, sel: K -> bool, w: T -> int)
    requires NoRepeats(ks)
    ensures SumIf(ks, sel, GroupSums(xs, key, w)) == SumIf(xs, InGroups(key, ks, sel), w)
  {
    if ks == [] {
      SumIfNone(xs, InGroups(key, ks, sel), w);
    } else {
      var n := |ks| - 1;
      var k := ks[n];
      assert k !in ks[..n];
      SumByGroups(xs, key, ks[..n], sel, w);
      if sel(k) {
        SumIfSplit(xs, InGroups(key, ks, sel), InGroups(key, ks[..n], sel), GroupIs(key, k), w);
      } else {
        SumIfSame(xs, InGroups(key, ks, sel), InGroups(key, ks[..n], sel), w, w);
      }
    }
  }

  lemma {:induction false} SumIfNone<T>(xs: seq<T>, p: T -> bool, w: T -> int)
    requires forall i :: 0 <= i < |xs| ==> !p(xs[i])
    ensures SumIf(xs, p, w) == 0
  {
    if xs != [] {
      SumIfNone(xs[..|xs| - 1], p, w);
    }
  }

  /** A sum of positive terms over a selection is positive iff something is selected. */
  lemma {:induction false} SumIfPositive<T>(xs: seq<T>, p: T -> bool, w: T -> int)
    requires forall i :: 0 <= i < |xs| && p(xs[i]) ==> w(xs[i]) > 0
    ensures SumIf(xs, p, w) >= 0
    ensures SumIf(xs, p, w) > 0 <==> exists i :: 0 <= i < |xs| && p(xs[i])
  {
    if xs != [] {
      var n := |xs| - 1;
      SumIfPositive(xs[..n], p, w);
      if i :| 0 <= i < |xs[..n]| && p(xs[..n][i]) {
        assert p(xs[i]);
      }
    }
  }

  // ----- Finite sets of integers in order -----

  lemma HasElement(s: set<int>)
    requires s != {}
    ensures exists x :: x in s
  {
    if forall x :: x !in s {
      assert false;
    }
  }

  lemma {:induction false} LeastExists(s: set<int>)
    requires s != {}
    ensures exists m :: m in s && forall x :: x in s ==> m <= x
    decreases |s|
  {
    HasElement(s);
    var a :| a in s;
    var rest := s - {a};
    assert forall x :: x in s ==> x == a || x in rest;
    if rest == {} {
      assert forall x :: x in s ==> a <= x;
    } else {
      LeastExists(rest);
      var m :| m in rest && forall x :: x in rest ==> m <= x;
      var least := if a < m then a else m;
      assert least in s && forall x :: x in s ==> least <= x;
    }
  }

  /** The elements of a set in increasing order. */
  ghost function Ascending(s: set<int>): (r: seq<int>)
    ensures forall i, j :: 0 <= i < j < |r| ==> r[i] < r[j]
    ensures forall x :: x in r <==> x in s
    ensures |r| == |s|
    decreases |s|
  {
    if s == {} then []
    else
      LeastExists(s);
      var m :| m in s && forall x :: x in s ==> m <= x;
      [m] + Ascending(s - {m})
  }
}
