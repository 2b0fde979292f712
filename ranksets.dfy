/** Finite sets of bit positions (ranks live at positions 2 to 14 of a `u16`):
    the largest and smallest member, and the `k` highest members, which is what
    the evaluator's kicker bitsets hold. */
module RankSets {
  import opened Wrappers

  /** All members are bit positions of a `u16`. */
  ghost predicate Positions(s: set<int>)
  {
    forall x :: x in s ==> 0 <= x < 16
  }

  /** The largest member of `s` in `lo .. hi`. */
  function HighestIn(s: set<int>, lo: int, hi: int): (r: Option<int>)
    ensures r.Some? ==> lo <= r.value <= hi && r.value in s
    ensures r.Some? ==> forall x :: r.value < x <= hi ==> x !in s
    ensures r.None? ==> forall x :: lo <= x <= hi ==> x !in s
    decreases hi - lo
  {
    if hi < lo then None
    else if hi in s then Some(hi)
    else HighestIn(s, lo, hi - 1)
  }

  /** The smallest member of `s` in `lo .. hi`. */
  function LowestIn(s: set<int>, lo: int, hi: int): (r: Option<int>)
    ensures r.Some? ==> lo <= r.value <= hi && r.value in s
    ensures r.Some? ==> forall x :: lo <= x < r.value ==> x !in s
    ensures r.None? ==> forall x :: lo <= x <= hi ==> x !in s
    decreases hi - lo
  {
    if hi < lo then None
    else if lo in s then Some(lo)
    else LowestIn(s, lo + 1, hi)
  }

  lemma EmptyPositions(s: set<int>)
    requires Positions(s)
    requires forall x :: 0 <= x < 16 ==> x !in s
    ensures s == {}
  {
    assert forall x :: x !in s;
  }

  function Max(s: set<int>): (r: int)
    requires s != {} && Positions(s)
    ensures r in s && forall x :: x in s ==> x <= r
  {
    var h := HighestIn(s, 0, 15);
    if h.None? then
      EmptyPositions(s);
      assert false;
      0
    else
      h.value
  }

  /** A member that bounds every member is the largest. */
  lemma MaxIs(s: set<int>, v: int)
    requires Positions(s) && v in s && forall x :: x in s ==> x <= v
    ensures Max(s) == v
  {
  }

  function Min(s: set<int>): (r: int)
    requires s != {} && Positions(s)
    ensures r in s && forall x :: x in s ==> r <= x
  {
    var h := LowestIn(s, 0, 15);
    if h.None? then
      EmptyPositions(s);
      assert false;
      0
    else
      h.value
  }

  /** `r` is a set of highest members of `s`: everything left out is below
      everything kept. */
  ghost predicate IsTop(r: set<int>, s: set<int>)
  {
    r <= s && forall a, b :: a in r && b in s && b !in r ==> b < a
  }

  /** The `k` highest members of `s` (all of `s` when it has fewer). */
  function TopK(s: set<int>, k: nat): (r: set<int>)
    requires Positions(s)
    ensures IsTop(r, s)
    ensures |r| == if k <= |s| then k else |s|
    decreases k
  {
    if k == 0 || s == {} then {}
    else
      var m := Max(s);
      var rest := TopK(s - {m}, k - 1);
      TopStep(s, m, rest);
      {m} + rest
  }

  lemma TopStep(s: set<int>, m: int, rest: set<int>)
    requires m in s && forall x :: x in s ==> x <= m
    requires IsTop(rest, s - {m})
    ensures IsTop({m} + rest, s)
    ensures |{m} + rest| == |rest| + 1 && |s - {m}| == |s| - 1
  {
    assert m !in rest;
    forall a, b | a in {m} + rest && b in s && b !in {m} + rest
      ensures b < a
    {
      assert b in s - {m};
      if a != m { assert a in rest; }
    }
  }

  /** A top subset is determined by its size. */
  lemma {:induction false} TopUnique(r: set<int>, s: set<int>, k: nat)
    requires Positions(s)
    requires IsTop(r, s) && |r| == k
    ensures r == TopK(s, k)
    decreases k
  {
    if k > 0 {
      TopHoldsMax(r, s);
      var m := Max(s);
      TopRest(r, s, m);
      TopUnique(r - {m}, s - {m}, k - 1);
      TopKStep(s, k);
    }
  }

  /** A non-empty top subset holds the largest member. */
  lemma TopHoldsMax(r: set<int>, s: set<int>)
    requires Positions(s) && IsTop(r, s) && r != {}
    ensures s != {} && Max(s) in r
  {
    assert Max(r) in s;
    assert Max(r) <= Max(s);
  }

  /** Without the largest member, a top subset stays a top subset. */
  lemma TopRest(r: set<int>, s: set<int>, m: int)
    requires IsTop(r, s) && m in r
    ensures IsTop(r - {m}, s - {m}) && |r - {m}| == |r| - 1 && r == {m} + (r - {m})
  {
  }

  /** The `k` highest members are the largest and the `k - 1` highest of the rest. */
  lemma TopKStep(s: set<int>, k: nat)
    requires Positions(s) && s != {} && k > 0
    ensures TopK(s, k) == {Max(s)} + TopK(s - {Max(s)}, k - 1)
  {
  }

  /** Leaving out the least member of a top subset keeps it a top subset. */
  lemma DropLeast(r: set<int>, s: set<int>)
    requires Positions(s)
    requires IsTop(r, s) && r != {}
    ensures IsTop(r - {Min(r)}, s)
  {
  }

  /** Dropping the lowest of `k + 2` numbers twice leaves the `k` highest. */
  lemma DropTwoLowest(r: set<int>, k: nat)
    requires Positions(r) && |r| == k + 2
    ensures var r1 := r - {Min(r)}; r1 != {} && r1 - {Min(r1)} == TopK(r, k)
  {
    assert IsTop(r, r);
    DropLeast(r, r);
    var r1 := r - {Min(r)};
    assert r == r1 + {Min(r)};
    DropLeast(r1, r);
    TopUnique(r1 - {Min(r1)}, r, k);
  }
}
