/** Counting the shards of groups: sums over lists of groups, and how many owners differ
    between two assignments. */
module Counting {

  // ---------- sums ----------

  predicate Distinct(gs: seq<int>) {
    forall i, j :: 0 <= i < j < |gs| ==> gs[i] != gs[j]
  }

  function Sum(gs: seq<int>, f: int -> int): int {
    if gs == [] then 0 else Sum(gs[..|gs| - 1], f) + f(gs[|gs| - 1])
  }

  lemma {:induction false} SumLeq(gs: seq<int>, f: int -> int, h: int -> int)
    requires forall g :: g in gs ==> f(g) <= h(g)
    ensures Sum(gs, f) <= Sum(gs, h)
  {
    if gs != [] {
      var last := gs[|gs| - 1];
      SumLeq(gs[..|gs| - 1], f, h);
      assert last in gs;
      assert f(last) <= h(last);
      assert Sum(gs, f) == Sum(gs[..|gs| - 1], f) + f(last);
      assert Sum(gs, h) == Sum(gs[..|gs| - 1], h) + h(last);
    }
  }

  lemma SumEq(gs: seq<int>, f: int -> int, h: int -> int)
    requires forall g :: g in gs ==> f(g) == h(g)
    ensures Sum(gs, f) == Sum(gs, h)
  {
    SumLeq(gs, f, h);
    SumLeq(gs, h, f);
  }

  /** Two functions that differ at one group of the list only. */
  lemma {:induction false} SumAt(gs: seq<int>, f: int -> int, h: int -> int, x: int)
    requires Distinct(gs) && x in gs && forall g :: g in gs && g != x ==> f(g) == h(g)
    ensures Sum(gs, h) == Sum(gs, f) + h(x) - f(x)
  {
    var init, last := gs[..|gs| - 1], gs[|gs| - 1];
    if last == x {
      SumEq(init, f, h);
    } else {
      SumAt(init, f, h, x);
    }
  }

  function Const(c: int): int -> int {
    _ => c
  }

  lemma {:induction false} SumConst(gs: seq<int>, c: int)
    ensures Sum(gs, Const(c)) == c * |gs|
  {
    if gs != [] {
      SumConst(gs[..|gs| - 1], c);
    }
  }

  lemma SumNonNegative(gs: seq<int>, f: int -> int)
    requires forall g :: g in gs ==> f(g) >= 0
    ensures Sum(gs, f) >= 0
  {
    SumConst(gs, 0);
    SumLeq(gs, Const(0), f);
  }

  lemma {:induction false} SumAtLeast(gs: seq<int>, f: int -> int, x: int)
    requires x in gs && forall g :: g in gs ==> f(g) >= 0
    ensures Sum(gs, f) >= f(x)
  {
    var init, last := gs[..|gs| - 1], gs[|gs| - 1];
    assert last in gs && f(last) >= 0;
    assert Sum(gs, f) == Sum(init, f) + f(last);
    if x in init {
      SumAtLeast(init, f, x);
    } else {
      SumNonNegative(init, f);
    }
  }

  // ---------- owners ----------

  /** The number of shards that `g` owns. */
  function Count(s: seq<int>, g: int): nat {
    if s == [] then 0 else Count(s[..|s| - 1], g) + if s[|s| - 1] == g then 1 else 0
  }

  function Counts(s: seq<int>): int -> int {
    g => Count(s, g)
  }

  /** Every owner is one of the groups or none. */
  predicate OwnedBy(s: seq<int>, gs: seq<int>) {
    forall i :: 0 <= i < |s| ==> s[i] == 0 || s[i] in gs
  }

  predicate Groups(gs: seq<int>) {
    Distinct(gs) && 0 !in gs
  }

  /** The shards of all groups and those of none make up all shards. */
  lemma {:induction false} Mass(gs: seq<int>, s: seq<int>)
    requires Groups(gs) && OwnedBy(s, gs)
    ensures Sum(gs, Counts(s)) + Count(s, 0) == |s|
  {
    if s == [] {
      SumConst(gs, 0);
      SumEq(gs, Counts(s), Const(0));
    } else {
      var t, x := s[..|s| - 1], s[|s| - 1];
      Mass(gs, t);
      if x == 0 {
        SumEq(gs, Counts(t), Counts(s));
      } else {
        SumAt(gs, Counts(t), Counts(s), x);
      }
    }
  }

  /** One shard changes hands. */
  lemma {:induction false} CountUpdate(s: seq<int>, i: nat, to: int, g: int)
    requires i < |s|
    ensures Count(s[i := to], g) == Count(s, g) - (if s[i] == g then 1 else 0) + (if to == g then 1 else 0)
  {
    var t := s[i := to];
    if i == |s| - 1 {
      assert t[..|s| - 1] == s[..|s| - 1];
    } else {
      assert t[..|s| - 1] == s[..|s| - 1][i := to];
      CountUpdate(s[..|s| - 1], i, to, g);
    }
  }

  lemma {:induction false} CountPositive(s: seq<int>, i: nat)
    requires i < |s|
    ensures Count(s, s[i]) > 0
  {
    if i < |s| - 1 {
      CountPositive(s[..|s| - 1], i);
    }
  }

  lemma {:induction false} CountZero(s: seq<int>, g: int)
    ensures Count(s, g) == 0 <==> g !in s
  {
    if s != [] {
      assert s == s[..|s| - 1] + [s[|s| - 1]];
      CountZero(s[..|s| - 1], g);
    }
  }

  lemma {:induction false} CountAtMost(s: seq<int>, g: int)
    ensures Count(s, g) <= |s|
  {
    if s != [] {
      CountAtMost(s[..|s| - 1], g);
    }
  }

  // ---------- changes of owner ----------

  function Changed(s: seq<int>, t: seq<int>): nat
    requires |s| == |t|
  {
    if s == [] then 0
    else Changed(s[..|s| - 1], t[..|s| - 1]) + if s[|s| - 1] != t[|s| - 1] then 1 else 0
  }

  /** The shards that `g` owns under `s` and not under `t`. */
  function Leaving(s: seq<int>, t: seq<int>, g: int): nat
    requires |s| == |t|
  {
    if s == [] then 0
    else Leaving(s[..|s| - 1], t[..|s| - 1], g) + if s[|s| - 1] == g && t[|s| - 1] != g then 1 else 0
  }

  function LeavingAll(s: seq<int>, t: seq<int>): int -> int
    requires |s| == |t|
  {
    g => Leaving(s, t, g)
  }

  lemma {:induction false} LeavingCounts(s: seq<int>, t: seq<int>, g: int)
    requires |s| == |t|
    ensures Count(s, g) - Leaving(s, t, g) == Count(t, g) - Leaving(t, s, g)
  {
    if s != [] {
      LeavingCounts(s[..|s| - 1], t[..|s| - 1], g);
    }
  }

  /** Every change is a shard leaving its owner. */
  lemma {:induction false} ChangesAreLeavings(gs: seq<int>, s: seq<int>, t: seq<int>)
    requires |s| == |t| && Groups(gs) && OwnedBy(s, gs)
    ensures Sum(gs, LeavingAll(s, t)) + Leaving(s, t, 0) == Changed(s, t)
  {
    if s == [] {
      SumConst(gs, 0);
      SumEq(gs, LeavingAll(s, t), Const(0));
    } else {
      var s', t', x := s[..|s| - 1], t[..|s| - 1], s[|s| - 1];
      ChangesAreLeavings(gs, s', t');
      if x == 0 || x == t[|s| - 1] {
        SumEq(gs, LeavingAll(s', t'), LeavingAll(s, t));
      } else {
        SumAt(gs, LeavingAll(s', t'), LeavingAll(s, t), x);
      }
    }
  }

  lemma {:induction false} ChangedSymmetric(s: seq<int>, t: seq<int>)
    requires |s| == |t|
    ensures Changed(s, t) == Changed(t, s)
  {
    if s != [] {
      ChangedSymmetric(s[..|s| - 1], t[..|s| - 1]);
    }
  }

  /** The shards whose owners differ. */
  function ChangedSet(s: seq<int>, t: seq<int>): (r: set<nat>)
    requires |s| == |t|
    ensures |r| == Changed(s, t)
    ensures forall i: nat :: i in r <==> i < |s| && s[i] != t[i]
  {
    if s == [] then {}
    else
      var r := ChangedSet(s[..|s| - 1], t[..|s| - 1]);
      if s[|s| - 1] != t[|s| - 1] then r + {|s| - 1} else r
  }
}
