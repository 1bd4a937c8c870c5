/** The controller's rebalancing: one shard at a time goes from the group with most shards,
    or from no group, to the group with fewest, until sizes differ by at most one.

    Proved here: it ends, in a balanced assignment, after a number of moves that is fixed in
    advance and that no other balanced assignment over the same groups can beat. */
module Rebalance {
  import opened Counting
  import opened Sets

  /** Shards by owner: what the code calls `all`. */
  type Lists = map<int, seq<nat>>

  predicate ListOk(l: seq<nat>, s: seq<int>, g: int) {
    && (forall j :: 0 <= j < |l| ==> l[j] < |s| && s[l[j]] == g)
    && (forall j, k :: 0 <= j < k < |l| ==> l[j] != l[k])
    && |l| == Count(s, g)
  }

  /** The lists are a partition of the shards that agrees with the assignment. */
  predicate Consistent(all: Lists, s: seq<int>) {
    && (forall g :: g in all ==> ListOk(all[g], s, g))
    && (forall i :: 0 <= i < |s| ==> s[i] in all)
  }

  function Size(all: Lists, g: int): nat {
    if g in all then |all[g]| else 0
  }

  // ---------- what the two scans return ----------

  /** No group first, if it has shards; otherwise the smallest identity of greatest size;
      group 0 if there is no shard at all. */
  predicate IsMaxGroup(all: Lists, m: int) {
    if Size(all, 0) > 0 then m == 0
    else
      && (forall g :: g in all ==> Size(all, g) <= Size(all, m))
      && (if m == 0 then forall g :: g in all ==> Size(all, g) == 0
          else m in all && Size(all, m) > 0 && forall g :: g in all && g < m ==> Size(all, g) < Size(all, m))
  }

  /** The smallest identity of least size among the groups; 0 if there is no group. */
  predicate IsMinGroup(all: Lists, m: int) {
    if m == 0 then forall g :: g in all ==> g == 0
    else
      && m in all
      && (forall g :: g in all && g != 0 ==> Size(all, m) <= Size(all, g))
      && (forall g :: g in all && g != 0 && g < m ==> Size(all, m) < Size(all, g))
  }

  /** Whatever order the map is enumerated in, the scans have one possible result. */
  lemma ScansUnique(all: Lists, m: int, m': int)
    ensures IsMaxGroup(all, m) && IsMaxGroup(all, m') ==> m == m'
    ensures IsMinGroup(all, m) && IsMinGroup(all, m') ==> m == m'
  {
  }

  // ---------- one move ----------

  predicate Settled(all: Lists, max: int, min: int) {
    max != 0 && Size(all, max) <= 1 + Size(all, min)
  }

  function MoveLists(all: Lists, max: int, min: int): Lists
    requires max in all && min in all && all[max] != []
  {
    var cut := all[max := all[max][1..]];
    cut[min := cut[min] + [all[max][0]]]
  }

  lemma MoveConsistent(all: Lists, s: seq<int>, max: int, min: int)
    requires Consistent(all, s) && max in all && min in all && max != min && all[max] != []
    ensures all[max][0] < |s| && s[all[max][0]] == max
    ensures Consistent(MoveLists(all, max, min), s[all[max][0] := min])
  {
    var i := all[max][0];
    var s', all' := s[i := min], MoveLists(all, max, min);
    forall g | g in all' ensures ListOk(all'[g], s', g) {
      CountUpdate(s, i, min, g);
      assert ListOk(all[g], s, g);
      assert ListOk(all[max], s, max);
    }
  }

  // ---------- how many moves it takes ----------

  function Over(a: int, b: int): int {
    if a > b then a - b else 0
  }

  function Above(s: seq<int>, q: int): int -> int {
    g => Over(Count(s, g), q + 1)
  }

  function Below(s: seq<int>, q: int): int -> int {
    g => Over(q, Count(s, g))
  }

  /** How far group sizes exceed `q + 1`. */
  function Surplus(gs: seq<int>, s: seq<int>, q: int): int {
    Sum(gs, Above(s, q))
  }

  /** How far group sizes fall short of `q`. */
  function Deficit(gs: seq<int>, s: seq<int>, q: int): int {
    Sum(gs, Below(s, q))
  }

  function Share(gs: seq<int>, s: seq<int>): int
    requires gs != []
  {
    |s| / |gs|
  }

  /** Shards that have to leave, or places that have to be filled, whichever is more. */
  function Distance(gs: seq<int>, s: seq<int>): int
    requires gs != []
  {
    var leaving := Count(s, 0) + Surplus(gs, s, Share(gs, s));
    var arriving := Deficit(gs, s, Share(gs, s));
    if leaving > arriving then leaving else arriving
  }

  /** Sizes differ by at most one and no shard is without a group. */
  predicate IsBalanced(gs: seq<int>, s: seq<int>) {
    && (forall i :: 0 <= i < |s| ==> s[i] in gs)
    && forall g, h :: g in gs && h in gs ==> Count(s, g) <= Count(s, h) + 1
  }

  lemma DistanceNonNegative(gs: seq<int>, s: seq<int>)
    requires gs != []
    ensures Distance(gs, s) >= 0
  {
    SumNonNegative(gs, Below(s, Share(gs, s)));
  }

  /** If every group has at least `v`, and one more, the sum shows it. */
  lemma SumAbove(gs: seq<int>, f: int -> int, v: int, x: int)
    requires Distinct(gs) && x in gs && forall g :: g in gs ==> f(g) >= v
    ensures Sum(gs, f) >= v * |gs| + f(x) - v
  {
    var flat := (g: int) => if g == x then f(x) else v;
    SumConst(gs, v);
    SumAt(gs, Const(v), flat, x);
    SumLeq(gs, flat, f);
  }

  lemma SumBelow(gs: seq<int>, f: int -> int, v: int, x: int)
    requires Distinct(gs) && x in gs && forall g :: g in gs ==> f(g) <= v
    ensures Sum(gs, f) <= v * |gs| + f(x) - v
  {
    var flat := (g: int) => if g == x then f(x) else v;
    SumConst(gs, v);
    SumAt(gs, Const(v), flat, x);
    SumLeq(gs, f, flat);
  }

  lemma ShareBounds(gs: seq<int>, s: seq<int>)
    requires gs != []
    ensures Share(gs, s) * |gs| <= |s| < (Share(gs, s) + 1) * |gs|
  {
    var q, k := |s| / |gs|, |gs|;
    assert |s| == q * k + |s| % k;
    assert (q + 1) * k == q * k + k;
  }

  lemma AllHave(gs: seq<int>, s: seq<int>, v: int)
    requires Groups(gs) && OwnedBy(s, gs) && forall g :: g in gs ==> Count(s, g) >= v
    ensures |s| >= v * |gs|
  {
    Mass(gs, s);
    SumConst(gs, v);
    SumLeq(gs, Const(v), Counts(s));
  }

  /** The smallest group has at most the share. */
  lemma SmallestIsSmall(gs: seq<int>, s: seq<int>, m: int)
    requires Groups(gs) && OwnedBy(s, gs) && m in gs && forall g :: g in gs ==> Count(s, m) <= Count(s, g)
    ensures Count(s, m) <= Share(gs, s)
  {
    var q := Share(gs, s);
    if Count(s, m) >= q + 1 {
      ShareBounds(gs, s);
      AllHave(gs, s, q + 1);
    }
  }

  /** If the smallest group has less than the share and every shard has a group, the largest
      has more. */
  lemma LargestIsLarge(gs: seq<int>, s: seq<int>, m: int, x: int)
    requires Groups(gs) && OwnedBy(s, gs) && Count(s, 0) == 0 && m in gs && x in gs
    requires Count(s, m) < Share(gs, s) && forall g :: g in gs ==> Count(s, g) <= Count(s, x)
    ensures Count(s, x) > Share(gs, s)
  {
    var q := Share(gs, s);
    Mass(gs, s);
    ShareBounds(gs, s);
    if Count(s, x) <= q {
      SumBelow(gs, Counts(s), q, m);
    }
  }

  // ---------- every move brings the assignment one closer ----------

  lemma SurplusMove(gs: seq<int>, s: seq<int>, i: nat, to: int, q: int)
    requires Groups(gs) && i < |s| && to in gs && s[i] != to && (s[i] == 0 || s[i] in gs) && Count(s, to) <= q
    ensures Surplus(gs, s[i := to], q) == Surplus(gs, s, q) - if s[i] != 0 && Count(s, s[i]) > q + 1 then 1 else 0
  {
    var s' := s[i := to];
    forall g ensures Count(s', g) == Count(s, g) - (if s[i] == g then 1 else 0) + (if to == g then 1 else 0) {
      CountUpdate(s, i, to, g);
    }
    var f, h := Above(s, q), Above(s', q);
    if s[i] == 0 {
      SumEq(gs, f, h);
    } else {
      SumAt(gs, f, h, s[i]);
    }
  }

  lemma DeficitMove(gs: seq<int>, s: seq<int>, i: nat, to: int, q: int)
    requires Groups(gs) && i < |s| && to in gs && s[i] != to && (s[i] == 0 || (s[i] in gs && Count(s, s[i]) > q))
    ensures Deficit(gs, s[i := to], q) == Deficit(gs, s, q) - if Count(s, to) < q then 1 else 0
  {
    var s' := s[i := to];
    forall g ensures Count(s', g) == Count(s, g) - (if s[i] == g then 1 else 0) + (if to == g then 1 else 0) {
      CountUpdate(s, i, to, g);
    }
    SumAt(gs, Below(s, q), Below(s', q), to);
  }

  lemma NoDeficit(gs: seq<int>, s: seq<int>, q: int)
    requires forall g :: g in gs ==> Count(s, g) >= q
    ensures Deficit(gs, s, q) == 0
  {
    SumConst(gs, 0);
    SumEq(gs, Below(s, q), Const(0));
  }

  lemma NoSurplus(gs: seq<int>, s: seq<int>, q: int)
    requires forall g :: g in gs ==> Count(s, g) <= q + 1
    ensures Surplus(gs, s, q) == 0
  {
    SumConst(gs, 0);
    SumEq(gs, Above(s, q), Const(0));
  }

  lemma SomeDeficit(gs: seq<int>, s: seq<int>, q: int, m: int)
    requires m in gs
    ensures Deficit(gs, s, q) >= Over(q, Count(s, m))
  {
    SumAtLeast(gs, Below(s, q), m);
  }

  lemma SomeSurplus(gs: seq<int>, s: seq<int>, q: int, m: int)
    requires m in gs
    ensures Surplus(gs, s, q) >= Over(Count(s, m), q + 1)
  {
    SumAtLeast(gs, Above(s, q), m);
  }

  /** A shard of no group goes to the smallest group. */
  lemma PlacingHelps(gs: seq<int>, s: seq<int>, i: nat, m: int)
    requires Groups(gs) && OwnedBy(s, gs) && i < |s| && s[i] == 0
    requires m in gs && forall g :: g in gs ==> Count(s, m) <= Count(s, g)
    ensures Distance(gs, s[i := m]) == Distance(gs, s) - 1
  {
    var q := Share(gs, s);
    SmallestIsSmall(gs, s, m);
    SurplusMove(gs, s, i, m, q);
    DeficitMove(gs, s, i, m, q);
    CountUpdate(s, i, m, 0);
    if Count(s, m) == q {
      CountPositive(s, i);
      NoDeficit(gs, s, q);
      SumNonNegative(gs, Above(s, q));
    }
  }

  /** A shard of the largest group goes to the smallest, which is smaller by more than one. */
  lemma ShiftingHelps(gs: seq<int>, s: seq<int>, i: nat, m: int)
    requires Groups(gs) && OwnedBy(s, gs) && Count(s, 0) == 0 && i < |s| && s[i] in gs && s[i] != m
    requires m in gs && forall g :: g in gs ==> Count(s, m) <= Count(s, g) <= Count(s, s[i])
    requires Count(s, s[i]) > Count(s, m) + 1
    ensures Distance(gs, s[i := m]) == Distance(gs, s) - 1
  {
    var q := Share(gs, s);
    SmallestIsSmall(gs, s, m);
    CountUpdate(s, i, m, 0);
    if Count(s, m) < q {
      LargestIsLarge(gs, s, m, s[i]);
      SomeDeficit(gs, s, q, m);
      if Count(s, s[i]) == q + 1 {
        NoSurplus(gs, s, q);
      }
    } else {
      NoDeficit(gs, s, q);
      SomeSurplus(gs, s, q, s[i]);
    }
    SurplusMove(gs, s, i, m, q);
    DeficitMove(gs, s, i, m, q);
  }

  // ---------- the scans always have a result ----------

  lemma {:induction false} GreatestExists(all: Lists, ks: set<int>, x: int) returns (m: int)
    requires x in ks
    ensures m in ks && forall g :: g in ks ==> Size(all, g) <= Size(all, m) && (g < m ==> Size(all, g) < Size(all, m))
  {
    m := x;
    if y :| y in ks && y != x {
      var k := GreatestExists(all, ks - {x}, y);
      if Size(all, k) > Size(all, x) || (Size(all, k) == Size(all, x) && k < x) {
        m := k;
      }
    }
  }

  lemma {:induction false} LeastExists(all: Lists, ks: set<int>, x: int) returns (m: int)
    requires x in ks
    ensures m in ks && forall g :: g in ks ==> Size(all, m) <= Size(all, g) && (g < m ==> Size(all, m) < Size(all, g))
  {
    m := x;
    if y :| y in ks && y != x {
      var k := LeastExists(all, ks - {x}, y);
      if Size(all, k) < Size(all, x) || (Size(all, k) == Size(all, x) && k < x) {
        m := k;
      }
    }
  }

  lemma ScansExist(all: Lists)
    ensures exists m :: IsMaxGroup(all, m)
    ensures exists m :: IsMinGroup(all, m)
  {
    if x :| x in all && Size(all, 0) == 0 {
      var m := GreatestExists(all, all.Keys, x);
      assert IsMaxGroup(all, if Size(all, m) == 0 then 0 else m);
    } else {
      assert IsMaxGroup(all, 0);
    }
    if x :| x in all && x != 0 {
      var m := LeastExists(all, all.Keys - {0}, x);
      assert IsMinGroup(all, m);
    } else {
      assert IsMinGroup(all, 0);
    }
  }

  ghost function MaxGroup(all: Lists): (m: int)
    ensures IsMaxGroup(all, m)
  {
    ScansExist(all);
    var m :| IsMaxGroup(all, m);
    m
  }

  ghost function MinGroup(all: Lists): (m: int)
    ensures IsMinGroup(all, m)
  {
    ScansExist(all);
    var m :| IsMinGroup(all, m);
    m
  }

  // ---------- the whole rebalancing ----------

  /** `gs` lists the groups. */
  ghost predicate ListsGroups(gs: seq<int>, all: Lists) {
    Groups(gs) && forall g :: g in gs <==> g in all && g != 0
  }

  lemma {:induction false} ListExists(ks: set<int>) returns (gs: seq<int>)
    ensures Distinct(gs) && forall g :: g in gs <==> g in ks
  {
    gs := [];
    if k :| k in ks {
      gs := ListExists(ks - {k});
      gs := gs + [k];
    }
  }

  ghost function GroupList(all: Lists): (gs: seq<int>)
    ensures ListsGroups(gs, all)
  {
    assert exists gs :: ListsGroups(gs, all) by {
      var gs := ListExists(all.Keys - {0});
      assert ListsGroups(gs, all);
    }
    var gs :| ListsGroups(gs, all);
    gs
  }

  lemma OwnersListed(all: Lists, s: seq<int>, gs: seq<int>)
    requires Consistent(all, s) && ListsGroups(gs, all)
    ensures OwnedBy(s, gs) && forall g :: g in all ==> Size(all, g) == Count(s, g)
  {
    forall g | g in all ensures Size(all, g) == Count(s, g) {
      assert ListOk(all[g], s, g);
    }
  }

  /** A move, while sizes differ too much: from a group to another, which it brings closer. */
  lemma MoveHelps(all: Lists, s: seq<int>, gs: seq<int>)
    requires Consistent(all, s) && ListsGroups(gs, all) && gs != [] && s != []
    requires !Settled(all, MaxGroup(all), MinGroup(all))
    ensures var max, min := MaxGroup(all), MinGroup(all);
      && max in all && min in gs && max != min && all[max] != []
      && all[max][0] < |s| && s[all[max][0]] == max
      && Consistent(MoveLists(all, max, min), s[all[max][0] := min])
      && ListsGroups(gs, MoveLists(all, max, min))
      && Distance(gs, s[all[max][0] := min]) == Distance(gs, s) - 1
  {
    var max, min := MaxGroup(all), MinGroup(all);
    OwnersListed(all, s, gs);
    assert gs[0] in gs;
    assert s[0] in all && Size(all, s[0]) > 0 by {
      CountPositive(s, 0);
    }
    MoveConsistent(all, s, max, min);
    if 0 !in all {
      CountZero(s, 0);
    }
    if max == 0 {
      PlacingHelps(gs, s, all[max][0], min);
    } else {
      ShiftingHelps(gs, s, all[max][0], min);
    }
  }

  /** What a rebalancing leads to, and the shards it moved on the way. */
  datatype Outcome = Outcome(s: seq<int>, moves: seq<nat>)

  ghost function Balance(all: Lists, s: seq<int>, gs: seq<int>): (r: Outcome)
    requires Consistent(all, s) && ListsGroups(gs, all) && gs != [] && s != []
    decreases Distance(gs, s)
  {
    var max, min := MaxGroup(all), MinGroup(all);
    if Settled(all, max, min) then Outcome(s, [])
    else
      MoveHelps(all, s, gs);
      DistanceNonNegative(gs, s[all[max][0] := min]);
      var r := Balance(MoveLists(all, max, min), s[all[max][0] := min], gs);
      Outcome(r.s, [all[max][0]] + r.moves)
  }

  lemma SettledIsBalanced(all: Lists, s: seq<int>, gs: seq<int>)
    requires Consistent(all, s) && ListsGroups(gs, all) && gs != [] && Settled(all, MaxGroup(all), MinGroup(all))
    ensures IsBalanced(gs, s)
  {
    OwnersListed(all, s, gs);
    if 0 in s {
      CountZero(s, 0);
    }
  }

  lemma BalancedDistance(gs: seq<int>, s: seq<int>)
    requires Groups(gs) && gs != [] && IsBalanced(gs, s)
    ensures Distance(gs, s) == 0
  {
    BalancedSizes(gs, s);
    NoDeficit(gs, s, Share(gs, s));
    NoSurplus(gs, s, Share(gs, s));
    CountZero(s, 0);
  }

  /** Rebalancing ends with every shard owned by a group and sizes within one, after exactly
      as many moves as the assignment was away; only moved shards have a new owner. */
  lemma {:induction false} BalanceResult(all: Lists, s: seq<int>, gs: seq<int>)
    requires Consistent(all, s) && ListsGroups(gs, all) && gs != [] && s != []
    ensures var r := Balance(all, s, gs);
      && |r.s| == |s| && IsBalanced(gs, r.s) && |r.moves| == Distance(gs, s)
      && forall i :: 0 <= i < |s| && s[i] != r.s[i] ==> i in r.moves
    decreases Distance(gs, s)
  {
    var max, min := MaxGroup(all), MinGroup(all);
    if Settled(all, max, min) {
      SettledIsBalanced(all, s, gs);
      BalancedDistance(gs, s);
    } else {
      MoveHelps(all, s, gs);
      DistanceNonNegative(gs, s[all[max][0] := min]);
      BalanceResult(MoveLists(all, max, min), s[all[max][0] := min], gs);
    }
  }

  // ---------- no balanced assignment is closer ----------

  /** In a balanced assignment every group has the share or one more. */
  lemma BalancedSizes(gs: seq<int>, t: seq<int>)
    requires Groups(gs) && gs != [] && IsBalanced(gs, t)
    ensures forall g :: g in gs ==> Share(gs, t) <= Count(t, g) <= Share(gs, t) + 1
  {
    var q := Share(gs, t);
    Mass(gs, t);
    ShareBounds(gs, t);
    CountZero(t, 0);
    forall g | g in gs ensures q <= Count(t, g) <= q + 1 {
      if Count(t, g) < q {
        SumBelow(gs, Counts(t), q, g);
      } else if Count(t, g) > q + 1 {
        SumAbove(gs, Counts(t), q + 1, g);
      }
    }
  }

  lemma MustLeave(gs: seq<int>, s: seq<int>, t: seq<int>)
    requires Groups(gs) && gs != [] && OwnedBy(s, gs) && |s| == |t| && IsBalanced(gs, t)
    ensures Changed(s, t) >= Count(s, 0) + Surplus(gs, s, Share(gs, s))
  {
    BalancedSizes(gs, t);
    CountZero(t, 0);
    LeavingCounts(s, t, 0);
    ChangesAreLeavings(gs, s, t);
    var f := Above(s, Share(gs, s));
    forall g | g in gs ensures f(g) <= LeavingAll(s, t)(g) {
      LeavingCounts(s, t, g);
    }
    SumLeq(gs, f, LeavingAll(s, t));
  }

  lemma MustArrive(gs: seq<int>, s: seq<int>, t: seq<int>)
    requires Groups(gs) && gs != [] && |s| == |t| && IsBalanced(gs, t)
    ensures Changed(s, t) >= Deficit(gs, s, Share(gs, s))
  {
    BalancedSizes(gs, t);
    ChangesAreLeavings(gs, t, s);
    ChangedSymmetric(s, t);
    var f := Below(s, Share(gs, s));
    forall g | g in gs ensures f(g) <= LeavingAll(t, s)(g) {
      LeavingCounts(s, t, g);
    }
    SumLeq(gs, f, LeavingAll(t, s));
  }

  /** Any balanced assignment over the same groups changes at least that many owners. */
  lemma DistanceIsLeast(gs: seq<int>, s: seq<int>, t: seq<int>)
    requires Groups(gs) && gs != [] && OwnedBy(s, gs) && |s| == |t| && IsBalanced(gs, t)
    ensures Changed(s, t) >= Distance(gs, s)
  {
    MustLeave(gs, s, t);
    MustArrive(gs, s, t);
  }

  /** Rebalancing changes no more owners than any other balanced assignment would. */
  lemma FewestMoves(all: Lists, s: seq<int>, gs: seq<int>, t: seq<int>)
    requires Consistent(all, s) && ListsGroups(gs, all) && gs != [] && s != []
    requires |t| == |s| && IsBalanced(gs, t)
    ensures |Balance(all, s, gs).s| == |s| && Changed(s, Balance(all, s, gs).s) <= Changed(s, t)
  {
    var r := Balance(all, s, gs);
    BalanceResult(all, s, gs);
    OwnersListed(all, s, gs);
    DistanceIsLeast(gs, s, t);
    ChangedIsMoved(s, r.s, r.moves);
  }

  function Elements(l: seq<nat>): (r: set<nat>)
    ensures forall x :: x in r <==> x in l
    ensures |r| <= |l|
  {
    if l == [] then {} else Elements(l[..|l| - 1]) + {l[|l| - 1]}
  }

  /** A list with a repetition has fewer elements than entries. */
  lemma {:induction false} RepetitionShows(l: seq<nat>, j: nat, k: nat)
    requires j < k < |l| && l[j] == l[k]
    ensures |Elements(l)| < |l|
  {
    var init, last := l[..|l| - 1], l[|l| - 1];
    if k < |l| - 1 {
      RepetitionShows(init, j, k);
    } else {
      assert init[j] == last;
      assert Elements(l) == Elements(init);
    }
  }

  lemma ChangedIsMoved(s: seq<int>, t: seq<int>, moves: seq<nat>)
    requires |s| == |t| && forall i :: 0 <= i < |s| && s[i] != t[i] ==> i in moves
    ensures Changed(s, t) <= |Elements(moves)| <= |moves|
  {
    SubsetSize(ChangedSet(s, t), Elements(moves));
  }

  /** No shard is moved twice. */
  lemma NoShardMovesTwice(all: Lists, s: seq<int>, gs: seq<int>)
    requires Consistent(all, s) && ListsGroups(gs, all) && gs != [] && s != []
    ensures var moves := Balance(all, s, gs).moves;
      forall j, k :: 0 <= j < k < |moves| ==> moves[j] != moves[k]
  {
    var r := Balance(all, s, gs);
    BalanceResult(all, s, gs);
    OwnersListed(all, s, gs);
    DistanceIsLeast(gs, s, r.s);
    ChangedIsMoved(s, r.s, r.moves);
    forall j, k | 0 <= j < k < |r.moves| ensures r.moves[j] != r.moves[k] {
      if r.moves[j] == r.moves[k] {
        RepetitionShows(r.moves, j, k);
      }
    }
  }

  // ---------- which shards move ----------

  /** The shards of a list that have not been moved come first, in increasing order, and are all
      that their owner had under `s0` and still has. */
  ghost predicate UnmovedFirst(l: seq<nat>, g: int, s0: seq<int>, moved: set<nat>) {
    && (forall i: nat :: i < |s0| && s0[i] == g && i !in moved ==> i in l)
    && (forall j :: 0 <= j < |l| && l[j] !in moved ==> l[j] < |s0| && s0[l[j]] == g)
    && (forall j, k :: 0 <= j < k < |l| && l[k] !in moved ==> l[j] !in moved && l[j] < l[k])
  }

  /** Of the shards of one owner the lower ones have been moved first. */
  ghost predicate LowerFirst(s0: seq<int>, moved: set<nat>) {
    forall i: nat, j: nat :: i < j < |s0| && s0[i] == s0[j] && j in moved ==> i in moved
  }

  lemma TakingFirst(l: seq<nat>, g: int, s0: seq<int>, moved: set<nat>)
    requires l != [] && UnmovedFirst(l, g, s0, moved) && LowerFirst(s0, moved)
    ensures LowerFirst(s0, moved + {l[0]}) && UnmovedFirst(l[1..], g, s0, moved + {l[0]})
  {
    var first, moved' := l[0], moved + {l[0]};
    forall i: nat, j: nat | i < j < |s0| && s0[i] == s0[j] && j in moved' ensures i in moved' {
      if j == first && first !in moved && i !in moved {
        assert s0[i] == g && i in l;
      }
    }
    forall i: nat | i < |s0| && s0[i] == g && i !in moved' ensures i in l[1..] {
      var k :| 0 <= k < |l| && l[k] == i;
      assert l[1..][k - 1] == i;
    }
  }

  lemma OtherLists(l: seq<nat>, g: int, s0: seq<int>, moved: set<nat>, first: nat)
    requires UnmovedFirst(l, g, s0, moved) && (first in moved || (first < |s0| && s0[first] != g))
    ensures UnmovedFirst(l, g, s0, moved + {first}) && UnmovedFirst(l + [first], g, s0, moved + {first})
  {
    var moved', l' := moved + {first}, l + [first];
    forall j | 0 <= j < |l| ensures l[j] in moved' <==> l[j] in moved {
    }
    forall i: nat | i < |s0| && s0[i] == g && i !in moved' ensures i in l && i in l' {
      var k :| 0 <= k < |l| && l[k] == i;
      assert l'[k] == i;
    }
  }

  ghost predicate AllUnmovedFirst(all: Lists, s0: seq<int>, moved: set<nat>) {
    forall g {:trigger UnmovedFirst(all[g], g, s0, moved)} :: g in all ==> UnmovedFirst(all[g], g, s0, moved)
  }

  lemma MoveKeepsOrder(all: Lists, max: int, min: int, s0: seq<int>, moved: set<nat>)
    requires max in all && min in all && max != min && all[max] != []
    requires AllUnmovedFirst(all, s0, moved) && LowerFirst(s0, moved)
    ensures AllUnmovedFirst(MoveLists(all, max, min), s0, moved + {all[max][0]})
    ensures LowerFirst(s0, moved + {all[max][0]})
  {
    var first, all' := all[max][0], MoveLists(all, max, min);
    assert UnmovedFirst(all[max], max, s0, moved);
    assert first in moved || (first < |s0| && s0[first] == max);
    TakingFirst(all[max], max, s0, moved);
    forall g | g in all' ensures UnmovedFirst(all'[g], g, s0, moved + {first}) {
      assert UnmovedFirst(all[g], g, s0, moved);
      if g != max {
        OtherLists(all[g], g, s0, moved, first);
      }
    }
  }

  lemma {:induction false} BalanceKeepsOrder(all: Lists, s: seq<int>, gs: seq<int>, s0: seq<int>, moved: set<nat>)
    requires Consistent(all, s) && ListsGroups(gs, all) && gs != [] && s != []
    requires AllUnmovedFirst(all, s0, moved) && LowerFirst(s0, moved)
    ensures LowerFirst(s0, moved + Elements(Balance(all, s, gs).moves))
    decreases Distance(gs, s)
  {
    var max, min := MaxGroup(all), MinGroup(all);
    if Settled(all, max, min) {
      assert moved + Elements([]) == moved;
    } else {
      MoveHelps(all, s, gs);
      DistanceNonNegative(gs, s[all[max][0] := min]);
      MoveKeepsOrder(all, max, min, s0, moved);
      var all', s' := MoveLists(all, max, min), s[all[max][0] := min];
      BalanceKeepsOrder(all', s', gs, s0, moved + {all[max][0]});
      var rest := Balance(all', s', gs).moves;
      assert Elements([all[max][0]] + rest) == {all[max][0]} + Elements(rest);
      assert moved + {all[max][0]} + Elements(rest) == moved + Elements([all[max][0]] + rest);
    }
  }

  lemma {:induction false} StartInOrder(l: seq<nat>, g: int, s: seq<int>)
    requires ListOk(l, s, g) && (forall j, k :: 0 <= j < k < |l| ==> l[j] < l[k])
    requires forall i: nat :: i < |s| && s[i] == g ==> i in l
    ensures UnmovedFirst(l, g, s, {})
  {
  }

  /** A group gives up its lowest shards: when lists start in increasing order, no shard is moved
      before a lower one of the same owner. */
  lemma LowestShardsMove(all: Lists, s: seq<int>, gs: seq<int>)
    requires Consistent(all, s) && ListsGroups(gs, all) && gs != [] && s != []
    requires forall g :: g in all ==> (forall j, k :: 0 <= j < k < |all[g]| ==> all[g][j] < all[g][k])
                                      && forall i: nat :: i < |s| && s[i] == g ==> i in all[g]
    ensures var moves := Balance(all, s, gs).moves;
      forall i: nat, j: nat :: i < j < |s| && s[i] == s[j] && j in moves ==> i in moves
  {
    forall g | g in all ensures UnmovedFirst(all[g], g, s, {}) {
      StartInOrder(all[g], g, s);
    }
    BalanceKeepsOrder(all, s, gs, s, {});
    var moves := Balance(all, s, gs).moves;
    assert {} + Elements(moves) == Elements(moves);
  }

  /** Every move counts: the shards moved are exactly those with a new owner in the end. */
  lemma MovedIsChanged(all: Lists, s: seq<int>, gs: seq<int>)
    requires Consistent(all, s) && ListsGroups(gs, all) && gs != [] && s != []
    ensures |Balance(all, s, gs).s| == |s|
    ensures forall i: nat :: i in Balance(all, s, gs).moves <==> i < |s| && s[i] != Balance(all, s, gs).s[i]
  {
    var r := Balance(all, s, gs);
    BalanceResult(all, s, gs);
    OwnersListed(all, s, gs);
    DistanceIsLeast(gs, s, r.s);
    SameSize(ChangedSet(s, r.s), Elements(r.moves));
  }

  /** There are shards, and no group to take them. */
  predicate NoGroup(all: Lists) {
    all.Keys == {0} && all[0] != []
  }

  /** A move with no group goes from group 0 to group 0. */
  lemma NoGroupMove(all: Lists)
    requires NoGroup(all)
    ensures MaxGroup(all) == 0 && MinGroup(all) == 0 && !Settled(all, 0, 0)
    ensures NoGroup(MoveLists(all, 0, 0)) && |MoveLists(all, 0, 0)[0]| == |all[0]|
  {
  }

  /** The lists after `n` moves. */
  ghost function AfterMoves(all: Lists, n: nat): (r: Lists)
    requires NoGroup(all)
    ensures NoGroup(r)
  {
    if n == 0 then all
    else
      NoGroupMove(AfterMoves(all, n - 1));
      var before := AfterMoves(all, n - 1);
      MoveLists(before, MaxGroup(before), MinGroup(before))
  }

  /** With no group the recursion goes on for ever: after any number of moves it has not
      settled, and all shards are still on group 0. */
  lemma {:induction false} NoGroupNeverSettles(all: Lists, n: nat)
    requires NoGroup(all)
    ensures var r := AfterMoves(all, n);
      !Settled(r, MaxGroup(r), MinGroup(r)) && |r[0]| == |all[0]|
  {
    NoGroupMove(AfterMoves(all, n));
    if n > 0 {
      NoGroupNeverSettles(all, n - 1);
      NoGroupMove(AfterMoves(all, n - 1));
    }
  }
}
