/** Sets of servers that reach the threshold the code uses. */
module Quorums {
  import opened Replica
  import opened Invariant
  import opened Sets

  /** In a cluster of odd size any two quorums share a server. */
  lemma QuorumsMeet(size: nat, q: set<nat>, r: set<nat>) returns (s: nat)
    requires size % 2 == 1 && IsQuorum(size, q) && IsQuorum(size, r)
    ensures s in q && s in r && s < size
  {
    if q !! r {
      SubsetSize(q + r, Ids(size));
      assert false;
    }
    s :| s in q && s in r;
  }

  ghost predicate AllQuorumsMeet(size: nat) {
    forall q, r :: IsQuorum(size, q) && IsQuorum(size, r) ==> q * r != {}
  }

  lemma {:induction false} UpperHalf(k: nat)
    ensures IsQuorum(2 * k, Ids(2 * k) - Ids(k)) && IsQuorum(2 * k, Ids(k))
  {
    SubsetSize(Ids(k), Ids(2 * k));
    assert Ids(2 * k) == Ids(k) + (Ids(2 * k) - Ids(k));
  }

  /** The threshold is that of a majority exactly for clusters of odd size. */
  lemma ThresholdIsMajority(size: nat)
    ensures AllQuorumsMeet(size) <==> size % 2 == 1
  {
    if size % 2 == 1 {
      forall q, r | IsQuorum(size, q) && IsQuorum(size, r) ensures q * r != {} {
        var s := QuorumsMeet(size, q, r);
        assert s in q * r;
      }
    } else {
      var k := size / 2;
      UpperHalf(k);
      assert Ids(k) * (Ids(2 * k) - Ids(k)) == {};
    }
  }

  /** The servers whose entry reaches `v`. */
  function Reaching(a: seq<nat>, v: nat): (q: set<nat>)
    ensures |q| == CountAtLeast(a, v)
    ensures forall s: nat :: s in q <==> s < |a| && a[s] >= v
  {
    if a == [] then {}
    else
      var q := Reaching(a[..|a| - 1], v);
      if a[|a| - 1] >= v then q + {|a| - 1} else q
  }
}
