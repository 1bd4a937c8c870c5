/** Ballots: the numbers of rounds, ordered by counter and then by the identity of
    the server that owns the round. */
module Ballots {

  datatype Ballot = Ballot(n: int, pid: int)

  /** The round every server starts in: reading an empty store yields zero ballots. */
  const ZERO := Ballot(0, 0)

  predicate Lt(a: Ballot, b: Ballot) {
    a.n < b.n || (a.n == b.n && a.pid < b.pid)
  }

  predicate Leq(a: Ballot, b: Ballot) {
    a == b || Lt(a, b)
  }

  /** Three-way comparison; it decides the strict order, its converse and equality. */
  function Compare(b: Ballot, o: Ballot): (r: int)
    ensures r < 0 <==> Lt(b, o)
    ensures r > 0 <==> Lt(o, b)
    ensures r == 0 <==> b == o
  {
    if b.n < o.n then -1
    else if b.n == o.n then
      if b.pid < o.pid then -1 else if b.pid == o.pid then 0 else 1
    else 1
  }

  /** What the scan for the greatest candidate returns; below every real ballot. */
  const NO_BALLOT := Ballot(-1, -2)

  predicate IsMaxBallot(candidates: set<Ballot>, m: Ballot) {
    && (m == NO_BALLOT || m in candidates)
    && forall b :: b in candidates ==> Leq(b, m)
  }

  /** The scan over a Go map, in whatever order the runtime enumerates it. */
  method MaxBallot(candidates: set<Ballot>) returns (res: Ballot)
    ensures IsMaxBallot(candidates, res)
  {
    res := NO_BALLOT;
    var rest := candidates;
    while rest != {}
      invariant rest <= candidates
      invariant res == NO_BALLOT || res in candidates
      invariant forall b :: b in candidates && b !in rest ==> Leq(b, res)
      decreases |rest|
    {
      var b :| b in rest;
      rest := rest - {b};
      if Compare(res, b) < 0 {
        res := b;
      }
    }
  }
}
