/** The stream of log entries in a queue: appending, taking the first message, losing the
    tail, and forgetting the exact position. */
module Streams {
  import opened Ballots
  import opened Replica
  import opened Cluster
  import opened Invariant

  // ---------- queues ----------

  lemma {:induction false} FlowConcat(q: seq<Msg>, r: seq<Msg>, n: Ballot, k: Mark)
    ensures Flow(q + r, n, k) <==> Flow(q, n, k) && Flow(r, n, Last(q, n, k))
    ensures Last(q + r, n, k) == Last(r, n, Last(q, n, k))
  {
    if q == [] {
      assert q + r == r;
    } else {
      assert (q + r)[1..] == q[1..] + r;
      FlowConcat(q[1..], r, n, Advance(q[0], n, k));
    }
  }

  /** `k2` claims no more than `k1`. */
  predicate Weaker(k1: Mark, k2: Mark) {
    k1 == k2 || (!k2.exact && k2.p <= k1.p)
  }

  lemma {:induction false} FlowWeaken(q: seq<Msg>, n: Ballot, k1: Mark, k2: Mark)
    requires Flow(q, n, k1) && Weaker(k1, k2)
    ensures Flow(q, n, k2) && Weaker(Last(q, n, k1), Last(q, n, k2))
  {
    if q != [] {
      FlowWeaken(q[1..], n, Advance(q[0], n, k1), Advance(q[0], n, k2));
    }
  }

  lemma {:induction false} FlowQuiet(q: seq<Msg>, n: Ballot, k: Mark)
    requires forall i :: 0 <= i < |q| ==> !IsStream(q[i], n)
    ensures Flow(q, n, k) && Weaker(k, Last(q, n, k)) && Last(q, n, k).p == k.p
  {
    if q != [] {
      assert !IsStream(q[0], n);
      forall i | 0 <= i < |q[1..]| ensures !IsStream(q[1..][i], n) {
        assert q[1..][i] == q[i + 1];
      }
      FlowQuiet(q[1..], n, Advance(q[0], n, k));
    }
  }

  // ---------- the flow to one follower, on its parts ----------

  lemma EndWeaken(h: Hist, h': Hist, l: Server, l': Server, f: nat, n: Ballot, k: Mark, k': Mark)
    requires n in h.rlog && n in h'.rlog && h'.rlog[n] == h.rlog[n]
    requires EndOk(h, l, f, n, k) && Weaker(k, k')
    requires LeadingIn(l', n) ==> LeadingIn(l, n) && l.promises.Keys <= l'.promises.Keys
    ensures EndOk(h', l', f, n, k')
  {
  }

  /** The follower, its queue or its leader changed without moving the stream forward. */
  lemma FlowKeeps(h: Hist, h': Hist, s: Server, s': Server, l: Server, l': Server, f: nat,
                  q: seq<Msg>, r: seq<Msg>)
    requires FlowParts(h, s, l, f, q)
    requires s'.os.promised == s.os.promised
    requires s.os.promised in h'.rlog && s.os.promised in h'.base ==>
      && s.os.promised in h.rlog && s.os.promised in h.base
      && h'.base[s.os.promised] == h.base[s.os.promised]
      && h'.rlog[s.os.promised] == h.rlog[s.os.promised]
      && Weaker(StartMark(h, s), StartMark(h', s'))
    requires LeadingIn(l', s.os.promised) ==>
      LeadingIn(l, s.os.promised) && l.promises.Keys <= l'.promises.Keys
    requires forall i :: 0 <= i < |r| ==> !IsStream(r[i], s.os.promised)
    ensures FlowParts(h', s', l', f, q + r)
  {
    var n := s.os.promised;
    if n in h'.rlog && n in h'.base {
      var k, k' := StartMark(h, s), StartMark(h', s');
      FlowWeaken(q, n, k, k');
      FlowConcat(q, r, n, k');
      FlowQuiet(r, n, Last(q, n, k'));
      EndWeaken(h, h', l, l', f, n, Last(q, n, k), Last(q + r, n, k'));
    }
  }

  /** The follower took the first message of its leader's queue. */
  lemma FlowTakes(h: Hist, h': Hist, s: Server, s': Server, l: Server, f: nat, q: seq<Msg>)
    requires q != [] && FlowParts(h, s, l, f, q)
    requires s'.os.promised == s.os.promised
    requires s.os.promised in h'.rlog && s.os.promised in h'.base ==>
      && s.os.promised in h.rlog && s.os.promised in h.base
      && h'.base[s.os.promised] == h.base[s.os.promised]
      && h'.rlog[s.os.promised] == h.rlog[s.os.promised]
      && Weaker(Advance(q[0], s.os.promised, StartMark(h, s)), StartMark(h', s'))
    ensures FlowParts(h', s', l, f, q[1..])
  {
    var n := s.os.promised;
    if n in h'.rlog && n in h'.base {
      var k, k' := Advance(q[0], n, StartMark(h, s)), StartMark(h', s');
      FlowWeaken(q[1..], n, k, k');
      EndWeaken(h, h', l, l, f, n, Last(q[1..], n, k), Last(q[1..], n, k'));
    }
  }

  /** The follower promised a round of which its queue holds no entry yet. */
  lemma FlowStarts(h: Hist, s: Server, l: Server, f: nat, q: seq<Msg>)
    requires s.os.accepted != s.os.promised && s.phase != Accepting
    requires s.os.promised in h.rlog && s.os.promised in h.base ==> h.base[s.os.promised] <= h.rlog[s.os.promised]
    requires forall i :: 0 <= i < |q| ==> !IsStream(q[i], s.os.promised)
    ensures FlowParts(h, s, l, f, q)
  {
    var n := s.os.promised;
    if n in h.rlog && n in h.base {
      FlowQuiet(q, n, StartMark(h, s));
    }
  }

  /** The leader appended a message of its round that reaches the end of its log. */
  lemma FlowAppends(h: Hist, h': Hist, s: Server, l: Server, l': Server, f: nat, q: seq<Msg>, m: Msg, r: seq<Msg>)
    requires s.os.promised in h.rlog && s.os.promised in h.base
    requires s.os.promised in h'.rlog && s.os.promised in h'.base
    requires h'.base[s.os.promised] == h.base[s.os.promised]
    requires FlowParts(h, s, l, f, q)
    requires LeadingIn(l, s.os.promised) && f in l'.promises
    requires IsStream(m, s.os.promised) && Position(m) == |h'.rlog[s.os.promised]|
    requires |h'.rlog[s.os.promised]| == |h.rlog[s.os.promised]| + if m.Accept? then 1 else 0
    requires forall i :: 0 <= i < |r| ==> !IsStream(r[i], s.os.promised)
    ensures FlowParts(h', s, l', f, q + ([m] + r))
  {
    var n := s.os.promised;
    var k := StartMark(h, s);
    FlowConcat(q, [m] + r, n, k);
    FlowConcat([m], r, n, Last(q, n, k));
    assert Last([m], n, Last(q, n, k)) == Mark(Position(m), true);
    FlowQuiet(r, n, Mark(Position(m), true));
  }

  /** The tail of the queue was lost; a leader announced the next session. */
  lemma FlowDrops(h: Hist, s: Server, l: Server, f: nat, q: seq<Msg>, keep: nat, r: seq<Msg>)
    requires FlowParts(h, s, l, f, q) && keep <= |q|
    requires forall i :: 0 <= i < |q| && IsStream(q[i], s.os.promised) && s.os.promised in h.rlog
               ==> Position(q[i]) <= |h.rlog[s.os.promised]|
    requires s.os.promised in h.rlog && s.os.promised in h.base ==>
               StartMark(h, s).p <= |h.rlog[s.os.promised]|
    requires r == if l.role == Leader then [Reconnected] else []
    ensures FlowParts(h, s, l, f, q[..keep] + r)
  {
    var n := s.os.promised;
    if n in h.rlog && n in h.base {
      var k := StartMark(h, s);
      assert q == q[..keep] + q[keep..];
      FlowConcat(q[..keep], q[keep..], n, k);
      FlowConcat(q[..keep], r, n, k);
      LastBounded(q[..keep], n, k, |h.rlog[n]|);
      if r == [Reconnected] {
        assert Last(r, n, Last(q[..keep], n, k)) == Mark(Last(q[..keep], n, k).p, false);
      }
    }
  }

  lemma {:induction false} LastBounded(q: seq<Msg>, n: Ballot, k: Mark, top: nat)
    requires k.p <= top
    requires forall i :: 0 <= i < |q| && IsStream(q[i], n) ==> Position(q[i]) <= top
    ensures Last(q, n, k).p <= top
  {
    if q != [] {
      forall i | 0 <= i < |q[1..]| && IsStream(q[1..][i], n) ensures Position(q[1..][i]) <= top {
        assert q[1..][i] == q[i + 1];
      }
      LastBounded(q[1..], n, Advance(q[0], n, k), top);
    }
  }
}
