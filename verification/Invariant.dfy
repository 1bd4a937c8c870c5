/** The inductive invariant of the cluster.

    It speaks about a history that the servers do not keep: for every round whose leader
    reached the accept phase, the log the leader entered it with (`base`) and the longest
    log it had in it (`rlog`); and for every server and round, how many entries of that
    round's log the server ever accepted (`votes`). */
module Invariant {
  import opened Ballots
  import opened Replica
  import opened Cluster

  datatype Hist = Hist(
    rlog: map<Ballot, seq<Command>>,
    base: map<Ballot, seq<Command>>,
    votes: (nat, Ballot) -> nat)

  // ---------- quorums ----------

  predicate IsQuorum(size: nat, q: set<nat>) {
    && |q| >= Threshold(size)
    && forall s :: s in q ==> s < size
  }

  ghost predicate AllVoted(h: Hist, q: set<nat>, n: Ballot, k: nat) {
    forall s :: s in q ==> h.votes(s, n) >= k
  }

  /** A majority accepted the first `k` entries of round `n`. */
  ghost predicate Chosen(size: nat, h: Hist, n: Ballot, k: nat) {
    exists q :: IsQuorum(size, q) && AllVoted(h, q, n, k)
  }

  /** Every member of `q` accepted `k` entries in round `n`, or may still do so. */
  ghost predicate MayChoose(w: World, h: Hist, q: set<nat>, n: Ballot, k: nat) {
    && IsQuorum(|w.servers|, q)
    && forall s :: s in q ==> h.votes(s, n) >= k || Leq(w.servers[s].os.promised, n)
  }

  ghost predicate AllPromised(w: World, q: set<nat>, n: Ballot) {
    && IsQuorum(|w.servers|, q)
    && forall s :: s in q ==> Leq(n, w.servers[s].os.promised)
  }

  // ---------- rounds ----------

  predicate OwnerMoved(w: World, n: Ballot) {
    && 0 <= n.pid < |w.servers|
    && Leq(n, w.servers[n.pid].os.promised)
  }

  ghost predicate RoundOk(w: World, h: Hist, n: Ballot)
    requires n in h.rlog
  {
    && n in h.base
    && h.base[n] <= h.rlog[n]
    && OwnerMoved(w, n)
    && (n != ZERO ==> exists q :: AllPromised(w, q, n))
    && forall s :: 0 <= s < |w.servers| ==> h.votes(s, n) <= |h.rlog[n]|
  }

  ghost predicate RoundsOk(w: World, h: Hist) {
    && ZERO in h.rlog
    && h.base.Keys == h.rlog.Keys
    && (forall n {:trigger RoundOk(w, h, n)} :: n in h.rlog ==> RoundOk(w, h, n))
    && forall s: nat, n :: n !in h.rlog ==> h.votes(s, n) == 0
  }

  /** What may be chosen in a round is part of the log every later round starts with. */
  ghost predicate Carried(h: Hist, n: Ballot, k: nat, m: Ballot)
    requires n in h.rlog && m in h.base
  {
    k <= |h.rlog[n]| && h.rlog[n][..k] <= h.base[m]
  }

  ghost predicate SafeRounds(w: World, h: Hist) {
    forall n, m, q, k: nat ::
      n in h.rlog && m in h.rlog && m in h.base && Lt(n, m) && MayChoose(w, h, q, n, k) && k > 0
      ==> Carried(h, n, k, m)
  }

  // ---------- servers ----------

  /** The log of a server is the start of the log of the round it accepted last. */
  ghost predicate LogOk(h: Hist, s: nat, os: Stable) {
    && os.accepted in h.rlog && os.accepted in h.base
    && h.base[os.accepted] <= os.log <= h.rlog[os.accepted]
    && h.votes(s, os.accepted) == |os.log|
    && (forall r :: Lt(os.accepted, r) ==> h.votes(s, r) == 0)
  }

  ghost predicate DecidedIn(size: nat, h: Hist, os: Stable, r: Ballot) {
    && r in h.rlog && Leq(r, os.accepted)
    && os.decided <= |os.log| && os.log[..os.decided] <= h.rlog[r]
    && Chosen(size, h, r, os.decided)
  }

  ghost predicate ChosenVia(size: nat, h: Hist, n: Ballot, d: nat, r: Ballot) {
    && n in h.rlog && r in h.rlog && Leq(r, n)
    && d <= |h.rlog[n]| && h.rlog[n][..d] <= h.rlog[r]
    && Chosen(size, h, r, d)
  }

  /** The first `d` entries of round `n` were chosen in it or in an earlier round. */
  ghost predicate ChosenUpTo(size: nat, h: Hist, n: Ballot, d: nat) {
    exists r :: ChosenVia(size, h, n, d, r)
  }

  ghost predicate StableOk(w: World, h: Hist, s: nat)
    requires s < |w.servers|
  {
    var os := w.servers[s].os;
    && Leq(os.accepted, os.promised)
    && Leq(ZERO, os.accepted)
    && OwnerMoved(w, os.promised)
    && LogOk(h, s, os)
    && exists r :: DecidedIn(|w.servers|, h, os, r)
  }

  /** What is on disk, and what the service was handed. */
  ghost predicate OutputOk(s: Server) {
    && s.disk == s.os
    && s.os.decided <= |s.os.log|
    && s.applied == Entries(s.os.log, 0, s.os.decided)
  }

  // ---------- promises ----------

  predicate PreparingIn(s: Server, n: Ballot) {
    s.role == Leader && s.phase == Preparing && s.currentRnd == n
  }

  /** A promise of `f` for round `n` still tells all that `f` accepted below `n`. */
  ghost predicate PromiseOk(h: Hist, f: nat, os: Stable, n: Ballot, accRnd: Ballot, logIdx: nat, decIdx: nat) {
    && Leq(n, os.promised)
    && accRnd in h.base && Leq(accRnd, n)
    && (os.accepted == accRnd || Leq(n, os.accepted))
    && (forall r :: Lt(accRnd, r) && Lt(r, n) ==> h.votes(f, r) == 0)
    && (Lt(accRnd, n) ==> h.votes(f, accRnd) == logIdx && |h.base[accRnd]| <= logIdx)
    && decIdx <= os.decided
  }

  /** The suffix sent with a promise completes the log of the preparing leader. */
  ghost predicate SfxOk(h: Hist, l: Stable, accRnd: Ballot, logIdx: nat, sfx: seq<Command>) {
    && accRnd in h.rlog && logIdx <= |h.rlog[accRnd]|
    && (Lt(l.accepted, accRnd) ==> l.decided <= logIdx && sfx == h.rlog[accRnd][l.decided..logIdx])
    && (l.accepted == accRnd ==>
          sfx == if |l.log| <= logIdx then h.rlog[accRnd][|l.log|..logIdx] else [])
  }

  // ---------- leaders ----------

  ghost predicate OwnPromise(s: Server, p: Promised) {
    p == Promised(s.os.accepted, |s.os.log|, s.os.decided, Suffix(s.os.log, s.os.decided))
  }

  ghost predicate FiledOk(w: World, h: Hist, l: nat, f: nat, p: Promised)
    requires l < |w.servers|
  {
    && f < |w.servers|
    && PromiseOk(h, f, w.servers[f].os, w.servers[l].currentRnd, p.accRnd, p.logIdx, p.decIdx)
    && if f == l then OwnPromise(w.servers[l], p)
       else SfxOk(h, w.servers[l].os, p.accRnd, p.logIdx, p.log)
  }

  ghost predicate PreparingOk(w: World, h: Hist, l: nat)
    requires l < |w.servers|
  {
    var s := w.servers[l];
    && s.currentRnd !in h.rlog
    && l in s.promises
    && (forall f :: 0 <= f < |s.acceptedIdx| ==> s.acceptedIdx[f] == 0)
    && forall f {:trigger FiledOk(w, h, l, f, s.promises[f])} ::
         f in s.promises ==> FiledOk(w, h, l, f, s.promises[f])
  }

  /** The promise a leader adopted is part of what its round started with. */
  ghost predicate AdoptedOk(h: Hist, n: Ballot, p: Promised) {
    && Lt(p.accRnd, n)
    && n in h.base && p.accRnd in h.rlog && p.logIdx <= |h.rlog[p.accRnd]|
    && h.rlog[p.accRnd][..p.logIdx] <= h.base[n]
  }

  ghost predicate LeadingOk(w: World, h: Hist, l: nat)
    requires l < |w.servers|
  {
    var s := w.servers[l];
    && s.currentRnd in h.rlog
    && h.rlog[s.currentRnd] == s.os.log
    && AdoptedOk(h, s.currentRnd, s.maxProm)
    && (forall f :: f in s.promises ==> f < |w.servers| && Leq(s.currentRnd, w.servers[f].os.promised))
    && forall f :: 0 <= f < |s.acceptedIdx| ==> s.acceptedIdx[f] <= h.votes(f, s.currentRnd)
  }

  ghost predicate RoleOk(w: World, h: Hist, l: nat)
    requires l < |w.servers|
  {
    var s := w.servers[l];
    && |s.acceptedIdx| == |w.servers|
    && (s.phase == Accepting ==> s.os.accepted == s.os.promised)
    && (s.role == Leader ==>
          && s.phase != Recovering
          && s.currentRnd == s.os.promised && s.currentRnd.pid == l && s.os.l.pid == l
          && Lt(ZERO, s.currentRnd)
          && if s.phase == Preparing then PreparingOk(w, h, l) else LeadingOk(w, h, l))
  }

  // ---------- messages ----------

  /** Handling this `AcceptSync` now would give the receiver a start of the round's log. */
  ghost predicate SyncOk(h: Hist, os: Stable, n: Ballot, sfx: seq<Command>, syncIdx: nat)
    requires n in h.rlog && n in h.base
  {
    && syncIdx <= |os.log| && syncIdx + |sfx| <= |h.rlog[n]|
    && os.log[..syncIdx] <= h.rlog[n]
    && sfx == h.rlog[n][syncIdx..syncIdx + |sfx|]
    && |h.base[n]| <= syncIdx + |sfx|
    && (os.accepted != n ==> syncIdx <= |h.base[n]|)
  }

  ghost predicate MsgOk(w: World, h: Hist, a: nat, b: nat, m: Msg)
    requires a < |w.servers| && b < |w.servers|
  {
    match m
    case Prepare(n, accRnd, logIdx, decIdx) =>
      && n.pid == a && OwnerMoved(w, n)
      && (PreparingIn(w.servers[a], n) ==>
            var os := w.servers[a].os;
            accRnd == os.accepted && logIdx == |os.log| && decIdx == os.decided)
    case Promise(n, accRnd, logIdx, decIdx, sfx) =>
      && n.pid == b && OwnerMoved(w, n)
      && PromiseOk(h, a, w.servers[a].os, n, accRnd, logIdx, decIdx)
      && (PreparingIn(w.servers[b], n) ==> SfxOk(h, w.servers[b].os, accRnd, logIdx, sfx))
    case AcceptSync(n, sfx, syncIdx) =>
      && n.pid == a && n in h.rlog && n in h.base
      && Leq(n, w.servers[b].os.promised)
      && (w.servers[b].os.promised == n ==> SyncOk(h, w.servers[b].os, n, sfx, syncIdx))
    case Accept(n, idx, c) =>
      && n.pid == a && n in h.rlog && n in h.base
      && Leq(n, w.servers[b].os.promised)
      && |h.base[n]| < idx <= |h.rlog[n]| && h.rlog[n][idx - 1] == c
    case Accepted(n, logIdx) => n.pid == b && logIdx <= h.votes(a, n)
    case Decide(n, decIdx) => ChosenUpTo(|w.servers|, h, n, decIdx)
    case PrepareReq => true
    case Reconnected => true
  }

  // ---------- the flow of entries to a follower ----------

  function StartMark(h: Hist, s: Server): Mark
    requires s.os.promised in h.base
  {
    Mark(if s.os.accepted == s.os.promised then |s.os.log| else |h.base[s.os.promised]|,
         s.phase == Accepting)
  }

  /** The queue ends where the leader's log ends. */
  ghost predicate EndOk(h: Hist, l: Server, f: nat, n: Ballot, k: Mark)
    requires n in h.rlog
  {
    && k.p <= |h.rlog[n]|
    && (LeadingIn(l, n) && k.exact ==> k.p == |h.rlog[n]| && f in l.promises)
  }

  /** The queue `q` from a leader in state `l` feeds follower `f`, in state `s`, without gaps. */
  ghost predicate FlowParts(h: Hist, s: Server, l: Server, f: nat, q: seq<Msg>) {
    var n := s.os.promised;
    n in h.rlog && n in h.base ==>
      && Flow(q, n, StartMark(h, s))
      && EndOk(h, l, f, n, Last(q, n, StartMark(h, s)))
  }

  ghost predicate FlowOk(w: World, h: Hist, f: nat)
    requires f < |w.servers|
  {
    var pid := w.servers[f].os.promised.pid;
    0 <= pid < |w.servers| && pid != f ==>
      FlowParts(h, w.servers[f], w.servers[pid], f, w.net(pid, f))
  }

  // ---------- all of it ----------

  ghost predicate ActorOk(w: World, h: Hist, s: nat)
    requires s < |w.servers|
  {
    StableOk(w, h, s) && OutputOk(w.servers[s]) && RoleOk(w, h, s)
  }

  ghost predicate ServersOk(w: World, h: Hist) {
    forall s {:trigger ActorOk(w, h, s)} :: 0 <= s < |w.servers| ==> ActorOk(w, h, s)
  }

  ghost predicate QueueOk(w: World, h: Hist, a: nat, b: nat)
    requires a < |w.servers| && b < |w.servers|
  {
    forall i :: 0 <= i < |w.net(a, b)| ==> MsgOk(w, h, a, b, w.net(a, b)[i])
  }

  ghost predicate QueuesOk(w: World, h: Hist) {
    forall a, b :: 0 <= a < |w.servers| && 0 <= b < |w.servers| && a != b ==> QueueOk(w, h, a, b)
  }

  ghost predicate FlowsOk(w: World, h: Hist) {
    forall f :: 0 <= f < |w.servers| ==> FlowOk(w, h, f)
  }

  ghost predicate Inv(w: World, h: Hist) {
    && |w.servers| % 2 == 1
    && RoundsOk(w, h)
    && SafeRounds(w, h)
    && ServersOk(w, h)
    && QueuesOk(w, h)
    && FlowsOk(w, h)
  }
}
