/** The log with which a leader enters its accept phase: it continues the log of the promise
    the leader adopted, and so contains whatever was or may be chosen in any earlier round. */
module Adoption {
  import opened Ballots
  import opened Replica
  import opened Cluster
  import opened Invariant
  import opened Followers
  import opened Quorums

  /** Leader `s`, in state `x`, has filed sound promises for the round it prepares. */
  ghost predicate Filed(w: World, h: Hist, s: nat, x: Server) {
    && s < |w.servers| && w.servers[s].currentRnd == x.currentRnd && w.servers[s].os == x.os
    && x.currentRnd == x.os.promised
    && x.currentRnd !in h.rlog
    && s in x.promises
    && forall f {:trigger FiledOk(w, h, s, f, x.promises[f])} ::
         f in x.promises ==> FiledOk(w, h, s, f, x.promises[f])
  }

  /** The scan never returns its starting value: the leader's own promise beats it. */
  lemma MaxIsFiled(w: World, h: Hist, s: nat, x: Server, max: Promised) returns (f: nat)
    requires Filed(w, h, s, x) && Leq(ZERO, x.os.accepted) && IsMaxPromise(x.promises, max)
    ensures f in x.promises && x.promises[f] == max && FiledOk(w, h, s, f, max)
    ensures Leq(x.os.accepted, max.accRnd)
    ensures max.accRnd == x.os.accepted ==> |x.os.log| <= max.logIdx
  {
    assert FiledOk(w, h, s, s, x.promises[s]);
    assert !Better(x.promises[s], max);
    f :| f in x.promises && x.promises[f] == max;
  }

  /** The promise `p`, filed for a round not yet in the history, was made below that round. */
  lemma FiledBelow(w: World, h: Hist, s: nat, x: Server, f: nat)
    requires Filed(w, h, s, x) && f in x.promises && h.base.Keys == h.rlog.Keys
    ensures var p := x.promises[f];
      && p.accRnd in h.rlog && p.accRnd in h.base && Lt(p.accRnd, x.currentRnd)
      && h.votes(f, p.accRnd) == p.logIdx && |h.base[p.accRnd]| <= p.logIdx
  {
    assert FiledOk(w, h, s, f, x.promises[f]);
  }

  /** The leader's new log continues the whole log of the server whose promise it adopted,
      although only a suffix of that log was sent. */
  lemma AdoptedExtends(w: World, h: Hist, s: nat, x: Server, max: Promised)
    requires Filed(w, h, s, x) && IsMaxPromise(x.promises, max)
    requires RoundsOk(w, h) && SafeRounds(w, h) && StableOk(w, h, s)
    ensures max.accRnd in h.rlog && max.accRnd in h.base && Lt(max.accRnd, x.currentRnd)
    ensures |h.base[max.accRnd]| <= max.logIdx <= |h.rlog[max.accRnd]|
    ensures h.rlog[max.accRnd][..max.logIdx] <= AdoptedLog(x, max)
    ensures DecidedLog(x) <= AdoptedLog(x, max)
  {
    var f := MaxIsFiled(w, h, s, x, max);
    FiledBelow(w, h, s, x, f);
    assert RoundOk(w, h, max.accRnd);
    var r := h.rlog[max.accRnd];
    if f == s {
      assert x.os.log == r[..max.logIdx];
    } else if max.accRnd == x.os.accepted {
      assert x.os.log + max.log == r[..max.logIdx];
    } else {
      DecidedBelow(w, h, s, max.accRnd);
      assert Prefix(x.os.log, x.os.decided) + max.log == r[..max.logIdx];
    }
  }

  /** A promiser that accepted `k` entries of an earlier round said so. */
  lemma PromiseTells(w: World, h: Hist, s: nat, x: Server, t: nat, r: Ballot, k: nat)
    requires Filed(w, h, s, x) && t in x.promises && h.base.Keys == h.rlog.Keys
    requires Lt(r, x.currentRnd) && k > 0 && h.votes(t, r) >= k
    ensures Leq(r, x.promises[t].accRnd)
    ensures r == x.promises[t].accRnd ==> k <= x.promises[t].logIdx
  {
    FiledBelow(w, h, s, x, t);
    assert FiledOk(w, h, s, t, x.promises[t]);
  }

  /** A quorum of promises shares a server with any quorum that may choose in an earlier
      round; that server can no longer vote there, so it already has. */
  lemma PromiserVoted(w: World, h: Hist, s: nat, x: Server, r: Ballot, q: set<nat>, k: nat) returns (t: nat)
    requires |w.servers| % 2 == 1
    requires Filed(w, h, s, x) && |x.promises| >= Threshold(|w.servers|)
    requires Lt(r, x.currentRnd) && MayChoose(w, h, q, r, k)
    ensures t in x.promises && h.votes(t, r) >= k
  {
    assert |x.promises.Keys| == |x.promises|;
    forall f | f in x.promises.Keys ensures f < |w.servers| {
      assert FiledOk(w, h, s, f, x.promises[f]);
    }
    t := QuorumsMeet(|w.servers|, q, x.promises.Keys);
    assert FiledOk(w, h, s, t, x.promises[t]);
  }

  /** What is carried into the adopted promise's round is carried on by the adopted log. */
  lemma CarriedOn(h: Hist, r: Ballot, k: nat, m: Ballot, idx: nat, log: seq<Command>)
    requires r in h.rlog && m in h.rlog && m in h.base && h.base[m] <= h.rlog[m]
    requires |h.base[m]| <= idx <= |h.rlog[m]| && h.rlog[m][..idx] <= log
    requires if r == m then k <= idx else Carried(h, r, k, m)
    ensures k <= |h.rlog[r]| && h.rlog[r][..k] <= log
  {
    if r == m {
      assert h.rlog[r][..k] == h.rlog[m][..idx][..k];
    } else {
      assert h.base[m] == h.rlog[m][..idx][..|h.base[m]|];
    }
  }

  /** Leader completeness: whatever may be chosen in an earlier round is in the new log, for
      every quorum of promises and every promise the scan can pick. */
  lemma LeaderCompleteness(w: World, h: Hist, s: nat, x: Server, max: Promised, r: Ballot, q: set<nat>, k: nat)
    requires s < |w.servers| && |w.servers| % 2 == 1
    requires RoundsOk(w, h) && SafeRounds(w, h) && StableOk(w, h, s)
    requires Filed(w, h, s, x) && |x.promises| >= Threshold(|w.servers|) && IsMaxPromise(x.promises, max)
    requires r in h.rlog && Lt(r, x.currentRnd) && k > 0 && MayChoose(w, h, q, r, k)
    ensures k <= |h.rlog[r]| && h.rlog[r][..k] <= AdoptedLog(x, max)
  {
    var t := PromiserVoted(w, h, s, x, r, q, k);
    assert Leq(r, max.accRnd) && (r == max.accRnd ==> k <= max.logIdx) by {
      PromiseTells(w, h, s, x, t, r, k);
      assert !Better(x.promises[t], max);
    }
    AdoptedExtends(w, h, s, x, max);
    assert h.base[max.accRnd] <= h.rlog[max.accRnd] by { assert RoundOk(w, h, max.accRnd); }
    CarriedOn(h, r, k, max.accRnd, max.logIdx, AdoptedLog(x, max));
  }
}
