/** How the state and the history may change in one step of server `s`, and what every such
    change leaves true: messages in flight, the other servers, and old rounds. */
module Progress {
  import opened Ballots
  import opened Replica
  import opened Cluster
  import opened Invariant

  // ---------- one step ----------

  /** Rounds only grow, and only the round of the acting server; it votes only in the round
      it has promised. */
  ghost predicate HistGrows(h: Hist, h': Hist, s: nat, n': Ballot) {
    && (forall n :: n in h.rlog ==> n in h'.rlog && h.rlog[n] <= h'.rlog[n])
    && (forall n :: n in h.rlog && n.pid != s ==> h'.rlog[n] == h.rlog[n])
    && (forall n :: n in h.base ==> n in h'.base && h'.base[n] == h.base[n])
    && (forall n :: n in h'.rlog && n !in h.rlog ==> n == n' && n.pid == s)
    && (forall t: nat, n :: t != s || n != n' ==> h'.votes(t, n) == h.votes(t, n))
    && h'.votes(s, n') >= h.votes(s, n')
  }

  /** The later history knows all that the earlier one knows. */
  ghost predicate Extends(h: Hist, h': Hist) {
    && (forall n :: n in h.rlog ==> n in h'.rlog && h.rlog[n] <= h'.rlog[n])
    && (forall t: nat, n :: h.votes(t, n) <= h'.votes(t, n))
  }

  ghost predicate StableGrows(h': Hist, x: Stable, y: Stable) {
    && Leq(x.promised, y.promised)
    && x.decided <= y.decided
    && Leq(x.accepted, y.accepted)
    && (y.accepted == x.accepted || y.accepted == y.promised)
    && ((y.log == x.log && y.accepted == x.accepted)
        || (&& y.accepted == y.promised == x.promised
            && y.accepted in h'.rlog && y.accepted in h'.base
            && y.log <= h'.rlog[y.accepted] && |h'.base[y.accepted]| <= |y.log|
            && (x.accepted == y.accepted ==> |x.log| <= |y.log|)))
  }

  /** A server prepares a round it prepared before, with the same log, or a fresh one. */
  ghost predicate PreparesFresh(x: Server, y: Server) {
    y.role == Leader && y.phase == Preparing ==>
      || Lt(x.os.promised, y.currentRnd)
      || (&& PreparingIn(x, y.currentRnd) && y.os.accepted == x.os.accepted
          && y.os.log == x.os.log && y.os.decided == x.os.decided)
  }

  ghost predicate Grows(w: World, h: Hist, w': World, h': Hist, s: nat) {
    && s < |w.servers| == |w'.servers|
    && (forall t :: 0 <= t < |w.servers| && t != s ==> w'.servers[t] == w.servers[t])
    && HistGrows(h, h', s, w'.servers[s].os.promised)
    && StableGrows(h', w.servers[s].os, w'.servers[s].os)
    && PreparesFresh(w.servers[s], w'.servers[s])
  }

  lemma GrowsExtends(w: World, h: Hist, w': World, h': Hist, s: nat)
    requires Grows(w, h, w', h', s)
    ensures Extends(h, h')
  {
  }

  // ---------- messages in flight ----------

  lemma OwnerMovedGrows(w: World, w': World, n: Ballot)
    requires OwnerMoved(w, n)
    requires |w'.servers| == |w.servers|
    requires forall t :: 0 <= t < |w.servers| ==> Leq(w.servers[t].os.promised, w'.servers[t].os.promised)
    ensures OwnerMoved(w', n)
  {
  }

  lemma PromisedGrows(w: World, h: Hist, w': World, h': Hist, s: nat)
    requires Grows(w, h, w', h', s)
    ensures forall t :: 0 <= t < |w.servers| ==> Leq(w.servers[t].os.promised, w'.servers[t].os.promised)
  {
  }

  lemma ChosenGrows(size: nat, h: Hist, h': Hist, s: nat, n': Ballot, n: Ballot, k: nat)
    requires HistGrows(h, h', s, n') && Chosen(size, h, n, k)
    ensures Chosen(size, h', n, k)
  {
    var q :| IsQuorum(size, q) && AllVoted(h, q, n, k);
    assert AllVoted(h', q, n, k);
  }

  lemma ChosenUpToGrows(size: nat, h: Hist, h': Hist, s: nat, n': Ballot, n: Ballot, d: nat)
    requires HistGrows(h, h', s, n') && ChosenUpTo(size, h, n, d)
    ensures ChosenUpTo(size, h', n, d)
  {
    var r :| ChosenVia(size, h, n, d, r);
    ChosenGrows(size, h, h', s, n', r, d);
    assert h.rlog[n] <= h'.rlog[n] && h.rlog[r] <= h'.rlog[r];
    assert ChosenVia(size, h', n, d, r);
  }

  lemma PromiseOkGrows(w: World, h: Hist, w': World, h': Hist, s: nat,
                       f: nat, n: Ballot, accRnd: Ballot, logIdx: nat, decIdx: nat)
    requires Grows(w, h, w', h', s) && f < |w.servers|
    requires PromiseOk(h, f, w.servers[f].os, n, accRnd, logIdx, decIdx)
    ensures PromiseOk(h', f, w'.servers[f].os, n, accRnd, logIdx, decIdx)
  {
  }

  lemma SfxOkGrows(h: Hist, h': Hist, s: nat, n': Ballot, l: Stable, l': Stable,
                   accRnd: Ballot, logIdx: nat, sfx: seq<Command>)
    requires HistGrows(h, h', s, n') && SfxOk(h, l, accRnd, logIdx, sfx)
    requires l'.accepted == l.accepted && l'.log == l.log && l'.decided == l.decided
    ensures SfxOk(h', l', accRnd, logIdx, sfx)
  {
    assert h.rlog[accRnd] <= h'.rlog[accRnd];
  }

  lemma SyncOkGrows(h: Hist, h': Hist, s: nat, n': Ballot, x: Stable, y: Stable,
                    n: Ballot, sfx: seq<Command>, syncIdx: nat)
    requires HistGrows(h, h', s, n')
    requires x == y || StableGrows(h', x, y)
    requires x.promised == n == y.promised
    requires n in h.rlog && n in h.base && SyncOk(h, x, n, sfx, syncIdx)
    ensures SyncOk(h', y, n, sfx, syncIdx)
  {
    assert h.rlog[n] <= h'.rlog[n];
    if y.log != x.log || y.accepted != x.accepted {
      assert syncIdx <= |y.log|;
    }
  }

  lemma PromiseMsgGrows(w: World, h: Hist, w': World, h': Hist, s: nat, a: nat, b: nat, m: Msg)
    requires Grows(w, h, w', h', s) && m.Promise?
    requires a < |w.servers| && b < |w.servers| && MsgOk(w, h, a, b, m)
    ensures MsgOk(w', h', a, b, m)
  {
    PromisedGrows(w, h, w', h', s);
    OwnerMovedGrows(w, w', m.n);
    PromiseOkGrows(w, h, w', h', s, a, m.n, m.accRnd, m.logIdx, m.decIdx);
    if PreparingIn(w'.servers[b], m.n) {
      assert PreparingIn(w.servers[b], m.n);
      SfxOkGrows(h, h', s, w'.servers[s].os.promised, w.servers[b].os, w'.servers[b].os, m.accRnd, m.logIdx, m.sfx);
    }
  }

  lemma SyncMsgGrows(w: World, h: Hist, w': World, h': Hist, s: nat, a: nat, b: nat, m: Msg)
    requires Grows(w, h, w', h', s) && m.AcceptSync?
    requires a < |w.servers| && b < |w.servers| && MsgOk(w, h, a, b, m)
    ensures MsgOk(w', h', a, b, m)
  {
    PromisedGrows(w, h, w', h', s);
    if w'.servers[b].os.promised == m.n {
      SyncOkGrows(h, h', s, w'.servers[s].os.promised, w.servers[b].os, w'.servers[b].os, m.n, m.sfx, m.syncIdx);
    }
  }

  lemma MsgOkGrows(w: World, h: Hist, w': World, h': Hist, s: nat, a: nat, b: nat, m: Msg)
    requires Grows(w, h, w', h', s)
    requires a < |w.servers| && b < |w.servers| && MsgOk(w, h, a, b, m)
    ensures MsgOk(w', h', a, b, m)
  {
    PromisedGrows(w, h, w', h', s);
    match m
    case Prepare(n, accRnd, logIdx, decIdx) => OwnerMovedGrows(w, w', n);
    case Promise(_, _, _, _, _) => PromiseMsgGrows(w, h, w', h', s, a, b, m);
    case AcceptSync(_, _, _) => SyncMsgGrows(w, h, w', h', s, a, b, m);
    case Accept(n, idx, c) => assert h.rlog[n] <= h'.rlog[n];
    case Accepted(n, logIdx) =>
    case Decide(n, decIdx) => ChosenUpToGrows(|w.servers|, h, h', s, w'.servers[s].os.promised, n, decIdx);
    case PrepareReq =>
    case Reconnected =>
  }

  // ---------- the servers that did not act ----------

  lemma StableOkOther(w: World, h: Hist, w': World, h': Hist, s: nat, t: nat)
    requires Grows(w, h, w', h', s) && t < |w.servers| && t != s
    requires StableOk(w, h, t)
    ensures StableOk(w', h', t)
  {
    PromisedGrows(w, h, w', h', s);
    var os := w.servers[t].os;
    OwnerMovedGrows(w, w', os.promised);
    var r :| DecidedIn(|w.servers|, h, os, r);
    ChosenGrows(|w.servers|, h, h', s, w'.servers[s].os.promised, r, os.decided);
    assert h.rlog[r] <= h'.rlog[r];
    assert DecidedIn(|w'.servers|, h', os, r);
    assert h.rlog[os.accepted] <= h'.rlog[os.accepted];
  }

  lemma FiledOkOther(w: World, h: Hist, w': World, h': Hist, s: nat, l: nat, f: nat, p: Promised)
    requires Grows(w, h, w', h', s) && l < |w.servers|
    requires w'.servers[l].os.accepted == w.servers[l].os.accepted
    requires w'.servers[l].os.log == w.servers[l].os.log
    requires w'.servers[l].os.decided == w.servers[l].os.decided
    requires w'.servers[l].currentRnd == w.servers[l].currentRnd
    requires FiledOk(w, h, l, f, p)
    ensures FiledOk(w', h', l, f, p)
  {
    PromiseOkGrows(w, h, w', h', s, f, w.servers[l].currentRnd, p.accRnd, p.logIdx, p.decIdx);
    if f != l {
      SfxOkGrows(h, h', s, w'.servers[s].os.promised, w.servers[l].os, w'.servers[l].os, p.accRnd, p.logIdx, p.log);
    }
  }

  lemma PreparingOkOther(w: World, h: Hist, w': World, h': Hist, s: nat, t: nat)
    requires Grows(w, h, w', h', s) && t < |w.servers| && t != s
    requires w.servers[t].currentRnd.pid == t
    requires PreparingOk(w, h, t)
    ensures PreparingOk(w', h', t)
  {
    var x := w.servers[t];
    forall f | f in x.promises ensures FiledOk(w', h', t, f, x.promises[f]) {
      FiledOkOther(w, h, w', h', s, t, f, x.promises[f]);
    }
  }

  lemma AdoptedOkGrows(h: Hist, h': Hist, s: nat, n': Ballot, n: Ballot, p: Promised)
    requires HistGrows(h, h', s, n') && AdoptedOk(h, n, p)
    ensures AdoptedOk(h', n, p)
  {
    assert h.rlog[p.accRnd] <= h'.rlog[p.accRnd];
  }

  lemma LeadingOkOther(w: World, h: Hist, w': World, h': Hist, s: nat, t: nat)
    requires Grows(w, h, w', h', s) && t < |w.servers| && t != s
    requires w.servers[t].currentRnd.pid == t
    requires LeadingOk(w, h, t)
    ensures LeadingOk(w', h', t)
  {
    PromisedGrows(w, h, w', h', s);
    AdoptedOkGrows(h, h', s, w'.servers[s].os.promised, w.servers[t].currentRnd, w.servers[t].maxProm);
  }

  lemma RoleOkOther(w: World, h: Hist, w': World, h': Hist, s: nat, t: nat)
    requires Grows(w, h, w', h', s) && t < |w.servers| && t != s
    requires RoleOk(w, h, t)
    ensures RoleOk(w', h', t)
  {
    if w.servers[t].role == Leader {
      if w.servers[t].phase == Preparing {
        PreparingOkOther(w, h, w', h', s, t);
      } else {
        LeadingOkOther(w, h, w', h', s, t);
      }
    }
  }

  // ---------- old rounds ----------

  lemma AllPromisedGrows(w: World, h: Hist, w': World, h': Hist, s: nat, q: set<nat>, n: Ballot)
    requires Grows(w, h, w', h', s) && AllPromised(w, q, n)
    ensures AllPromised(w', q, n)
  {
    PromisedGrows(w, h, w', h', s);
  }

  lemma RoundOkGrows(w: World, h: Hist, w': World, h': Hist, s: nat, n: Ballot)
    requires Grows(w, h, w', h', s)
    requires n in h.rlog && RoundOk(w, h, n)
    requires h'.votes(s, w'.servers[s].os.promised) <=
      if w'.servers[s].os.promised in h'.rlog then |h'.rlog[w'.servers[s].os.promised]| else 0
    ensures n in h'.rlog && RoundOk(w', h', n)
  {
    PromisedGrows(w, h, w', h', s);
    OwnerMovedGrows(w, w', n);
    assert h.rlog[n] <= h'.rlog[n];
    if n != ZERO {
      var q :| AllPromised(w, q, n);
      AllPromisedGrows(w, h, w', h', s, q, n);
    }
  }

  lemma MayChooseShrinks(w: World, h: Hist, w': World, h': Hist, s: nat, q: set<nat>, n: Ballot, k: nat)
    requires Grows(w, h, w', h', s) && MayChoose(w', h', q, n, k)
    ensures MayChoose(w, h, q, n, k)
  {
    PromisedGrows(w, h, w', h', s);
  }

  /** A pair of rounds both known before the step. */
  lemma CarriedGrows(w: World, h: Hist, w': World, h': Hist, s: nat, n: Ballot, m: Ballot, q: set<nat>, k: nat)
    requires Grows(w, h, w', h', s) && SafeRounds(w, h)
    requires n in h.rlog && m in h.rlog && m in h.base && Lt(n, m) && k > 0
    requires MayChoose(w', h', q, n, k)
    ensures n in h'.rlog && m in h'.base && Carried(h', n, k, m)
  {
    MayChooseShrinks(w, h, w', h', s, q, n, k);
    assert Carried(h, n, k, m);
    assert h.rlog[n] <= h'.rlog[n];
  }
}
