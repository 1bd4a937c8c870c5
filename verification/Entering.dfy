/** A leader has a quorum of promises and enters the accept phase of its round. */
module Entering {
  import opened Ballots
  import opened Replica
  import opened Cluster
  import opened Invariant
  import opened Progress
  import opened Streams
  import opened Frame
  import opened Followers
  import opened Quorums
  import opened Adoption

  /** Round `n` of server `s` starts with `log`. */
  function NewRound(h: Hist, s: nat, n: Ballot, log: seq<Command>): Hist {
    Hist(h.rlog[n := log], h.base[n := log], Vote(h, s, n, |log|).votes)
  }

  /** The step in which server `s` opens the accept phase of its round `n` with `log`. */
  ghost predicate Opens(w: World, h: Hist, w': World, h': Hist, s: nat, n: Ballot, log: seq<Command>) {
    && s < |w.servers| == |w'.servers|
    && (forall t :: 0 <= t < |w.servers| && t != s ==> w'.servers[t] == w.servers[t])
    && var x, y := w.servers[s], w'.servers[s];
    && n == x.os.promised && n.pid == s && n !in h.rlog && n !in h.base
    && Lt(x.os.accepted, n)
    && y.os == x.os.(log := log, accepted := n)
    && y.role == Leader && y.phase == Accepting && y.currentRnd == n
    && h.votes(s, n) == 0
    && h' == NewRound(h, s, n, log)
  }

  lemma OpensGrows(w: World, h: Hist, w': World, h': Hist, s: nat, n: Ballot, log: seq<Command>)
    requires Opens(w, h, w', h', s, n, log)
    ensures Grows(w, h, w', h', s) && VotesBounded(w', h', s)
  {
  }

  lemma OpensRounds(w: World, h: Hist, w': World, h': Hist, s: nat, n: Ballot, log: seq<Command>, q: set<nat>)
    requires RoundsOk(w, h) && Opens(w, h, w', h', s, n, log) && AllPromised(w, q, n)
    requires Grows(w, h, w', h', s) && VotesBounded(w', h', s)
    ensures RoundsOk(w', h')
  {
    AllPromisedGrows(w, h, w', h', s, q, n);
    assert RoundOk(w', h', n);
    forall m | m in h'.rlog ensures RoundOk(w', h', m) {
      if m != n {
        assert RoundOk(w, h, m);
        RoundOkGrows(w, h, w', h', s, m);
      }
    }
    assert h'.base.Keys == h'.rlog.Keys;
  }

  /** Nothing can be chosen in the new round while some later round has overtaken it. */
  lemma NewRoundHarmless(w: World, h: Hist, w': World, h': Hist, s: nat, n: Ballot, log: seq<Command>,
                         m: Ballot, q: set<nat>, q': set<nat>, k: nat)
    requires |w.servers| % 2 == 1 && Opens(w, h, w', h', s, n, log)
    requires Lt(n, m) && k > 0 && AllPromised(w, q', m)
    requires forall t: nat :: h.votes(t, n) == 0
    ensures !MayChoose(w', h', q, n, k)
  {
    if MayChoose(w', h', q, n, k) {
      var t := QuorumsMeet(|w.servers|, q, q');
      assert false;
    }
  }

  /** Whatever may be chosen below round `n` is in `log`. */
  ghost predicate Complete(w: World, h: Hist, n: Ballot, log: seq<Command>) {
    forall r, q, k: nat :: r in h.rlog && Lt(r, n) && k > 0 && MayChoose(w, h, q, r, k) ==>
      k <= |h.rlog[r]| && h.rlog[r][..k] <= log
  }

  lemma OpensSafe(w: World, h: Hist, w': World, h': Hist, s: nat, n: Ballot, log: seq<Command>)
    requires |w.servers| % 2 == 1 && RoundsOk(w, h) && SafeRounds(w, h)
    requires Opens(w, h, w', h', s, n, log) && Complete(w, h, n, log) && Lt(ZERO, n)
    requires Grows(w, h, w', h', s)
    ensures SafeRounds(w', h')
  {
    forall r, m, q, k: nat | r in h'.rlog && m in h'.rlog && m in h'.base && Lt(r, m)
                             && MayChoose(w', h', q, r, k) && k > 0
      ensures Carried(h', r, k, m)
    {
      if r == n {
        assert RoundOk(w, h, m);
        var q' :| AllPromised(w, q', m);
        NewRoundHarmless(w, h, w', h', s, n, log, m, q, q', k);
      } else if m == n {
        MayChooseShrinks(w, h, w', h', s, q, r, k);
      } else {
        CarriedGrows(w, h, w', h', s, r, m, q, k);
      }
    }
  }

  lemma OpensStable(w: World, h: Hist, w': World, h': Hist, s: nat, n: Ballot, log: seq<Command>)
    requires Opens(w, h, w', h', s, n, log) && StableOk(w, h, s) && OutputOk(w.servers[s])
    requires DecidedLog(w.servers[s]) <= log
    requires w'.servers[s].disk == w'.servers[s].os && w'.servers[s].applied == w.servers[s].applied
    requires Grows(w, h, w', h', s)
    ensures StableOk(w', h', s) && OutputOk(w'.servers[s])
  {
    var x, y := w.servers[s], w'.servers[s];
    assert log[..x.os.decided] == x.os.log[..x.os.decided];
    var r :| DecidedIn(|w.servers|, h, x.os, r);
    ChosenGrows(|w.servers|, h, h', s, n, r, x.os.decided);
    assert h.rlog[r] <= h'.rlog[r];
    assert DecidedIn(|w'.servers|, h', y.os, r);
    EntriesPrefix(x.os.log, log, x.os.decided);
    assert LogOk(h', s, y.os);
  }

  // ---------- from the leader's filed promises ----------

  /** Leader `s`, in state `x` once the last promise is filed, adopts `max`. */
  ghost predicate Enters(w: World, h: Hist, s: nat, x: Server, max: Promised) {
    && s < |w.servers|
    && Filed(w, h, s, x) && IsMaxPromise(x.promises, max)
    && |x.promises| >= Threshold(|w.servers|)
    && x == w.servers[s].(promises := x.promises)
    && x.role == Leader && x.phase == Preparing
  }

  lemma EntersComplete(w: World, h: Hist, s: nat, x: Server, max: Promised)
    requires Enters(w, h, s, x, max) && |w.servers| % 2 == 1
    requires RoundsOk(w, h) && SafeRounds(w, h) && StableOk(w, h, s)
    ensures Complete(w, h, x.currentRnd, AdoptedLog(x, max))
  {
    forall r, q, k: nat | r in h.rlog && Lt(r, x.currentRnd) && k > 0 && MayChoose(w, h, q, r, k)
      ensures k <= |h.rlog[r]| && h.rlog[r][..k] <= AdoptedLog(x, max)
    {
      LeaderCompleteness(w, h, s, x, max, r, q, k);
    }
  }

  lemma PromisersPromised(w: World, h: Hist, s: nat, x: Server)
    requires Filed(w, h, s, x)
    ensures forall f :: f in x.promises ==> f < |w.servers| && Leq(x.currentRnd, w.servers[f].os.promised)
  {
    forall f | f in x.promises ensures f < |w.servers| && Leq(x.currentRnd, w.servers[f].os.promised) {
      assert FiledOk(w, h, s, f, x.promises[f]);
    }
  }

  lemma EntersQuorum(w: World, h: Hist, s: nat, x: Server, max: Promised)
    requires Enters(w, h, s, x, max)
    ensures AllPromised(w, x.promises.Keys, x.currentRnd)
  {
    PromisersPromised(w, h, s, x);
    assert |x.promises.Keys| == |x.promises|;
  }

  lemma EntersOpens(w: World, h: Hist, w': World, s: nat, x: Server, max: Promised)
    requires RoundsOk(w, h) && Enters(w, h, s, x, max) && ActorOk(w, h, s)
    requires |w'.servers| == |w.servers| && w'.servers == w.servers[s := EnterAccept(s, x, max).s]
    ensures var log := AdoptedLog(x, max);
      Opens(w, h, w', NewRound(h, s, x.currentRnd, log), s, x.currentRnd, log)
  {
  }

  lemma EnterLeading(w: World, h: Hist, w': World, h': Hist, s: nat, x: Server, max: Promised)
    requires Opens(w, h, w', h', s, x.currentRnd, AdoptedLog(x, max))
    requires w'.servers[s] == EnterAccept(s, x, max).s
    requires forall f :: f in x.promises ==> f < |w.servers| && Leq(x.currentRnd, w'.servers[f].os.promised)
    requires |x.acceptedIdx| == |w.servers| && forall f :: 0 <= f < |x.acceptedIdx| ==> x.acceptedIdx[f] == 0
    requires x.os.l.pid == s && Lt(ZERO, x.currentRnd)
    requires AdoptedOk(h', x.currentRnd, max)
    ensures RoleOk(w', h', s)
  {
    assert LeadingOk(w', h', s);
  }

  // ---------- what is sent ----------

  /** The leader rebuilds the log of each promiser from the promised position on. */
  lemma EnterSync(h: Hist, h': Hist, n: Ballot, log: seq<Command>, f: nat, os: Stable, p: Promised, max: Promised)
    requires n in h'.rlog && n in h'.base && h'.rlog[n] == log == h'.base[n]
    requires os.accepted == p.accRnd && |os.log| == p.logIdx && p.decIdx <= os.decided <= |os.log|
    requires p.accRnd in h.rlog && os.log <= h.rlog[p.accRnd]
    requires max.accRnd in h.rlog && max.logIdx <= |h.rlog[max.accRnd]|
    requires h.rlog[max.accRnd][..max.logIdx] <= log && !Better(p, max)
    requires os.log[..os.decided] <= log
    ensures SyncOk(h', os, n, Suffix(log, SyncIdx(p, max)), SyncIdx(p, max))
  {
    if p.accRnd == max.accRnd {
      assert os.log == h.rlog[max.accRnd][..max.logIdx][..p.logIdx];
    } else {
      assert os.log[..p.decIdx] == os.log[..os.decided][..p.decIdx];
    }
  }

  lemma EnterSentTo(w: World, h: Hist, w': World, h': Hist, s: nat, x: Server, max: Promised, f: nat)
    requires RoundsOk(w, h) && SafeRounds(w', h')
    requires Enters(w, h, s, x, max) && f in x.promises && f != s && f < |w.servers|
    requires Opens(w, h, w', h', s, x.currentRnd, AdoptedLog(x, max))
    requires StableOk(w, h, f) && StableOk(w', h', f) && w.servers[f].os.promised == x.currentRnd
    requires max.accRnd in h.rlog && max.logIdx <= |h.rlog[max.accRnd]|
    requires h.rlog[max.accRnd][..max.logIdx] <= AdoptedLog(x, max)
    ensures var idx := SyncIdx(x.promises[f], max);
      SyncOk(h', w.servers[f].os, x.currentRnd, Suffix(AdoptedLog(x, max), idx), idx)
  {
    var p := x.promises[f];
    assert FiledOk(w, h, s, f, p);
    FiledBelow(w, h, s, x, f);
    DecidedBelow(w', h', f, x.currentRnd);
    EnterSync(h, h', x.currentRnd, AdoptedLog(x, max), f, w.servers[f].os, p, max);
  }

  lemma EnterSent(w: World, h: Hist, w': World, h': Hist, s: nat, x: Server, max: Promised)
    requires RoundsOk(w, h) && SafeRounds(w', h') && ServersOk(w, h) && ServersOk(w', h')
    requires Enters(w, h, s, x, max)
    requires Opens(w, h, w', h', s, x.currentRnd, AdoptedLog(x, max))
    requires max.accRnd in h.rlog && max.logIdx <= |h.rlog[max.accRnd]|
    requires h.rlog[max.accRnd][..max.logIdx] <= AdoptedLog(x, max)
    ensures SentOk(w', h', s, EnterAccept(s, x, max).out)
  {
    var out := EnterAccept(s, x, max).out;
    forall f | f in out ensures f < |w'.servers| && f != s && MsgOk(w', h', s, f, out[f][0]) {
      PromisersPromised(w, h, s, x);
      var n := x.currentRnd;
      var idx := SyncIdx(x.promises[f], max);
      var sfx := Suffix(AdoptedLog(x, max), idx);
      assert w'.servers[f].os.promised == n ==> SyncOk(h', w'.servers[f].os, n, sfx, idx) by {
        if w.servers[f].os.promised == n {
          assert ActorOk(w, h, f) && ActorOk(w', h', f);
          EnterSentTo(w, h, w', h', s, x, max, f);
        }
      }
      assert out[f][0] == AcceptSync(n, sfx, idx);
    }
  }

  // ---------- the flows ----------

  /** The first entries of the new round in the queue to `f`. */
  lemma FlowEnters(h': Hist, t: Server, y: Server, f: nat, q: seq<Msg>, m: Msg)
    requires t.os.promised in h'.rlog && t.os.promised in h'.base
    requires h'.base[t.os.promised] == h'.rlog[t.os.promised]
    requires t.os.accepted != t.os.promised && t.phase != Accepting && f in y.promises
    requires forall i :: 0 <= i < |q| ==> !IsStream(q[i], t.os.promised)
    requires m.AcceptSync? && m.n == t.os.promised && Position(m) == |h'.rlog[m.n]|
    ensures FlowParts(h', t, y, f, q + [m])
  {
    var n := t.os.promised;
    var k := StartMark(h', t);
    FlowQuiet(q, n, k);
    FlowConcat(q, [m], n, k);
    assert Last([m], n, Last(q, n, k)) == Mark(Position(m), true);
  }

  lemma NoStreamYet(w: World, h: Hist, s: nat, f: nat, n: Ballot)
    requires s < |w.servers| && f < |w.servers| && QueueOk(w, h, s, f) && n !in h.rlog
    ensures forall i :: 0 <= i < |w.net(s, f)| ==> !IsStream(w.net(s, f)[i], n)
  {
    forall i | 0 <= i < |w.net(s, f)| ensures !IsStream(w.net(s, f)[i], n) {
      assert MsgOk(w, h, s, f, w.net(s, f)[i]);
    }
  }

  /** The flow to a follower `t` of the acting leader, now in state `y`. */
  lemma EnterFlow(w: World, h: Hist, w': World, h': Hist, s: nat, n: Ballot, log: seq<Command>, f: nat, r: seq<Msg>)
    requires Opens(w, h, w', h', s, n, log) && h.base.Keys == h.rlog.Keys
    requires f < |w.servers| && f != s && w.servers[f].os.promised.pid == s
    requires FlowOk(w, h, f) && QueueOk(w, h, s, f)
    requires w.servers[f].os.accepted in h.rlog
    requires w.servers[f].phase == Accepting ==> w.servers[f].os.accepted == w.servers[f].os.promised
    requires w'.net(s, f) == w.net(s, f) + r
    requires r == [] || (&& |r| == 1 && r[0].AcceptSync? && r[0].n == n
                         && (w.servers[f].os.promised == n ==> Position(r[0]) == |log|)
                         && f in w'.servers[s].promises)
    ensures FlowOk(w', h', f)
  {
    var t := w.servers[f];
    var q := w.net(s, f);
    if t.os.promised != n {
      FlowKeeps(h, h', t, t, w.servers[s], w'.servers[s], f, q, r);
    } else {
      NoStreamYet(w, h, s, f, n);
      if r == [] {
        FlowStarts(h', t, w'.servers[s], f, q);
        assert q + r == q;
      } else {
        FlowEnters(h', t, w'.servers[s], f, q, r[0]);
        assert r == [r[0]];
      }
    }
  }

  lemma EnterFlows(w: World, h: Hist, w': World, h': Hist, src: nat, s: nat, x: Server, max: Promised)
    requires Inv(w, h) && s < |w.servers|
    requires Opens(w, h, w', h', s, x.currentRnd, AdoptedLog(x, max))
    requires src < |w.servers| && src != s && w.net(src, s) != []
    requires w' == CommitFrom(w, src, s, EnterAccept(s, x, max))
    requires Grows(w, h, w', h', s) && RoundsOk(w', h')
    requires SentOk(w', h', s, EnterAccept(s, x, max).out)
    ensures FlowsOk(w', h')
  {
    var out := EnterAccept(s, x, max).out;
    forall f | 0 <= f < |w'.servers| ensures FlowOk(w', h', f) {
      if f != s {
        assert FlowOk(w, h, f);
        if w.servers[f].os.promised.pid == s {
          var r := if f in out then out[f] else [];
          if f in out && w.servers[f].os.promised == x.currentRnd {
            assert MsgOk(w', h', s, f, r[0]);
          }
          assert ActorOk(w, h, f) && QueueOk(w, h, s, f);
          EnterFlow(w, h, w', h', s, x.currentRnd, AdoptedLog(x, max), f, r);
        } else {
          FlowBystander(w, h, w', h', s, f);
        }
      }
    }
  }

  lemma EnterRounds(w: World, h: Hist, w': World, h': Hist, s: nat, x: Server, max: Promised)
    requires |w.servers| % 2 == 1 && RoundsOk(w, h) && SafeRounds(w, h)
    requires Enters(w, h, s, x, max) && s < |w.servers| && StableOk(w, h, s)
    requires Opens(w, h, w', h', s, x.currentRnd, AdoptedLog(x, max)) && Lt(ZERO, x.currentRnd)
    ensures Grows(w, h, w', h', s) && RoundsOk(w', h') && SafeRounds(w', h')
  {
    var n, log := x.currentRnd, AdoptedLog(x, max);
    OpensGrows(w, h, w', h', s, n, log);
    EntersComplete(w, h, s, x, max);
    OpensSafe(w, h, w', h', s, n, log);
    EntersQuorum(w, h, s, x, max);
    OpensRounds(w, h, w', h', s, n, log, x.promises.Keys);
  }

  lemma NothingAcknowledged(w: World, h: Hist, s: nat)
    requires s < |w.servers| && RoleOk(w, h, s)
    requires w.servers[s].role == Leader && w.servers[s].phase == Preparing
    ensures var x := w.servers[s];
      && |x.acceptedIdx| == |w.servers| && (forall f :: 0 <= f < |x.acceptedIdx| ==> x.acceptedIdx[f] == 0)
      && x.os.l.pid == s && Lt(ZERO, x.currentRnd)
  {
    assert PreparingOk(w, h, s);
  }

  lemma EnterStable(w: World, h: Hist, w': World, h': Hist, s: nat, x: Server, max: Promised)
    requires RoundsOk(w, h) && SafeRounds(w, h)
    requires Enters(w, h, s, x, max) && s < |w.servers| && StableOk(w, h, s) && OutputOk(w.servers[s])
    requires Opens(w, h, w', h', s, x.currentRnd, AdoptedLog(x, max)) && Grows(w, h, w', h', s)
    requires w'.servers[s] == EnterAccept(s, x, max).s
    ensures StableOk(w', h', s) && OutputOk(w'.servers[s])
    ensures AdoptedOk(h', x.currentRnd, max)
    ensures max.accRnd in h.rlog && max.logIdx <= |h.rlog[max.accRnd]|
    ensures h.rlog[max.accRnd][..max.logIdx] <= AdoptedLog(x, max)
  {
    AdoptedExtends(w, h, s, x, max);
    OpensStable(w, h, w', h', s, x.currentRnd, AdoptedLog(x, max));
  }

  lemma EnterRole(w: World, h: Hist, w': World, h': Hist, s: nat, x: Server, max: Promised)
    requires Enters(w, h, s, x, max) && s < |w.servers| && RoleOk(w, h, s)
    requires Opens(w, h, w', h', s, x.currentRnd, AdoptedLog(x, max))
    requires w'.servers[s] == EnterAccept(s, x, max).s
    requires AdoptedOk(h', x.currentRnd, max)
    ensures RoleOk(w', h', s)
  {
    NothingAcknowledged(w, h, s);
    PromisersPromised(w, h, s, x);
    EnterLeading(w, h, w', h', s, x, max);
  }

  /** The whole step. */
  lemma EnterStep(w: World, h: Hist, src: nat, s: nat, x: Server, max: Promised) returns (h': Hist)
    requires Inv(w, h) && Enters(w, h, s, x, max)
    requires src < |w.servers| && src != s && w.net(src, s) != []
    ensures Inv(CommitFrom(w, src, s, EnterAccept(s, x, max)), h')
    ensures Extends(h, h')
  {
    var o := EnterAccept(s, x, max);
    var w' := CommitFrom(w, src, s, o);
    h' := NewRound(h, s, x.currentRnd, AdoptedLog(x, max));
    assert ActorOk(w, h, s);
    EntersOpens(w, h, w', s, x, max);
    EnterRounds(w, h, w', h', s, x, max);
    GrowsExtends(w, h, w', h', s);
    EnterStable(w, h, w', h', s, x, max);
    EnterRole(w, h, w', h', s, x, max);
    ServersStep(w, h, w', h', s);
    EnterSent(w, h, w', h', s, x, max);
    TakenNet(w, src, s, o);
    QueuesStep(w, h, w', h', s, SetQueue(w.net, src, s, w.net(src, s)[1..]), o.out);
    EnterFlows(w, h, w', h', src, s, x, max);
  }
}
