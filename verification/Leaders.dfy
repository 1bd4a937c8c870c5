/** The handlers a leader runs: promises, acknowledgements and proposals. */
module Leaders {
  import opened Ballots
  import opened Replica
  import opened Cluster
  import opened Invariant
  import opened Progress
  import opened Streams
  import opened Frame
  import opened Followers
  import opened Adoption
  import opened Entering

  // ---------- filing a promise ----------

  /** The promises of a preparing leader, the arriving one included. */
  lemma FilesPromise(w: World, h: Hist, src: nat, s: nat, m: Msg, x: Server)
    requires src < |w.servers| && s < |w.servers| && src != s && RoleOk(w, h, s)
    requires m.Promise? && MsgOk(w, h, src, s, m) && PreparingIn(w.servers[s], m.n)
    requires x == WithPromise(w.servers[s], src, Promised(m.accRnd, m.logIdx, m.decIdx, m.sfx))
    ensures Filed(w, h, s, x)
  {
    assert PreparingOk(w, h, s);
    forall f | f in x.promises ensures FiledOk(w, h, s, f, x.promises[f]) {
      if f != src {
        assert FiledOk(w, h, s, f, w.servers[s].promises[f]);
      }
    }
  }

  /** The promise is filed and nothing else happens. */
  lemma FiledRole(w: World, h: Hist, w': World, src: nat, s: nat, m: Msg, x: Server)
    requires src < |w.servers| && s < |w.servers| && src != s && RoleOk(w, h, s)
    requires m.Promise? && MsgOk(w, h, src, s, m) && m.n == w.servers[s].currentRnd
    requires x == WithPromise(w.servers[s], src, Promised(m.accRnd, m.logIdx, m.decIdx, m.sfx))
    requires x.role == Leader ==> x.phase == Preparing
    requires |w'.servers| == |w.servers| && w'.servers == w.servers[s := x] && Grows(w, h, w', h, s)
    ensures RoleOk(w', h, s)
  {
    if x.role == Leader {
      FilesPromise(w, h, src, s, m, x);
      forall f | f in x.promises ensures FiledOk(w', h, s, f, x.promises[f]) {
        FiledOkOther(w, h, w', h, s, s, f, x.promises[f]);
      }
    }
  }

  lemma FileStep(w: World, h: Hist, src: nat, s: nat, x: Server)
    requires Inv(w, h)
    requires src < |w.servers| && s < |w.servers| && src != s
    requires w.net(src, s) != [] && w.net(src, s)[0].Promise? && w.net(src, s)[0].n == w.servers[s].currentRnd
    requires var m := w.net(src, s)[0];
      x == WithPromise(w.servers[s], src, Promised(m.accRnd, m.logIdx, m.decIdx, m.sfx))
    requires x.role == Leader ==> x.phase == Preparing
    ensures Inv(CommitFrom(w, src, s, Outcome(x, map[])), h)
  {
    var o := Outcome(x, map[]);
    var w' := CommitFrom(w, src, s, o);
    HeadOk(w, h, src, s);
    assert ActorOk(w, h, s);
    SameStable(w, h, w', s);
    FiledRole(w, h, w', src, s, w.net(src, s)[0], x);
    TakeStep(w, h, h, src, s, o);
  }

  /** A step that leaves what is stored and what was output alone. */
  lemma SameStable(w: World, h: Hist, w': World, s: nat)
    requires s < |w.servers| == |w'.servers| && StableOk(w, h, s) && OutputOk(w.servers[s]) && RoundsOk(w, h)
    requires w'.servers == w.servers[s := w'.servers[s]]
    requires var x, y := w.servers[s], w'.servers[s];
      && y.os == x.os && y.disk == x.disk && y.applied == x.applied
      && (y.role == Leader && y.phase == Preparing ==> PreparingIn(x, y.currentRnd))
    ensures Grows(w, h, w', h, s) && VotesBounded(w', h, s)
    ensures StableOk(w', h, s) && OutputOk(w'.servers[s])
  {
    VotesKept(w, h, s);
    var os := w.servers[s].os;
    var r :| DecidedIn(|w.servers|, h, os, r);
    assert DecidedIn(|w'.servers|, h, os, r);
  }

  // ---------- a promise that arrives late ----------

  /** With the condition on late promises, the position the leader picks is one up to which the
      follower's log agrees with the leader's. */
  lemma LateSync(h: Hist, f: nat, os: Stable, n: Ballot, max: Promised, accRnd: Ballot, logIdx: nat, decIdx: nat)
    requires n in h.rlog && n in h.base && h.base[n] <= h.rlog[n]
    requires PromiseOk(h, f, os, n, accRnd, logIdx, decIdx) && os.promised == n && Leq(os.accepted, n)
    requires LogOk(h, f, os) && os.decided <= |os.log| && os.log[..os.decided] <= h.rlog[n]
    requires os.accepted != n ==> os.decided <= |h.base[n]|
    requires AdoptedOk(h, n, max)
    requires accRnd == max.accRnd && os.accepted == accRnd ==> max.logIdx <= logIdx
    ensures var idx := if accRnd == max.accRnd then max.logIdx else decIdx;
      SyncOk(h, os, n, Suffix(h.rlog[n], idx), idx)
  {
    if accRnd == max.accRnd {
      if os.accepted == accRnd {
        assert os.log[..max.logIdx] == h.rlog[accRnd][..max.logIdx];
      }
    } else {
      assert os.log[..decIdx] == os.log[..os.decided][..decIdx];
    }
  }

  lemma LateSyncSent(w: World, h: Hist, src: nat, s: nat, m: Msg)
    requires RoundsOk(w, h) && SafeRounds(w, h)
    requires src < |w.servers| && s < |w.servers| && src != s && StableOk(w, h, src)
    requires m.Promise? && LeadingIn(w.servers[s], m.n) && LeadingOk(w, h, s)
    requires MsgOk(w, h, src, s, m) && LateHarmless(w, src, s, m)
    ensures var idx := LateSyncIdx(w.servers[s], m.accRnd, m.decIdx);
      && Leq(m.n, w.servers[src].os.promised)
      && (w.servers[src].os.promised == m.n ==>
            SyncOk(h, w.servers[src].os, m.n, Suffix(w.servers[s].os.log, idx), idx))
  {
    var n := m.n;
    if w.servers[src].os.promised == n {
      assert RoundOk(w, h, n);
      DecidedUpTo(w, h, src, n);
      if w.servers[src].os.accepted != n {
        DecidedBelow(w, h, src, n);
      }
      LateSync(h, src, w.servers[src].os, n, w.servers[s].maxProm, m.accRnd, m.logIdx, m.decIdx);
    }
  }

  lemma LeaderChosen(w: World, h: Hist, s: nat)
    requires s < |w.servers| && StableOk(w, h, s) && RoleOk(w, h, s)
    requires w.servers[s].role == Leader && w.servers[s].phase == Accepting
    ensures ChosenUpTo(|w.servers|, h, w.servers[s].currentRnd, w.servers[s].os.decided)
  {
    var x := w.servers[s];
    assert LeadingOk(w, h, s);
    var r :| DecidedIn(|w.servers|, h, x.os, r);
    assert ChosenVia(|w.servers|, h, x.currentRnd, x.os.decided, r);
  }

  lemma LateSent(w: World, h: Hist, w': World, src: nat, s: nat, m: Msg, x: Server)
    requires RoundsOk(w, h) && SafeRounds(w, h) && |w'.servers| == |w.servers|
    requires src < |w.servers| && s < |w.servers| && src != s && StableOk(w, h, src) && ActorOk(w, h, s)
    requires m.Promise? && LeadingIn(w.servers[s], m.n)
    requires MsgOk(w, h, src, s, m) && LateHarmless(w, src, s, m)
    requires x == WithPromise(w.servers[s], src, Promised(m.accRnd, m.logIdx, m.decIdx, m.sfx))
    requires w'.servers == w.servers[s := LatePromise(x, src, m.accRnd, m.decIdx).s]
    ensures SentOk(w', h, s, LatePromise(x, src, m.accRnd, m.decIdx).out)
    ensures w.servers[src].os.promised == m.n ==>
      LateSyncIdx(x, m.accRnd, m.decIdx) <= |x.os.log| == |h.rlog[m.n]|
  {
    var out := LatePromise(x, src, m.accRnd, m.decIdx).out;
    assert LeadingOk(w, h, s);
    LateSyncSent(w, h, src, s, m);
    assert m.n in h.base by { assert RoundOk(w, h, m.n); }
    var idx := LateSyncIdx(x, m.accRnd, m.decIdx);
    assert MsgOk(w', h, s, src, AcceptSync(m.n, Suffix(x.os.log, idx), idx));
    LeaderChosen(w, h, s);
    assert MsgOk(w', h, s, src, Decide(m.n, x.os.decided));
    forall j | 0 <= j < |out[src]| ensures MsgOk(w', h, s, src, out[src][j]) {
      assert out[src][j] == if j == 0 then AcceptSync(m.n, Suffix(x.os.log, idx), idx) else Decide(m.n, x.os.decided);
    }
  }

  lemma LateFlow(w: World, h: Hist, w': World, src: nat, s: nat, m: Msg, x: Server, f: nat)
    requires RoundsOk(w, h) && Grows(w, h, w', h, s)
    requires src < |w.servers| && src != s && f < |w.servers| && f != s && FlowOk(w, h, f)
    requires m.Promise? && LeadingIn(w.servers[s], m.n) && m.n in h.rlog
    requires x == WithPromise(w.servers[s], src, Promised(m.accRnd, m.logIdx, m.decIdx, m.sfx))
    requires w'.servers[s] == LatePromise(x, src, m.accRnd, m.decIdx).s
    requires w.servers[f].os.promised.pid == s
    requires w'.net(s, f) == w.net(s, f) + if f == src then LatePromise(x, src, m.accRnd, m.decIdx).out[src] else []
    requires w.servers[src].os.promised == m.n ==>
      LateSyncIdx(x, m.accRnd, m.decIdx) <= |x.os.log| == |h.rlog[m.n]|
    ensures FlowOk(w', h, f)
  {
    var t := w.servers[f];
    var o := LatePromise(x, src, m.accRnd, m.decIdx);
    if f == src && t.os.promised == m.n {
      FlowAppends(h, h, t, w.servers[s], o.s, f, w.net(s, f), o.out[src][0], o.out[src][1..]);
      assert o.out[src] == [o.out[src][0]] + o.out[src][1..];
    } else {
      FlowKeeps(h, h, t, t, w.servers[s], o.s, f, w.net(s, f), if f == src then o.out[src] else []);
    }
  }

  lemma LateRole(w: World, h: Hist, w': World, src: nat, s: nat, m: Msg, x: Server)
    requires src < |w.servers| && s < |w.servers| && src != s && RoleOk(w, h, s)
    requires m.Promise? && LeadingIn(w.servers[s], m.n) && MsgOk(w, h, src, s, m)
    requires x == WithPromise(w.servers[s], src, Promised(m.accRnd, m.logIdx, m.decIdx, m.sfx))
    requires |w'.servers| == |w.servers| && w'.servers == w.servers[s := Persist(x)]
    ensures RoleOk(w', h, s)
  {
    assert LeadingOk(w, h, s);
    assert LeadingOk(w', h, s);
  }

  lemma LateStep(w: World, h: Hist, src: nat, s: nat, x: Server)
    requires Inv(w, h)
    requires src < |w.servers| && s < |w.servers| && src != s
    requires w.net(src, s) != [] && w.net(src, s)[0].Promise? && LeadingIn(w.servers[s], w.net(src, s)[0].n)
    requires LateHarmless(w, src, s, w.net(src, s)[0])
    requires var m := w.net(src, s)[0];
      x == WithPromise(w.servers[s], src, Promised(m.accRnd, m.logIdx, m.decIdx, m.sfx))
    ensures var m := w.net(src, s)[0];
      Inv(CommitFrom(w, src, s, LatePromise(x, src, m.accRnd, m.decIdx)), h)
  {
    var m := w.net(src, s)[0];
    var o := LatePromise(x, src, m.accRnd, m.decIdx);
    var w' := CommitFrom(w, src, s, o);
    HeadOk(w, h, src, s);
    assert ActorOk(w, h, s) && ActorOk(w, h, src);
    SameStable(w, h, w', s);
    LateRole(w, h, w', src, s, m, x);
    ServersStep(w, h, w', h, s);
    LateSent(w, h, w', src, s, m, x);
    TakenNet(w, src, s, o);
    QueuesStep(w, h, w', h, s, SetQueue(w.net, src, s, w.net(src, s)[1..]), o.out);
    RoundsStep(w, h, w', h, s);
    SafeStep(w, h, w', h, s);
    LateFlows(w, h, src, s, x);
  }

  lemma LateFlows(w: World, h: Hist, src: nat, s: nat, x: Server)
    requires FlowsOk(w, h) && RoundsOk(w, h)
    requires src < |w.servers| && s < |w.servers| && src != s
    requires w.net(src, s) != [] && w.net(src, s)[0].Promise? && LeadingIn(w.servers[s], w.net(src, s)[0].n)
    requires RoleOk(w, h, s)
    requires var m := w.net(src, s)[0];
      && x == WithPromise(w.servers[s], src, Promised(m.accRnd, m.logIdx, m.decIdx, m.sfx))
      && Grows(w, h, CommitFrom(w, src, s, LatePromise(x, src, m.accRnd, m.decIdx)), h, s)
      && (w.servers[src].os.promised == m.n ==>
            LateSyncIdx(x, m.accRnd, m.decIdx) <= |x.os.log| == if m.n in h.rlog then |h.rlog[m.n]| else 0)
    ensures var m := w.net(src, s)[0];
      FlowsOk(CommitFrom(w, src, s, LatePromise(x, src, m.accRnd, m.decIdx)), h)
  {
    var m := w.net(src, s)[0];
    var w' := CommitFrom(w, src, s, LatePromise(x, src, m.accRnd, m.decIdx));
    assert LeadingOk(w, h, s);
    forall f | 0 <= f < |w'.servers| ensures FlowOk(w', h, f) {
      if f != s {
        assert FlowOk(w, h, f);
        if w.servers[f].os.promised.pid == s {
          LateFlow(w, h, w', src, s, m, x, f);
        } else {
          FlowBystander(w, h, w', h, s, f);
        }
      }
    }
  }

  /** A late promise that is not harmless would be answered with a piece that starts beyond the
      end of the follower's log. */
  lemma LateLeavesGap(w: World, h: Hist, src: nat, s: nat, m: Msg)
    requires src < |w.servers| && s < |w.servers| && src != s && StableOk(w, h, src) && ActorOk(w, h, s)
    requires m.Promise? && LeadingIn(w.servers[s], m.n) && MsgOk(w, h, src, s, m) && !LateHarmless(w, src, s, m)
    ensures w.servers[src].os.promised == m.n
    ensures |w.servers[src].os.log| < LateSyncIdx(w.servers[s], m.accRnd, m.decIdx) <= |w.servers[s].os.log|
  {
    assert LeadingOk(w, h, s);
    assert AdoptedOk(h, m.n, w.servers[s].maxProm);
    assert PromiseOk(h, src, w.servers[src].os, m.n, m.accRnd, m.logIdx, m.decIdx);
  }

  /** The condition on late promises is exact: answering one keeps the invariant if and only if
      the promise fits, or its sender has left the round or accepted in it since. */
  lemma LatePromiseIff(w: World, h: Hist, src: nat, s: nat, x: Server)
    requires Inv(w, h)
    requires src < |w.servers| && s < |w.servers| && src != s
    requires w.net(src, s) != [] && w.net(src, s)[0].Promise? && LeadingIn(w.servers[s], w.net(src, s)[0].n)
    requires var m := w.net(src, s)[0];
      x == WithPromise(w.servers[s], src, Promised(m.accRnd, m.logIdx, m.decIdx, m.sfx))
    ensures var m := w.net(src, s)[0];
      Inv(CommitFrom(w, src, s, LatePromise(x, src, m.accRnd, m.decIdx)), h) <==> LateHarmless(w, src, s, m)
  {
    var m := w.net(src, s)[0];
    if LateHarmless(w, src, s, m) {
      LateStep(w, h, src, s, x);
    } else {
      HeadOk(w, h, src, s);
      assert ActorOk(w, h, s) && ActorOk(w, h, src);
      LateLeavesGap(w, h, src, s, m);
      GapBreaks(w, h, src, s, x, m);
    }
  }

  lemma GapBreaks(w: World, h: Hist, src: nat, s: nat, x: Server, m: Msg)
    requires src < |w.servers| && s < |w.servers| && src != s && w.net(src, s) != []
    requires m.Promise? && m.n == x.currentRnd && x.maxProm == w.servers[s].maxProm
    requires w.servers[src].os.promised == m.n
    requires |w.servers[src].os.log| < LateSyncIdx(x, m.accRnd, m.decIdx)
    ensures !QueuesOk(CommitFrom(w, src, s, LatePromise(x, src, m.accRnd, m.decIdx)), h)
  {
    var o := LatePromise(x, src, m.accRnd, m.decIdx);
    var w' := CommitFrom(w, src, s, o);
    var k := |w.net(s, src)|;
    assert w'.net(s, src) == w.net(s, src) + o.out[src];
    assert w'.net(s, src)[k] == o.out[src][0];
    assert !MsgOk(w', h, s, src, w'.net(s, src)[k]);
    assert !QueueOk(w', h, s, src);
  }

  // ---------- Promise ----------

  lemma PromiseStep(w: World, h: Hist, src: nat, s: nat, max: Promised) returns (h': Hist)
    requires Inv(w, h) && Enabled(w, Deliver(src, s, max))
    requires w.net(src, s)[0].Promise? && LateHarmless(w, src, s, w.net(src, s)[0])
    ensures var m := w.net(src, s)[0];
      Inv(CommitFrom(w, src, s,
            OnPromise(s, |w.servers|, w.servers[s], src, m.n, Promised(m.accRnd, m.logIdx, m.decIdx, m.sfx), max)), h')
    ensures Extends(h, h')
  {
    h' := h;
    var m := w.net(src, s)[0];
    var x := WithPromise(w.servers[s], src, Promised(m.accRnd, m.logIdx, m.decIdx, m.sfx));
    assert ActorOk(w, h, s);
    if m.n != w.servers[s].currentRnd {
      IgnoreStep(w, h, src, s);
    } else if x.role == Leader && x.phase == Accepting {
      LateStep(w, h, src, s, x);
    } else if x.role == Leader && |x.promises| >= Threshold(|w.servers|) {
      HeadOk(w, h, src, s);
      FilesPromise(w, h, src, s, m, x);
      h' := EnterStep(w, h, src, s, x, max);
    } else {
      FileStep(w, h, src, s, x);
    }
  }
}
