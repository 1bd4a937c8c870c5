/** A leader appends proposals, counts acknowledgements and decides. */
module Proposals {
  import opened Ballots
  import opened Replica
  import opened Cluster
  import opened Invariant
  import opened Progress
  import opened Streams
  import opened Frame
  import opened Followers
  import opened Quorums
  import opened Leaders

  // ---------- Accepted ----------

  /** Enough acknowledgements mean that a quorum accepted that many entries. */
  lemma CountedIsChosen(size: nat, h: Hist, n: Ballot, a: seq<nat>, v: nat)
    requires |a| == size && CountAtLeast(a, v) >= Threshold(size)
    requires forall f :: 0 <= f < |a| ==> a[f] <= h.votes(f, n)
    ensures Chosen(size, h, n, v)
  {
    var q := Reaching(a, v);
    assert IsQuorum(size, q) && AllVoted(h, q, n, v);
  }

  /** A leader whose acknowledgements, decided index or output changed still leads. */
  lemma StillLeads(w: World, h: Hist, w': World, s: nat)
    requires s < |w.servers| == |w'.servers| && RoleOk(w, h, s)
    requires w.servers[s].role == Leader && w.servers[s].phase == Accepting
    requires w'.servers == w.servers[s := w'.servers[s]]
    requires var x, y := w.servers[s], w'.servers[s];
      && y.role == Leader && y.phase == Accepting && y.currentRnd == x.currentRnd
      && y.os == x.os.(decided := y.os.decided)
      && y.promises == x.promises && y.maxProm == x.maxProm
      && |y.acceptedIdx| == |w.servers|
      && forall f :: 0 <= f < |y.acceptedIdx| ==> y.acceptedIdx[f] <= h.votes(f, x.currentRnd)
    ensures RoleOk(w', h, s)
  {
    assert LeadingOk(w, h, s);
    assert LeadingOk(w', h, s);
  }

  /** An acknowledgement that decides entries. */
  lemma AcceptedDecides(w: World, h: Hist, w': World, src: nat, s: nat, m: Msg)
    requires |w.servers| == |w'.servers| && src < |w.servers| && s < |w.servers| && src != s
    requires RoundsOk(w, h) && ActorOk(w, h, s)
    requires m.Accepted? && MsgOk(w, h, src, s, m) && LeadingIn(w.servers[s], m.n)
    requires w'.servers == w.servers[s := OnAccepted(s, |w.servers|, w.servers[s], src, m.n, m.logIdx).s]
    requires w'.servers[s].os.decided != w.servers[s].os.decided
    ensures StableOk(w', h, s) && OutputOk(w'.servers[s]) && Grows(w, h, w', h, s) && VotesBounded(w', h, s)
    ensures ChosenUpTo(|w.servers|, h, m.n, m.logIdx)
  {
    assert LeadingOk(w, h, s);
    assert RoundOk(w, h, m.n);
    CountedIsChosen(|w.servers|, h, m.n, w'.servers[s].acceptedIdx, m.logIdx);
    assert ChosenVia(|w.servers|, h, m.n, m.logIdx, m.n);
    AdvanceStable(w, h, w', s, SetAt(w.servers[s].acceptedIdx, src, m.logIdx), m.logIdx);
  }

  /** What an acknowledgement makes of the leader's state. */
  lemma AcceptedActor(w: World, h: Hist, w': World, src: nat, s: nat, m: Msg)
    requires |w.servers| == |w'.servers| && src < |w.servers| && s < |w.servers| && src != s
    requires RoundsOk(w, h) && ActorOk(w, h, s)
    requires m.Accepted? && MsgOk(w, h, src, s, m) && LeadingIn(w.servers[s], m.n)
    requires w'.servers == w.servers[s := OnAccepted(s, |w.servers|, w.servers[s], src, m.n, m.logIdx).s]
    ensures ActorOk(w', h, s) && Grows(w, h, w', h, s) && VotesBounded(w', h, s)
    ensures w'.servers[s].os.decided != w.servers[s].os.decided ==>
      ChosenUpTo(|w.servers|, h, m.n, m.logIdx)
  {
    assert LeadingOk(w, h, s);
    StillLeads(w, h, w', s);
    if w'.servers[s].os.decided == w.servers[s].os.decided {
      SameStable(w, h, w', s);
    } else {
      AcceptedDecides(w, h, w', src, s, m);
    }
  }

  lemma AdvanceStable(w: World, h: Hist, w': World, s: nat, a: seq<nat>, d: nat)
    requires s < |w.servers| == |w'.servers| && StableOk(w, h, s) && OutputOk(w.servers[s]) && RoundsOk(w, h)
    requires w'.servers == w.servers[s := AdvanceDecided(w.servers[s].(acceptedIdx := a), d)]
    requires w.servers[s].os.decided <= d <= |w.servers[s].os.log|
    requires w.servers[s].phase == Accepting && w.servers[s].os.accepted == w.servers[s].os.promised
    requires ChosenUpTo(|w.servers|, h, w.servers[s].os.accepted, d)
    ensures Grows(w, h, w', h, s) && VotesBounded(w', h, s)
    ensures StableOk(w', h, s) && OutputOk(w'.servers[s])
  {
    VotesKept(w, h, s);
    assert OwnerMoved(w', w.servers[s].os.promised);
    DecideOk(w, h, w', s, a, d);
  }

  lemma AcceptedSent(w: World, h: Hist, w': World, src: nat, s: nat, m: Msg, o: Outcome)
    requires s < |w.servers| == |w'.servers| && m.Accepted?
    requires o == OnAccepted(s, |w.servers|, w.servers[s], src, m.n, m.logIdx)
    requires LeadingIn(w.servers[s], m.n) && LeadingOk(w, h, s)
    requires o.s.os.decided != w.servers[s].os.decided ==> ChosenUpTo(|w.servers|, h, m.n, m.logIdx)
    ensures SentOk(w', h, s, o.out) && NoStreamSent(o.out)
  {
    forall f | f in o.out
      ensures f < |w'.servers| && f != s && |o.out[f]| == 1 && o.out[f][0].Decide? && MsgOk(w', h, s, f, o.out[f][0])
    {
    }
  }

  lemma AcceptedStep(w: World, h: Hist, src: nat, s: nat)
    requires Inv(w, h)
    requires src < |w.servers| && s < |w.servers| && src != s
    requires w.net(src, s) != [] && w.net(src, s)[0].Accepted?
    ensures var m := w.net(src, s)[0];
      Inv(CommitFrom(w, src, s, OnAccepted(s, |w.servers|, w.servers[s], src, m.n, m.logIdx)), h)
  {
    var m := w.net(src, s)[0];
    var x := w.servers[s];
    var o := OnAccepted(s, |w.servers|, x, src, m.n, m.logIdx);
    var w' := CommitFrom(w, src, s, o);
    HeadOk(w, h, src, s);
    assert ActorOk(w, h, s);
    if x.os.promised != m.n || !(x.role == Leader && x.phase == Accepting) {
      IgnoreStep(w, h, src, s);
    } else {
      AcceptedActor(w, h, w', src, s, m);
      assert LeadingOk(w, h, s);
      AcceptedSent(w, h, w', src, s, m, o);
      TakeStep(w, h, h, src, s, o);
    }
  }

  // ---------- Propose ----------

  /** A step of `s` that takes no message and sends no entries. */
  lemma PostStep(w: World, h: Hist, s: nat, o: Outcome)
    requires Inv(w, h) && s < |w.servers|
    requires var w' := Commit(w, s, o);
      && Grows(w, h, w', h, s) && VotesBounded(w', h, s)
      && SentOk(w', h, s, o.out) && ActorOk(w', h, s)
    requires NoStreamSent(o.out) && KeepsLeading(w.servers[s], o.s)
    requires o.s.os.promised == w.servers[s].os.promised
    requires w.servers[s].os.promised in h.base ==> Weaker(StartMark(h, w.servers[s]), StartMark(h, o.s))
    ensures Inv(Commit(w, s, o), h)
  {
    var w' := Commit(w, s, o);
    assert FlowOk(w, h, s);
    ActorFlowKeeps(w, h, w', h, s);
    QuietStep(w, h, w', h, s, w.net, o.out);
  }

  /** Round `n` of server `s` grew to `log`. */
  function Extended(h: Hist, s: nat, n: Ballot, log: seq<Command>): Hist {
    Hist(h.rlog[n := log], h.base, Vote(h, s, n, |log|).votes)
  }

  /** The step in which leader `s` appends `c`. */
  ghost predicate Appends(w: World, h: Hist, w': World, h': Hist, s: nat, c: Command) {
    && s < |w.servers| == |w'.servers|
    && (forall t :: 0 <= t < |w.servers| && t != s ==> w'.servers[t] == w.servers[t])
    && var x := w.servers[s];
    && x.role == Leader && x.phase == Accepting
    && x.currentRnd == x.os.promised == x.os.accepted && x.currentRnd.pid == s
    && x.currentRnd in h.rlog && x.currentRnd in h.base && h.rlog[x.currentRnd] == x.os.log
    && h.base[x.currentRnd] <= x.os.log && h.votes(s, x.currentRnd) == |x.os.log|
    && w'.servers[s] == OnPropose(s, x, c).s
    && h' == Extended(h, s, x.currentRnd, x.os.log + [c])
  }

  lemma AppendsGrows(w: World, h: Hist, w': World, h': Hist, s: nat, c: Command)
    requires Appends(w, h, w', h', s, c)
    ensures Grows(w, h, w', h', s) && VotesBounded(w', h', s)
    ensures h'.rlog.Keys == h.rlog.Keys && h'.base == h.base
  {
  }

  /** What was decided is decided in the longer log. */
  lemma AppendsDecided(w: World, h: Hist, w': World, h': Hist, s: nat, c: Command)
    requires Appends(w, h, w', h', s, c) && HistGrows(h, h', s, w.servers[s].currentRnd) && StableOk(w, h, s)
    ensures exists r :: DecidedIn(|w'.servers|, h', w'.servers[s].os, r)
  {
    var x, y := w.servers[s], w'.servers[s];
    assert y.os.log[..x.os.decided] == x.os.log[..x.os.decided];
    var r :| DecidedIn(|w.servers|, h, x.os, r);
    ChosenGrows(|w.servers|, h, h', s, x.currentRnd, r, x.os.decided);
    assert h.rlog[r] <= h'.rlog[r];
    assert DecidedIn(|w'.servers|, h', y.os, r);
  }

  lemma AppendsLog(w: World, h: Hist, w': World, h': Hist, s: nat, c: Command)
    requires Appends(w, h, w', h', s, c) && StableOk(w, h, s)
    ensures LogOk(h', s, w'.servers[s].os) && OwnerMoved(w', w'.servers[s].os.promised)
  {
  }

  lemma AppendsStable(w: World, h: Hist, w': World, h': Hist, s: nat, c: Command)
    requires Appends(w, h, w', h', s, c) && Grows(w, h, w', h', s)
    requires StableOk(w, h, s) && OutputOk(w.servers[s])
    ensures StableOk(w', h', s) && OutputOk(w'.servers[s])
  {
    AppendsDecided(w, h, w', h', s, c);
    AppendsLog(w, h, w', h', s, c);
    EntriesPrefix(w.servers[s].os.log, w'.servers[s].os.log, w.servers[s].os.decided);
  }

  lemma AppendsRole(w: World, h: Hist, w': World, h': Hist, s: nat, c: Command)
    requires Appends(w, h, w', h', s, c) && Grows(w, h, w', h', s) && RoleOk(w, h, s)
    ensures RoleOk(w', h', s)
  {
    var x := w.servers[s];
    assert LeadingOk(w, h, s);
    AdoptedOkGrows(h, h', s, x.currentRnd, x.currentRnd, x.maxProm);
    assert LeadingOk(w', h', s);
  }

  lemma AppendsSent(w: World, h: Hist, w': World, h': Hist, s: nat, c: Command)
    requires Appends(w, h, w', h', s, c) && LeadingOk(w, h, s)
    ensures SentOk(w', h', s, OnPropose(s, w.servers[s], c).out)
  {
    var out := OnPropose(s, w.servers[s], c).out;
    forall f | f in out ensures f < |w'.servers| && f != s && MsgOk(w', h', s, f, out[f][0]) {
    }
  }

  /** A follower that the leader has not served yet does not notice the longer round. */
  lemma FlowUnserved(h: Hist, h': Hist, t: Server, l: Server, l': Server, f: nat, q: seq<Msg>)
    requires FlowParts(h, t, l, f, q)
    requires t.os.promised in h.rlog && t.os.promised in h.base
    requires t.os.promised in h'.rlog && t.os.promised in h'.base
    requires h'.base[t.os.promised] == h.base[t.os.promised]
    requires |h.rlog[t.os.promised]| <= |h'.rlog[t.os.promised]|
    requires LeadingIn(l, t.os.promised) && f !in l.promises
    ensures FlowParts(h', t, l', f, q)
  {
  }

  lemma AppendsFlow(w: World, h: Hist, w': World, h': Hist, s: nat, c: Command, f: nat)
    requires Appends(w, h, w', h', s, c) && h.base.Keys == h.rlog.Keys
    requires f < |w.servers| && f != s && w.servers[f].os.promised.pid == s && FlowOk(w, h, f)
    requires var out := OnPropose(s, w.servers[s], c).out;
      w'.net(s, f) == w.net(s, f) + if f in out then out[f] else []
    ensures FlowOk(w', h', f)
  {
    var t, x, y := w.servers[f], w.servers[s], w'.servers[s];
    var q := w.net(s, f);
    if t.os.promised != x.currentRnd {
      FlowKeeps(h, h', t, t, x, y, f, q, if f in x.promises then [Accept(x.currentRnd, |y.os.log|, c)] else []);
    } else if f in x.promises {
      FlowAppends(h, h', t, x, y, f, q, Accept(x.currentRnd, |y.os.log|, c), []);
      assert [Accept(x.currentRnd, |y.os.log|, c)] + [] == [Accept(x.currentRnd, |y.os.log|, c)];
    } else {
      FlowUnserved(h, h', t, x, y, f, q);
      assert q + [] == q;
    }
  }

  lemma AppendsFlows(w: World, h: Hist, w': World, h': Hist, s: nat, c: Command)
    requires Appends(w, h, w', h', s, c) && RoundsOk(w, h) && FlowsOk(w, h) && Grows(w, h, w', h', s)
    requires h'.base.Keys == h'.rlog.Keys
    requires w'.net == Post(w.net, s, OnPropose(s, w.servers[s], c).out)
    ensures FlowsOk(w', h')
  {
    forall f | 0 <= f < |w'.servers| ensures FlowOk(w', h', f) {
      if f != s {
        assert FlowOk(w, h, f);
        if w.servers[f].os.promised.pid == s {
          AppendsFlow(w, h, w', h', s, c, f);
        } else {
          FlowBystander(w, h, w', h', s, f);
        }
      }
    }
  }

  lemma AppendStep(w: World, h: Hist, s: nat, c: Command) returns (h': Hist)
    requires Inv(w, h) && s < |w.servers|
    requires w.servers[s].role == Leader && w.servers[s].phase == Accepting
    ensures Inv(Commit(w, s, OnPropose(s, w.servers[s], c)), h')
    ensures Extends(h, h')
  {
    var o := OnPropose(s, w.servers[s], c);
    var w' := Commit(w, s, o);
    h' := Extended(h, s, w.servers[s].currentRnd, o.s.os.log);
    assert ActorOk(w, h, s);
    assert LeadingOk(w, h, s);
    assert RoundOk(w, h, w.servers[s].currentRnd);
    AppendsGrows(w, h, w', h', s, c);
    GrowsExtends(w, h, w', h', s);
    AppendsStable(w, h, w', h', s, c);
    AppendsRole(w, h, w', h', s, c);
    ServersStep(w, h, w', h', s);
    RoundsStep(w, h, w', h', s);
    SafeStep(w, h, w', h', s);
    AppendsSent(w, h, w', h', s, c);
    QueuesStep(w, h, w', h', s, w.net, o.out);
    AppendsFlows(w, h, w', h', s, c);
  }

  /** A leader's buffer is no concern of the invariant; nor is a server that is no leader. */
  lemma BufferStep(w: World, h: Hist, s: nat, c: Command)
    requires Inv(w, h) && s < |w.servers|
    requires !(w.servers[s].role == Leader && w.servers[s].phase == Accepting)
    ensures Inv(Commit(w, s, OnPropose(s, w.servers[s], c)), h)
  {
    var o := OnPropose(s, w.servers[s], c);
    var w' := Commit(w, s, o);
    assert ActorOk(w, h, s);
    SameStable(w, h, w', s);
    StillPrepares(w, h, w', s);
    PostStep(w, h, s, o);
  }

  /** A server that is not in its accept phase as leader, unchanged but for fields that only
      matter in that phase. */
  lemma StillPrepares(w: World, h: Hist, w': World, s: nat)
    requires s < |w.servers| && RoleOk(w, h, s) && Grows(w, h, w', h, s)
    requires var x, y := w.servers[s], w'.servers[s];
      && y.os == x.os && y.role == x.role && y.phase == x.phase
      && y.currentRnd == x.currentRnd && y.promises == x.promises && y.acceptedIdx == x.acceptedIdx
    requires !(w.servers[s].role == Leader && w.servers[s].phase == Accepting)
    ensures RoleOk(w', h, s)
  {
    var x := w.servers[s];
    if x.role == Leader {
      assert PreparingOk(w, h, s);
      forall f | f in x.promises ensures FiledOk(w', h, s, f, x.promises[f]) {
        assert FiledOk(w, h, s, f, x.promises[f]);
        FiledOkOther(w, h, w', h, s, s, f, x.promises[f]);
      }
      assert PreparingOk(w', h, s);
    }
  }

  lemma ProposeStep(w: World, h: Hist, s: nat, c: Command) returns (h': Hist)
    requires Inv(w, h) && s < |w.servers|
    ensures Inv(Commit(w, s, OnPropose(s, w.servers[s], c)), h')
    ensures Extends(h, h')
  {
    if w.servers[s].role == Leader && w.servers[s].phase == Accepting {
      h' := AppendStep(w, h, s, c);
    } else {
      h' := h;
      BufferStep(w, h, s, c);
    }
  }
}
