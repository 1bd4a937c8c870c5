/** Elections, restarts, reconnections and lost sessions. */
module Recovery {
  import opened Ballots
  import opened Replica
  import opened Cluster
  import opened Invariant
  import opened Progress
  import opened Streams
  import opened Frame
  import opened Followers
  import opened Leaders
  import opened Proposals

  // ---------- PrepareReq and Reconnected ----------

  lemma PrepareOffer(w: World, h: Hist, w': World, s: nat, f: nat)
    requires w'.servers == w.servers && s < |w.servers| && f < |w.servers| && f != s && ActorOk(w, h, s)
    requires w.servers[s].role == Leader
    ensures var x := w.servers[s];
      MsgOk(w', h, s, f, Prepare(x.currentRnd, x.os.accepted, |x.os.log|, x.os.decided))
  {
  }

  lemma PrepareReqStep(w: World, h: Hist, src: nat, s: nat)
    requires Inv(w, h)
    requires src < |w.servers| && s < |w.servers| && src != s
    requires w.net(src, s) != [] && w.net(src, s)[0].PrepareReq?
    ensures Inv(CommitFrom(w, src, s, OnPrepareReq(w.servers[s], src)), h)
  {
    var o := OnPrepareReq(w.servers[s], src);
    var w' := CommitFrom(w, src, s, o);
    assert ActorOk(w, h, s);
    if w.servers[s].role != Leader {
      IgnoreStep(w, h, src, s);
    } else {
      assert w'.servers == w.servers;
      VotesKept(w, h, s);
      SameServers(w, w', h, s);
      PrepareOffer(w, h, w', s, src);
      TakeStep(w, h, h, src, s, o);
    }
  }

  /** The server that takes a `Reconnected` stays in order, and what it sends is in order. */
  lemma ReconnectedActor(w: World, h: Hist, src: nat, s: nat)
    requires Inv(w, h)
    requires src < |w.servers| && s < |w.servers| && src != s
    requires w.net(src, s) != [] && w.net(src, s)[0].Reconnected?
    ensures var o := OnReconnected(w.servers[s], src);
      var w' := CommitFrom(w, src, s, o);
      && Grows(w, h, w', h, s) && VotesBounded(w', h, s) && ActorOk(w', h, s) && SentOk(w', h, s, o.out)
  {
    var x := w.servers[s];
    var o := OnReconnected(x, src);
    var w' := CommitFrom(w, src, s, o);
    assert ActorOk(w, h, s);
    VotesKept(w, h, s);
    if src == x.os.l.pid {
      SameStable(w, h, w', s);
    } else {
      assert w'.servers == w.servers;
      SameServers(w, w', h, s);
    }
    assert MsgOk(w', h, s, src, o.out[src][0]);
  }

  /** A heeded notice, or one that does not come from the leader a follower accepts from. */
  lemma NoticedStep(w: World, h: Hist, src: nat, s: nat)
    requires Inv(w, h)
    requires src < |w.servers| && s < |w.servers| && src != s
    requires w.net(src, s) != [] && w.net(src, s)[0].Reconnected?
    requires ReconnectNoticed(w.servers[s], src)
    ensures Inv(CommitFrom(w, src, s, OnReconnected(w.servers[s], src)), h)
  {
    assert ActorOk(w, h, s);
    ReconnectedActor(w, h, src, s);
    TakeStep(w, h, h, src, s, OnReconnected(w.servers[s], src));
  }

  /** Behind a notice that a follower does not heed, the flow to it goes on exactly if it
      resumes in place. */
  lemma UnheededFlow(w: World, h: Hist, src: nat, s: nat)
    requires Inv(w, h)
    requires src < |w.servers| && s < |w.servers| && src != s
    requires w.net(src, s) != [] && w.net(src, s)[0].Reconnected?
    requires !ReconnectNoticed(w.servers[s], src)
    ensures FlowOk(CommitFrom(w, src, s, OnReconnected(w.servers[s], src)), h, s) <==>
            ResumesInPlace(w.servers[s], w.servers[src], s, w.net(src, s)[1..])
  {
    var x, l := w.servers[s], w.servers[src];
    var n := x.os.promised;
    var q, k := w.net(src, s)[1..], Mark(|x.os.log|, true);
    assert ActorOk(w, h, s) && ActorOk(w, h, src);
    assert RoundOk(w, h, n);
    assert StartMark(h, x) == k;
    QueueBounded(w, h, src, s);
    LastBounded(q, n, k, |h.rlog[n]|);
    assert LeadingIn(l, n) ==> LeadingOk(w, h, src);
    TakenNet(w, src, s, OnReconnected(x, src));
  }

  /** No entry in a queue points past the log of its round. */
  lemma QueueBounded(w: World, h: Hist, src: nat, s: nat)
    requires QueuesOk(w, h) && src < |w.servers| && s < |w.servers| && src != s
    requires w.net(src, s) != [] && w.servers[s].os.promised in h.rlog
    ensures var q, n := w.net(src, s)[1..], w.servers[s].os.promised;
      forall i :: 0 <= i < |q| && IsStream(q[i], n) ==> Position(q[i]) <= |h.rlog[n]|
  {
    var q, n := w.net(src, s)[1..], w.servers[s].os.promised;
    assert QueueOk(w, h, src, s);
    forall i | 0 <= i < |q| && IsStream(q[i], n) ensures Position(q[i]) <= |h.rlog[n]| {
      assert q[i] == w.net(src, s)[i + 1];
      assert MsgOk(w, h, src, s, w.net(src, s)[i + 1]);
    }
  }

  lemma ResumedStep(w: World, h: Hist, src: nat, s: nat)
    requires Inv(w, h)
    requires src < |w.servers| && s < |w.servers| && src != s
    requires w.net(src, s) != [] && w.net(src, s)[0].Reconnected?
    requires FlowOk(CommitFrom(w, src, s, OnReconnected(w.servers[s], src)), h, s)
    ensures Inv(CommitFrom(w, src, s, OnReconnected(w.servers[s], src)), h)
  {
    var o := OnReconnected(w.servers[s], src);
    ReconnectedActor(w, h, src, s);
    TakenNet(w, src, s, o);
    QuietStep(w, h, CommitFrom(w, src, s, o), h, s, SetQueue(w.net, src, s, w.net(src, s)[1..]), o.out);
  }

  /** The condition on reconnections is exact: taking a `Reconnected` keeps the invariant if
      and only if the notice is heeded or nothing was lost. */
  lemma ReconnectedIff(w: World, h: Hist, src: nat, s: nat)
    requires Inv(w, h)
    requires src < |w.servers| && s < |w.servers| && src != s
    requires w.net(src, s) != [] && w.net(src, s)[0].Reconnected?
    ensures Inv(CommitFrom(w, src, s, OnReconnected(w.servers[s], src)), h) <==> ReconnectHarmless(w, src, s)
    ensures FlowOk(CommitFrom(w, src, s, OnReconnected(w.servers[s], src)), h, s) <==> ReconnectHarmless(w, src, s)
  {
    var w' := CommitFrom(w, src, s, OnReconnected(w.servers[s], src));
    if ReconnectNoticed(w.servers[s], src) {
      NoticedStep(w, h, src, s);
      assert FlowOk(w', h, s);
    } else {
      UnheededFlow(w, h, src, s);
      if FlowOk(w', h, s) {
        ResumedStep(w, h, src, s);
      }
    }
  }

  lemma ReconnectedStep(w: World, h: Hist, src: nat, s: nat)
    requires Inv(w, h)
    requires src < |w.servers| && s < |w.servers| && src != s
    requires w.net(src, s) != [] && w.net(src, s)[0].Reconnected? && ReconnectHarmless(w, src, s)
    ensures Inv(CommitFrom(w, src, s, OnReconnected(w.servers[s], src)), h)
  {
    ReconnectedIff(w, h, src, s);
  }

  // ---------- elections ----------

  /** A round of its own above its promise is fresh to the whole cluster. */
  lemma RoundIsFresh(w: World, h: Hist, s: nat, n: Ballot)
    requires RoundsOk(w, h) && s < |w.servers| && n.pid == s && Lt(w.servers[s].os.promised, n)
    ensures n !in h.rlog
  {
    if n in h.rlog {
      RoundIsKnown(w, h, n);
    }
  }

  lemma RoundIsKnown(w: World, h: Hist, n: Ballot)
    requires RoundsOk(w, h) && n in h.rlog
    ensures OwnerMoved(w, n)
  {
    assert RoundOk(w, h, n);
  }

  /** The step in which `s` starts to prepare round `n`. */
  ghost predicate Starts(w: World, w': World, s: nat, n: Ballot, o: Outcome) {
    && s < |w.servers| == |w'.servers|
    && w'.servers == w.servers[s := o.s]
    && n.pid == s && Lt(w.servers[s].os.promised, n)
    && o == TriggerLeader(s, |w.servers|, Persist(w.servers[s].(os := w.servers[s].os.(l := n))), s, n)
  }

  lemma StartsActor(w: World, h: Hist, w': World, s: nat, n: Ballot, o: Outcome)
    requires RoundsOk(w, h) && Starts(w, w', s, n, o) && ActorOk(w, h, s)
    ensures Grows(w, h, w', h, s) && VotesBounded(w', h, s)
    ensures ActorOk(w', h, s)
  {
    RoundIsFresh(w, h, s, n);
    var x := w.servers[s];
    var r :| DecidedIn(|w.servers|, h, x.os, r);
    assert DecidedIn(|w'.servers|, h, o.s.os, r);
    assert FiledOk(w', h, s, s, o.s.promises[s]);
    assert PreparingOk(w', h, s);
  }

  lemma StartsSent(w: World, h: Hist, w': World, s: nat, n: Ballot, o: Outcome)
    requires Starts(w, w', s, n, o)
    ensures SentOk(w', h, s, o.out) && NoStreamSent(o.out)
  {
    forall f | f in o.out
      ensures f < |w'.servers| && f != s && |o.out[f]| == 1 && o.out[f][0].Prepare? && MsgOk(w', h, s, f, o.out[f][0])
    {
    }
  }

  lemma StartStep(w: World, h: Hist, s: nat, n: Ballot, o: Outcome)
    requires Inv(w, h) && s < |w.servers| && Starts(w, Commit(w, s, o), s, n, o)
    ensures Inv(Commit(w, s, o), h)
  {
    var w' := Commit(w, s, o);
    assert ActorOk(w, h, s);
    StartsActor(w, h, w', s, n, o);
    StartsSent(w, h, w', s, n, o);
    QuietStep(w, h, w', h, s, w.net, o.out);
  }

  /** Election variables are no concern of the invariant. */
  lemma ElectionVariablesStep(w: World, h: Hist, s: nat, y: Server)
    requires Inv(w, h) && s < |w.servers|
    requires y == w.servers[s].(b := y.b, qc := y.qc)
    ensures Inv(Commit(w, s, Outcome(y, map[])), h)
  {
    var o := Outcome(y, map[]);
    var w' := Commit(w, s, o);
    var x := w.servers[s];
    assert ActorOk(w, h, s);
    SameStable(w, h, w', s);
    if x.role == Leader && x.phase == Accepting {
      assert LeadingOk(w, h, s);
      StillLeads(w, h, w', s);
    } else {
      StillPrepares(w, h, w', s);
    }
    PostStep(w, h, s, o);
  }

  /** Another server was elected, or this one with a ballot it may not use. */
  lemma FollowStep(w: World, h: Hist, s: nat, n: Ballot)
    requires Inv(w, h) && s < |w.servers|
    ensures var x := w.servers[s];
      Inv(Commit(w, s, Outcome(Persist(x.(os := x.os.(l := n))).(role := Follower), map[])), h)
  {
    var x := w.servers[s];
    var o := Outcome(Persist(x.(os := x.os.(l := n))).(role := Follower), map[]);
    var w' := Commit(w, s, o);
    assert ActorOk(w, h, s);
    VotesKept(w, h, s);
    var r :| DecidedIn(|w.servers|, h, x.os, r);
    assert DecidedIn(|w'.servers|, h, o.s.os, r);
    PostStep(w, h, s, o);
  }

  lemma TickStep(w: World, h: Hist, s: nat, ballots: map<Ballot, bool>, max: Ballot)
    requires Inv(w, h) && s < |w.servers|
    ensures Inv(Commit(w, s, OnTick(s, |w.servers|, w.servers[s], ballots, max)), h)
  {
    var x := w.servers[s];
    var o := OnTick(s, |w.servers|, x, ballots, max);
    if |ballots[x.b := x.qc]| < Threshold(|w.servers|) || !Lt(x.os.l, max) {
      ElectionVariablesStep(w, h, s, o.s);
    } else if max.pid == s && Lt(x.os.promised, max) {
      StartStep(w, h, s, max, o);
    } else {
      FollowStep(w, h, s, max);
    }
  }

  // ---------- restarts ----------

  lemma RestartStep(w: World, h: Hist, s: nat)
    requires Inv(w, h) && s < |w.servers|
    ensures Inv(Commit(w, s, Outcome(Boot(s, |w.servers|, w.servers[s].disk), map[])), h)
  {
    var o := Outcome(Boot(s, |w.servers|, w.servers[s].disk), map[]);
    var w' := Commit(w, s, o);
    assert ActorOk(w, h, s);
    SameStable(w, h, w', s);
    PostStep(w, h, s, o);
  }

  // ---------- messages of the timer ----------

  lemma AnnounceStep(w: World, h: Hist, s: nat, out: Outbox)
    requires Inv(w, h) && s < |w.servers|
    requires forall f :: f in out ==> f < |w.servers| && f != s
    requires forall f, i :: f in out && 0 <= i < |out[f]| ==> out[f][i].PrepareReq? || out[f][i].Reconnected?
    ensures Inv(Commit(w, s, Outcome(w.servers[s], out)), h)
  {
    var o := Outcome(w.servers[s], out);
    var w' := Commit(w, s, o);
    assert w'.servers == w.servers;
    assert ActorOk(w, h, s);
    VotesKept(w, h, s);
    SameServers(w, w', h, s);
    PostStep(w, h, s, o);
  }

  // ---------- lost sessions ----------

  /** Messages are in order whatever else is in the queues. */
  lemma MsgOkAnyNet(w: World, h: Hist, net: Net, a: nat, b: nat, m: Msg)
    requires a < |w.servers| && b < |w.servers| && MsgOk(w, h, a, b, m)
    ensures MsgOk(w.(net := net), h, a, b, m)
  {
  }

  lemma DropQueues(w: World, h: Hist, src: nat, dst: nat, q: seq<Msg>)
    requires QueuesOk(w, h) && src < |w.servers| && dst < |w.servers| && src != dst
    requires forall i :: 0 <= i < |q| ==> q[i] in w.net(src, dst) || q[i].Reconnected?
    ensures QueuesOk(w.(net := SetQueue(w.net, src, dst, q)), h)
  {
    var w' := w.(net := SetQueue(w.net, src, dst, q));
    forall a, b | 0 <= a < |w.servers| && 0 <= b < |w.servers| && a != b ensures QueueOk(w', h, a, b) {
      forall i | 0 <= i < |w'.net(a, b)| ensures MsgOk(w', h, a, b, w'.net(a, b)[i]) {
        var m := w'.net(a, b)[i];
        assert QueueOk(w, h, a, b);
        if m in w.net(a, b) {
          var j :| 0 <= j < |w.net(a, b)| && w.net(a, b)[j] == m;
          MsgOkAnyNet(w, h, w'.net, a, b, m);
        }
      }
    }
  }

  lemma DropServers(w: World, h: Hist, net: Net)
    requires RoundsOk(w, h) && ServersOk(w, h) && SafeRounds(w, h)
    ensures var w' := w.(net := net); RoundsOk(w', h) && ServersOk(w', h) && SafeRounds(w', h)
  {
    var w' := w.(net := net);
    forall s | 0 <= s < |w'.servers| ensures ActorOk(w', h, s) {
      assert ActorOk(w, h, s);
      VotesKept(w, h, s);
      SameServers(w, w', h, s);
    }
    forall n | n in h.rlog ensures RoundOk(w', h, n) {
      assert RoundOk(w, h, n);
      if n != ZERO {
        var q :| AllPromised(w, q, n);
        assert AllPromised(w', q, n);
      }
    }
    forall n, m, q, k: nat | n in h.rlog && m in h.rlog && m in h.base && Lt(n, m)
                             && MayChoose(w', h, q, n, k) && k > 0
      ensures Carried(h, n, k, m)
    {
      assert MayChoose(w, h, q, n, k);
    }
  }

  lemma DropFlow(w: World, h: Hist, src: nat, dst: nat, keep: nat, r: seq<Msg>)
    requires src < |w.servers| && dst < |w.servers| && src != dst && keep <= |w.net(src, dst)|
    requires RoundsOk(w, h) && QueueOk(w, h, src, dst) && FlowOk(w, h, dst) && StableOk(w, h, dst)
    requires w.servers[dst].os.promised.pid == src
    requires r == if w.servers[src].role == Leader then [Reconnected] else []
    ensures FlowParts(h, w.servers[dst], w.servers[src], dst, w.net(src, dst)[..keep] + r)
  {
    var s := w.servers[dst];
    var n := s.os.promised;
    var q := w.net(src, dst);
    if n in h.rlog {
      assert RoundOk(w, h, n);
      forall i | 0 <= i < |q| && IsStream(q[i], n) ensures Position(q[i]) <= |h.rlog[n]| {
        assert MsgOk(w, h, src, dst, q[i]);
      }
    }
    FlowDrops(h, s, w.servers[src], dst, q, keep, r);
  }

  lemma DropStep(w: World, h: Hist, src: nat, dst: nat, keep: nat)
    requires Inv(w, h) && Enabled(w, DropSession(src, dst, keep))
    ensures Inv(Apply(w, DropSession(src, dst, keep)), h)
  {
    var r := if w.servers[src].role == Leader then [Reconnected] else [];
    var q := w.net(src, dst)[..keep] + r;
    var w' := w.(net := SetQueue(w.net, src, dst, q));
    DropQueues(w, h, src, dst, q);
    DropServers(w, h, w'.net);
    forall f | 0 <= f < |w'.servers| ensures FlowOk(w', h, f) {
      assert FlowOk(w, h, f);
      if f == dst && w.servers[f].os.promised.pid == src {
        assert QueueOk(w, h, src, dst) && ActorOk(w, h, dst);
        DropFlow(w, h, src, dst, keep, r);
      }
    }
  }
}
