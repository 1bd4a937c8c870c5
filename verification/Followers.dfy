/** The handlers a follower runs, and the steps that leave every log alone. */
module Followers {
  import opened Ballots
  import opened Replica
  import opened Cluster
  import opened Invariant
  import opened Progress
  import opened Streams
  import opened Frame

  // ---------- decided entries and later rounds ----------

  /** What a server decided is in the log every later round starts with. */
  lemma DecidedBelow(w: World, h: Hist, t: nat, m: Ballot)
    requires SafeRounds(w, h) && t < |w.servers| && StableOk(w, h, t)
    requires m in h.rlog && m in h.base && Lt(w.servers[t].os.accepted, m)
    ensures DecidedLog(w.servers[t]) <= h.base[m]
    ensures |DecidedLog(w.servers[t])| == w.servers[t].os.decided
  {
    var os := w.servers[t].os;
    var r :| DecidedIn(|w.servers|, h, os, r);
    if os.decided > 0 {
      var q :| IsQuorum(|w.servers|, q) && AllVoted(h, q, r, os.decided);
      assert MayChoose(w, h, q, r, os.decided);
      assert Carried(h, r, os.decided, m);
    }
  }

  /** What a server decided is in the log of its own round and of every later one. */
  lemma DecidedUpTo(w: World, h: Hist, t: nat, m: Ballot)
    requires SafeRounds(w, h) && t < |w.servers| && StableOk(w, h, t)
    requires m in h.rlog && m in h.base && h.base[m] <= h.rlog[m] && Leq(w.servers[t].os.accepted, m)
    ensures DecidedLog(w.servers[t]) <= h.rlog[m]
    ensures |DecidedLog(w.servers[t])| == w.servers[t].os.decided
  {
    if w.servers[t].os.accepted != m {
      DecidedBelow(w, h, t, m);
    }
  }

  // ---------- taking one message ----------

  /** The network once `s` took the first message from `src` and sent `out`. */
  lemma TakenNet(w: World, src: nat, s: nat, o: Outcome)
    requires s < |w.servers| && src != s && w.net(src, s) != []
    ensures var net0 := SetQueue(w.net, src, s, w.net(src, s)[1..]);
      && Within(net0, w.net)
      && (forall a: nat, b: nat :: b != s ==> net0(a, b) == w.net(a, b))
    ensures var w' := CommitFrom(w, src, s, o);
      forall a: nat :: a < |w.servers| && a != s ==>
        w'.net(a, s) == if a == src then w.net(src, s)[1..] else w.net(a, s)
  {
  }

  /** `s` took a message, did not change its promise, and sent no entries. */
  lemma TakeStep(w: World, h: Hist, h': Hist, src: nat, s: nat, o: Outcome)
    requires Inv(w, h)
    requires src < |w.servers| && s < |w.servers| && src != s && w.net(src, s) != []
    requires var w' := CommitFrom(w, src, s, o);
      && Grows(w, h, w', h', s) && VotesBounded(w', h', s)
      && SentOk(w', h', s, o.out) && ActorOk(w', h', s)
    requires h'.rlog == h.rlog && h'.base == h.base
    requires NoStreamSent(o.out) && KeepsLeading(w.servers[s], o.s)
    requires o.s.os.promised == w.servers[s].os.promised
    requires w.servers[s].os.promised in h.base ==>
      Weaker(if src == w.servers[s].os.promised.pid
             then Advance(w.net(src, s)[0], w.servers[s].os.promised, StartMark(h, w.servers[s]))
             else StartMark(h, w.servers[s]),
             StartMark(h', o.s))
    ensures Inv(CommitFrom(w, src, s, o), h')
  {
    var w' := CommitFrom(w, src, s, o);
    TakenNet(w, src, s, o);
    assert FlowOk(w, h, s);
    ActorFlowTakes(w, h, w', h', s, src);
    QuietStep(w, h, w', h', s, SetQueue(w.net, src, s, w.net(src, s)[1..]), o.out);
  }

  lemma VotesKept(w: World, h: Hist, s: nat)
    requires RoundsOk(w, h) && s < |w.servers|
    ensures VotesBounded(w, h, s)
  {
    var n := w.servers[s].os.promised;
    if n in h.rlog {
      assert RoundOk(w, h, n);
    }
  }

  lemma HeadOk(w: World, h: Hist, src: nat, s: nat)
    requires QueuesOk(w, h)
    requires src < |w.servers| && s < |w.servers| && src != s && w.net(src, s) != []
    ensures MsgOk(w, h, src, s, w.net(src, s)[0])
  {
    assert QueueOk(w, h, src, s);
  }

  /** The message changed nothing. */
  lemma IgnoreStep(w: World, h: Hist, src: nat, s: nat)
    requires Inv(w, h)
    requires src < |w.servers| && s < |w.servers| && src != s && w.net(src, s) != []
    requires w.servers[s].os.promised in h.base && src == w.servers[s].os.promised.pid ==>
      Weaker(Advance(w.net(src, s)[0], w.servers[s].os.promised, StartMark(h, w.servers[s])),
             StartMark(h, w.servers[s]))
    ensures Inv(CommitFrom(w, src, s, Outcome(w.servers[s], map[])), h)
  {
    var o := Outcome(w.servers[s], map[]);
    var w' := CommitFrom(w, src, s, o);
    assert w'.servers == w.servers;
    assert ActorOk(w, h, s);
    assert Grows(w, h, w', h, s);
    VotesKept(w, h, s);
    SameServers(w, w', h, s);
    TakeStep(w, h, h, src, s, o);
  }

  /** Whether a server is in order does not depend on the queues. */
  lemma SameServers(w: World, w': World, h: Hist, s: nat)
    requires w'.servers == w.servers && s < |w.servers| && ActorOk(w, h, s) && VotesBounded(w, h, s)
    ensures ActorOk(w', h, s) && VotesBounded(w', h, s)
  {
    var x := w.servers[s];
    if x.role == Leader && x.phase == Preparing {
      forall f | f in x.promises ensures FiledOk(w', h, s, f, x.promises[f]) {
        assert FiledOk(w, h, s, f, x.promises[f]);
      }
    }
  }

  // ---------- Prepare ----------

  lemma PrepareSfx(w: World, h: Hist, src: nat, s: nat, m: Msg)
    requires SafeRounds(w, h) && src < |w.servers| && s < |w.servers| && src != s
    requires StableOk(w, h, src) && StableOk(w, h, s)
    requires m.Prepare? && MsgOk(w, h, src, s, m) && PreparingIn(w.servers[src], m.n)
    ensures var x := w.servers[s].os;
      SfxOk(h, w.servers[src].os, x.accepted, |x.log|,
        if Lt(m.accRnd, x.accepted) then Suffix(x.log, m.decIdx)
        else if x.accepted == m.accRnd then Suffix(x.log, m.logIdx)
        else [])
  {
    var x, l := w.servers[s].os, w.servers[src].os;
    assert x.log == h.rlog[x.accepted][..|x.log|];
    if Lt(l.accepted, x.accepted) {
      DecidedBelow(w, h, src, x.accepted);
    }
  }

  /** A prepare of a round above the promise of `s`. */
  lemma PromisesNew(w: World, h: Hist, src: nat, s: nat, o: Outcome)
    requires Inv(w, h)
    requires src < |w.servers| && s < |w.servers| && src != s && w.net(src, s) != []
    requires Lt(w.servers[s].os.promised, o.s.os.promised) && o.s.phase != Accepting
    requires o.s.os.accepted == w.servers[s].os.accepted && KeepsLeading(w.servers[s], o.s)
    requires var w' := CommitFrom(w, src, s, o);
      && Grows(w, h, w', h, s) && VotesBounded(w', h, s)
      && SentOk(w', h, s, o.out) && NoStreamSent(o.out) && ActorOk(w', h, s)
    ensures Inv(CommitFrom(w, src, s, o), h)
  {
    var w' := CommitFrom(w, src, s, o);
    assert ActorOk(w, h, s);
    TakenNet(w, src, s, o);
    ActorFlowStarts(w, h, w', s);
    QuietStep(w, h, w', h, s, SetQueue(w.net, src, s, w.net(src, s)[1..]), o.out);
  }

  /** A prepare that is answered. */
  lemma PrepareAnswered(w: World, h: Hist, src: nat, s: nat, m: Msg)
    requires Inv(w, h)
    requires src < |w.servers| && s < |w.servers| && src != s
    requires w.net(src, s) != [] && w.net(src, s)[0] == m && m.Prepare?
    requires !Lt(m.n, w.servers[s].os.promised)
    ensures Inv(CommitFrom(w, src, s, OnPrepare(w.servers[s], src, m.n, m.accRnd, m.logIdx, m.decIdx)), h)
  {
    var o := OnPrepare(w.servers[s], src, m.n, m.accRnd, m.logIdx, m.decIdx);
    var w' := CommitFrom(w, src, s, o);
    HeadOk(w, h, src, s);
    assert ActorOk(w, h, s) && ActorOk(w, h, src);
    PrepareTaken(w, h, src, s);
    VotesKept(w', h, s) by { RoundsStepKept(w, h, w', s); }
    if m.n == w.servers[s].os.promised {
      TakeStep(w, h, h, src, s, o);
    } else {
      PromisesNew(w, h, src, s, o);
    }
  }

  lemma PrepareStep(w: World, h: Hist, src: nat, s: nat)
    requires Inv(w, h)
    requires src < |w.servers| && s < |w.servers| && src != s
    requires w.net(src, s) != [] && w.net(src, s)[0].Prepare?
    ensures var m := w.net(src, s)[0];
      Inv(CommitFrom(w, src, s, OnPrepare(w.servers[s], src, m.n, m.accRnd, m.logIdx, m.decIdx)), h)
  {
    var m := w.net(src, s)[0];
    if Lt(m.n, w.servers[s].os.promised) {
      IgnoreStep(w, h, src, s);
    } else {
      PrepareAnswered(w, h, src, s, m);
    }
  }

  /** The history did not change: rounds are still in order. */
  lemma RoundsStepKept(w: World, h: Hist, w': World, s: nat)
    requires RoundsOk(w, h) && Grows(w, h, w', h, s)
    ensures RoundsOk(w', h)
  {
    var n := w'.servers[s].os.promised;
    if n in h.rlog {
      assert RoundOk(w, h, n);
    }
    RoundsStep(w, h, w', h, s);
  }

  /** A server that promises a round as a follower stays in order. */
  lemma PrepareActor(w: World, h: Hist, w': World, s: nat)
    requires s < |w.servers| == |w'.servers| && ActorOk(w, h, s) && Grows(w, h, w', h, s)
    requires var x, y := w.servers[s], w'.servers[s];
      && y == Persist(x.(role := Follower, phase := Preparing, os := x.os.(promised := y.os.promised)))
      && Leq(x.os.promised, y.os.promised) && OwnerMoved(w', y.os.promised)
    ensures ActorOk(w', h, s)
  {
    var r :| DecidedIn(|w.servers|, h, w.servers[s].os, r);
    assert DecidedIn(|w'.servers|, h, w'.servers[s].os, r);
  }

  lemma PrepareTaken(w: World, h: Hist, src: nat, s: nat)
    requires SafeRounds(w, h)
    requires src < |w.servers| && s < |w.servers| && src != s
    requires ActorOk(w, h, s) && ActorOk(w, h, src)
    requires w.net(src, s) != [] && w.net(src, s)[0].Prepare? && MsgOk(w, h, src, s, w.net(src, s)[0])
    requires !Lt(w.net(src, s)[0].n, w.servers[s].os.promised)
    ensures var m := w.net(src, s)[0];
      var o := OnPrepare(w.servers[s], src, m.n, m.accRnd, m.logIdx, m.decIdx);
      var w' := CommitFrom(w, src, s, o);
      && Grows(w, h, w', h, s)
      && SentOk(w', h, s, o.out) && NoStreamSent(o.out)
      && ActorOk(w', h, s)
  {
    var m := w.net(src, s)[0];
    var x := w.servers[s];
    var o := OnPrepare(x, src, m.n, m.accRnd, m.logIdx, m.decIdx);
    var w' := CommitFrom(w, src, s, o);
    assert Grows(w, h, w', h, s);
    PrepareActor(w, h, w', s);
    if PreparingIn(w.servers[src], m.n) {
      PrepareSfx(w, h, src, s, m);
    }
    assert MsgOk(w', h, s, src, o.out[src][0]);
  }

  // ---------- votes ----------

  /** Server `s` has now accepted `k` entries of round `n`. */
  function Vote(h: Hist, s: nat, n: Ballot, k: nat): Hist {
    h.(votes := (t: nat, m: Ballot) => VotesAfter(h, s, n, k, t, m))
  }

  function VotesAfter(h: Hist, s: nat, n: Ballot, k: nat, t: nat, m: Ballot): nat {
    if t == s && m == n then k else h.votes(t, m)
  }

  lemma EntriesPrefix(log: seq<Command>, log': seq<Command>, d: nat)
    requires d <= |log| && d <= |log'| && log[..d] == log'[..d]
    ensures Entries(log, 0, d) == Entries(log', 0, d)
  {
    forall i | 0 <= i < d ensures Entries(log, 0, d)[i] == Entries(log', 0, d)[i] {
      assert log[i] == log[..d][i] == log'[..d][i];
    }
  }

  lemma {:induction false} EntriesConcat(log: seq<Command>, d: nat, e: nat)
    requires d <= e <= |log|
    ensures Entries(log, 0, d) + Entries(log, d, e) == Entries(log, 0, e)
  {
    var x, y, z := Entries(log, 0, d), Entries(log, d, e), Entries(log, 0, e);
    forall i | 0 <= i < e ensures (x + y)[i] == z[i] {
      assert (x + y)[i] == if i < d then x[i] else y[i - d];
    }
  }

  /** The first message of the queue from a follower's leader follows on. */
  lemma HeadContinues(w: World, h: Hist, src: nat, s: nat)
    requires FlowsOk(w, h) && RoundsOk(w, h)
    requires src < |w.servers| && s < |w.servers| && src != s && w.net(src, s) != []
    requires w.servers[s].os.promised.pid == src && w.servers[s].os.promised in h.rlog
    ensures Continues(w.net(src, s)[0], w.servers[s].os.promised, StartMark(h, w.servers[s]))
  {
    assert FlowOk(w, h, s);
  }

  /** `y` is `x` with a log that grew along the log of the round `x` promised. */
  ghost predicate Voted(h: Hist, x: Server, y: Server) {
    var n := x.os.promised;
    && n in h.rlog && n in h.base
    && x.role == Follower
    && y == Persist(x.(os := x.os.(log := y.os.log, accepted := n), phase := Accepting))
    && h.base[n] <= y.os.log <= h.rlog[n]
    && (x.os.accepted == n ==> |x.os.log| <= |y.os.log|)
  }

  lemma VotedGrows(w: World, h: Hist, w': World, h': Hist, s: nat)
    requires s < |w.servers| == |w'.servers| && StableOk(w, h, s)
    requires w'.servers == w.servers[s := w'.servers[s]]
    requires Voted(h, w.servers[s], w'.servers[s])
    requires h' == Vote(h, s, w.servers[s].os.promised, |w'.servers[s].os.log|)
    ensures Grows(w, h, w', h', s) && VotesBounded(w', h', s)
  {
  }

  lemma VotedOk(w: World, h: Hist, w': World, h': Hist, s: nat)
    requires s < |w.servers| == |w'.servers|
    requires ActorOk(w, h, s) && SafeRounds(w, h)
    requires Grows(w, h, w', h', s)
    requires Voted(h, w.servers[s], w'.servers[s])
    requires h' == Vote(h, s, w.servers[s].os.promised, |w'.servers[s].os.log|)
    ensures ActorOk(w', h', s)
  {
    var x, y := w.servers[s], w'.servers[s];
    var n := x.os.promised;
    DecidedUpTo(w, h, s, n);
    if x.os.accepted != n {
      DecidedBelow(w, h, s, n);
    }
    assert y.os.log[..y.os.decided] == x.os.log[..x.os.decided];
    var r :| DecidedIn(|w.servers|, h, x.os, r);
    ChosenGrows(|w.servers|, h, h', s, n, r, x.os.decided);
    assert DecidedIn(|w'.servers|, h', y.os, r);
    EntriesPrefix(x.os.log, y.os.log, x.os.decided);
    assert OwnerMoved(w', n);
  }

  lemma VoteSent(w': World, h': Hist, src: nat, s: nat, o: Outcome)
    requires src < |w'.servers| && s < |w'.servers| && src != s
    requires o.out == SendTo(src, [Accepted(o.s.os.promised, |o.s.os.log|)])
    requires o.s.os.promised.pid == src && |o.s.os.log| <= h'.votes(s, o.s.os.promised)
    ensures SentOk(w', h', s, o.out) && NoStreamSent(o.out)
  {
    assert MsgOk(w', h', s, src, o.out[src][0]);
  }

  /** A follower took entries of its round and reports how many it has. */
  lemma VoteStep(w: World, h: Hist, src: nat, s: nat, o: Outcome) returns (h': Hist)
    requires Inv(w, h)
    requires src < |w.servers| && s < |w.servers| && src != s && w.net(src, s) != []
    requires Voted(h, w.servers[s], o.s)
    requires w.servers[s].os.promised.pid == src
    requires o.out == SendTo(src, [Accepted(w.servers[s].os.promised, |o.s.os.log|)])
    requires IsStream(w.net(src, s)[0], w.servers[s].os.promised)
    requires Position(w.net(src, s)[0]) == |o.s.os.log|
    ensures Inv(CommitFrom(w, src, s, o), h')
    ensures Extends(h, h')
  {
    var w' := CommitFrom(w, src, s, o);
    h' := Vote(h, s, w.servers[s].os.promised, |o.s.os.log|);
    assert ActorOk(w, h, s);
    VotedGrows(w, h, w', h', s);
    GrowsExtends(w, h, w', h', s);
    VotedOk(w, h, w', h', s);
    VoteSent(w', h', src, s, o);
    TakeStep(w, h, h', src, s, o);
  }

  lemma AcceptSyncTaken(h: Hist, x: Server, src: nat, m: Msg)
    requires m.AcceptSync? && x.os.promised == m.n && x.role == Follower && x.phase == Preparing
    requires m.n in h.rlog && m.n in h.base && h.base[m.n] <= h.rlog[m.n]
    requires SyncOk(h, x.os, m.n, m.sfx, m.syncIdx)
    requires Continues(m, m.n, StartMark(h, x))
    ensures var y := OnAcceptSync(x, src, m.n, m.sfx, m.syncIdx).s;
      Voted(h, x, y) && |y.os.log| == Position(m)
  {
    var y := OnAcceptSync(x, src, m.n, m.sfx, m.syncIdx).s;
    assert y.os.log == h.rlog[m.n][..m.syncIdx + |m.sfx|];
  }

  lemma AcceptTaken(h: Hist, x: Server, src: nat, m: Msg)
    requires m.Accept? && x.os.promised == m.n && x.role == Follower && x.phase == Accepting
    requires m.n in h.rlog && m.n in h.base && x.os.accepted == m.n
    requires h.base[m.n] <= x.os.log <= h.rlog[m.n]
    requires 0 < m.idx <= |h.rlog[m.n]| && h.rlog[m.n][m.idx - 1] == m.c
    requires Continues(m, m.n, StartMark(h, x))
    ensures var y := OnAccept(x, src, m.n, m.c).s;
      Voted(h, x, y) && |y.os.log| == Position(m)
  {
    var y := OnAccept(x, src, m.n, m.c).s;
    assert y.os.log == h.rlog[m.n][..m.idx];
  }

  // ---------- AcceptSync and Accept ----------

  lemma AcceptSyncStep(w: World, h: Hist, src: nat, s: nat) returns (h': Hist)
    requires Inv(w, h)
    requires src < |w.servers| && s < |w.servers| && src != s
    requires w.net(src, s) != [] && w.net(src, s)[0].AcceptSync?
    ensures var m := w.net(src, s)[0];
      Inv(CommitFrom(w, src, s, OnAcceptSync(w.servers[s], src, m.n, m.sfx, m.syncIdx)), h')
    ensures Extends(h, h')
  {
    var m := w.net(src, s)[0];
    HeadOk(w, h, src, s);
    assert ActorOk(w, h, s) && RoundOk(w, h, m.n);
    if w.servers[s].os.promised == m.n {
      HeadContinues(w, h, src, s);
    }
    if w.servers[s].os.promised == m.n && w.servers[s].role == Follower && w.servers[s].phase == Preparing {
      AcceptSyncTaken(h, w.servers[s], src, m);
      h' := VoteStep(w, h, src, s, OnAcceptSync(w.servers[s], src, m.n, m.sfx, m.syncIdx));
    } else {
      h' := h;
      IgnoreStep(w, h, src, s);
    }
  }

  lemma AcceptStep(w: World, h: Hist, src: nat, s: nat) returns (h': Hist)
    requires Inv(w, h)
    requires src < |w.servers| && s < |w.servers| && src != s
    requires w.net(src, s) != [] && w.net(src, s)[0].Accept?
    ensures var m := w.net(src, s)[0];
      Inv(CommitFrom(w, src, s, OnAccept(w.servers[s], src, m.n, m.c)), h')
    ensures Extends(h, h')
  {
    var m := w.net(src, s)[0];
    HeadOk(w, h, src, s);
    assert ActorOk(w, h, s) && RoundOk(w, h, m.n);
    if w.servers[s].os.promised == m.n {
      HeadContinues(w, h, src, s);
    }
    if w.servers[s].os.promised == m.n && w.servers[s].role == Follower && w.servers[s].phase == Accepting {
      AcceptTaken(h, w.servers[s], src, m);
      h' := VoteStep(w, h, src, s, OnAccept(w.servers[s], src, m.n, m.c));
    } else {
      h' := h;
      IgnoreStep(w, h, src, s);
    }
  }

  // ---------- Decide ----------

  /** A server that advances its decided index over chosen entries stays in order. */
  lemma DecideOk(w: World, h: Hist, w': World, s: nat, a: seq<nat>, d: nat)
    requires s < |w.servers| == |w'.servers| && StableOk(w, h, s) && OutputOk(w.servers[s])
    requires w'.servers[s] == AdvanceDecided(w.servers[s].(acceptedIdx := a), d)
    requires w.servers[s].os.decided <= d <= |w.servers[s].os.log|
    requires ChosenUpTo(|w.servers|, h, w.servers[s].os.accepted, d)
    requires OwnerMoved(w', w.servers[s].os.promised)
    ensures StableOk(w', h, s) && OutputOk(w'.servers[s])
  {
    var x, y := w.servers[s], w'.servers[s];
    var r :| ChosenVia(|w.servers|, h, x.os.accepted, d, r);
    assert x.os.log[..d] == h.rlog[x.os.accepted][..d];
    assert DecidedIn(|w'.servers|, h, y.os, r);
    EntriesConcat(x.os.log, x.os.decided, d);
  }

  /** A follower takes a decision. */
  lemma DecideTaken(w: World, h: Hist, src: nat, s: nat, d: nat)
    requires Inv(w, h)
    requires src < |w.servers| && s < |w.servers| && src != s && w.net(src, s) != [] && w.net(src, s)[0].Decide?
    requires w.servers[s].role == Follower && w.servers[s].phase == Accepting
    requires w.servers[s].os.decided <= d <= |w.servers[s].os.log|
    requires ChosenUpTo(|w.servers|, h, w.servers[s].os.accepted, d)
    ensures Inv(CommitFrom(w, src, s, Outcome(AdvanceDecided(w.servers[s], d), map[])), h)
  {
    var o := Outcome(AdvanceDecided(w.servers[s], d), map[]);
    var w' := CommitFrom(w, src, s, o);
    assert ActorOk(w, h, s);
    assert Grows(w, h, w', h, s);
    DecideOk(w, h, w', s, w.servers[s].acceptedIdx, d);
    VotesKept(w', h, s) by { RoundsStepKept(w, h, w', s); }
    TakeStep(w, h, h, src, s, o);
  }

  lemma DecideStep(w: World, h: Hist, src: nat, s: nat)
    requires Inv(w, h)
    requires src < |w.servers| && s < |w.servers| && src != s
    requires w.net(src, s) != [] && w.net(src, s)[0].Decide?
    ensures var m := w.net(src, s)[0];
      Inv(CommitFrom(w, src, s, OnDecide(w.servers[s], m.n, m.decIdx)), h)
  {
    var m := w.net(src, s)[0];
    HeadOk(w, h, src, s);
    assert ActorOk(w, h, s);
    if OnDecide(w.servers[s], m.n, m.decIdx).s == w.servers[s] {
      IgnoreStep(w, h, src, s);
    } else {
      DecideTaken(w, h, src, s, m.decIdx);
    }
  }
}
