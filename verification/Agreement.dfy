/** What holds in every reachable state of the cluster. */
module Agreement {
  import opened Ballots
  import opened Replica
  import opened Cluster
  import opened Rounds
  import opened Invariant
  import opened Progress
  import opened Followers
  import opened Leaders
  import opened Proposals
  import opened Recovery

  // ---------- the invariant over runs ----------

  function NoVotes(s: nat, n: Ballot): nat { 0 }

  function StartHist(): Hist {
    Hist(map[ZERO := []], map[ZERO := []], NoVotes)
  }

  lemma InitInv(w: World)
    requires Init(w) && Quiet(w.net)
    ensures Inv(w, StartHist())
  {
    var h := StartHist();
    var size := |w.servers|;
    var all := Ids(size);
    assert IsQuorum(size, all) && AllVoted(h, all, ZERO, 0);
    assert OwnerMoved(w, ZERO);
    assert RoundOk(w, h, ZERO);
    forall s | 0 <= s < size ensures ActorOk(w, h, s) {
      assert DecidedIn(size, h, w.servers[s].os, ZERO);
    }
    forall f | 0 <= f < size ensures FlowOk(w, h, f) {
      if f != 0 {
        assert w.net(0, f) == [];
      }
    }
  }

  lemma DeliverInv(w: World, h: Hist, src: nat, dst: nat, max: Promised) returns (h': Hist)
    requires Inv(w, h) && Enabled(w, Deliver(src, dst, max)) && Guarded(w, Deliver(src, dst, max))
    ensures Inv(Apply(w, Deliver(src, dst, max)), h') && Extends(h, h')
  {
    h' := h;
    match w.net(src, dst)[0]
    case Prepare(_, _, _, _) => PrepareStep(w, h, src, dst);
    case Promise(_, _, _, _, _) => h' := PromiseStep(w, h, src, dst, max);
    case AcceptSync(_, _, _) => h' := AcceptSyncStep(w, h, src, dst);
    case Accept(_, _, _) => h' := AcceptStep(w, h, src, dst);
    case Accepted(_, _) => AcceptedStep(w, h, src, dst);
    case Decide(_, _) => DecideStep(w, h, src, dst);
    case PrepareReq => PrepareReqStep(w, h, src, dst);
    case Reconnected => ReconnectedStep(w, h, src, dst);
  }

  lemma StepInv(w: World, h: Hist, st: Step) returns (h': Hist)
    requires Inv(w, h) && Enabled(w, st) && Guarded(w, st)
    ensures Inv(Apply(w, st), h') && Extends(h, h')
  {
    h' := h;
    match st
    case Tick(s, ballots, maxBallot) => TickStep(w, h, s, ballots, maxBallot);
    case Deliver(src, dst, max) => h' := DeliverInv(w, h, src, dst, max);
    case Propose(s, c) => h' := ProposeStep(w, h, s, c);
    case Restart(s) => RestartStep(w, h, s);
    case Reconnect(src, dst) => AnnounceStep(w, h, src, SendTo(dst, [Reconnected]));
    case AskPrepare(s) => AnnounceStep(w, h, s, map d | d in Ids(|w.servers|) && d != s :: [PrepareReq]);
    case DropSession(src, dst, keep) => DropStep(w, h, src, dst, keep);
  }

  lemma {:induction false} RunInv(ws: seq<World>, sts: seq<Step>, i: nat) returns (h: Hist)
    requires IsGuardedRun(ws, sts) && i < |ws|
    ensures Inv(ws[i], h)
  {
    if i == 0 {
      h := StartHist();
      InitInv(ws[0]);
    } else {
      h := RunInv(ws, sts, i - 1);
      h := StepInv(ws[i - 1], h, sts[i - 1]);
    }
  }

  // ---------- agreement ----------

  /** `v` is the start of the log of some round, and a majority accepted that start. */
  ghost predicate ChosenLog(size: nat, h: Hist, v: seq<Command>, r: Ballot) {
    r in h.rlog && v <= h.rlog[r] && Chosen(size, h, r, |v|)
  }

  lemma ChosenBelow(w: World, h: Hist, v: seq<Command>, r: Ballot, m: Ballot)
    requires RoundsOk(w, h) && SafeRounds(w, h)
    requires ChosenLog(|w.servers|, h, v, r) && m in h.rlog && Lt(r, m)
    ensures v <= h.rlog[m]
  {
    assert RoundOk(w, h, m);
    if v != [] {
      var q :| IsQuorum(|w.servers|, q) && AllVoted(h, q, r, |v|);
      assert MayChoose(w, h, q, r, |v|);
      assert Carried(h, r, |v|, m);
    }
  }

  lemma ChosenComparable(w: World, h: Hist, v: seq<Command>, r: Ballot, u: seq<Command>, m: Ballot)
    requires RoundsOk(w, h) && SafeRounds(w, h)
    requires ChosenLog(|w.servers|, h, v, r) && ChosenLog(|w.servers|, h, u, m)
    ensures Comparable(v, u)
  {
    if Lt(r, m) {
      ChosenBelow(w, h, v, r, m);
    } else if Lt(m, r) {
      ChosenBelow(w, h, u, m, r);
    }
  }

  lemma DecidedIsChosen(w: World, h: Hist, s: nat) returns (r: Ballot)
    requires s < |w.servers| && StableOk(w, h, s)
    ensures ChosenLog(|w.servers|, h, DecidedLog(w.servers[s]), r)
  {
    r :| DecidedIn(|w.servers|, h, w.servers[s].os, r);
  }

  lemma InvAgree(w: World, h: Hist)
    requires Inv(w, h)
    ensures Agree(w)
  {
    forall s, t | 0 <= s < |w.servers| && 0 <= t < |w.servers|
      ensures Comparable(DecidedLog(w.servers[s]), DecidedLog(w.servers[t]))
    {
      assert ActorOk(w, h, s) && ActorOk(w, h, t);
      var r := DecidedIsChosen(w, h, s);
      var m := DecidedIsChosen(w, h, t);
      ChosenComparable(w, h, DecidedLog(w.servers[s]), r, DecidedLog(w.servers[t]), m);
    }
  }

  /** Agreement: in every state of every guarded run, of what any two servers have decided,
      one is a prefix of the other. */
  lemma RunsAgree(ws: seq<World>, sts: seq<Step>, i: nat)
    requires IsGuardedRun(ws, sts) && i < |ws|
    ensures Agree(ws[i])
  {
    var h := RunInv(ws, sts, i);
    InvAgree(ws[i], h);
  }

  // ---------- what never goes back ----------

  lemma ChosenExtends(size: nat, h: Hist, h': Hist, v: seq<Command>, r: Ballot)
    requires Extends(h, h') && ChosenLog(size, h, v, r)
    ensures ChosenLog(size, h', v, r)
  {
    var q :| IsQuorum(size, q) && AllVoted(h, q, r, |v|);
    assert AllVoted(h', q, r, |v|);
    assert h.rlog[r] <= h'.rlog[r];
  }

  lemma DecidedExtends(w: World, h: Hist, w': World, h': Hist, t: nat)
    requires t < |w.servers| == |w'.servers| && StableOk(w, h, t) && StableOk(w', h', t)
    requires RoundsOk(w', h') && SafeRounds(w', h') && Extends(h, h')
    requires w.servers[t].os.decided <= w'.servers[t].os.decided
    ensures DecidedLog(w.servers[t]) <= DecidedLog(w'.servers[t])
  {
    var r := DecidedIsChosen(w, h, t);
    ChosenExtends(|w.servers|, h, h', DecidedLog(w.servers[t]), r);
    var r' := DecidedIsChosen(w', h', t);
    ChosenComparable(w', h', DecidedLog(w.servers[t]), r, DecidedLog(w'.servers[t]), r');
  }

  lemma DecidedStep(w: World, h: Hist, st: Step, t: nat)
    requires Inv(w, h) && Enabled(w, st) && Guarded(w, st) && t < |w.servers|
    ensures NotBehind(w.servers[t].os, Apply(w, st).servers[t].os)
    ensures DecidedLog(w.servers[t]) <= DecidedLog(Apply(w, st).servers[t])
  {
    var w' := Apply(w, st);
    var h' := StepInv(w, h, st);
    assert ActorOk(w, h, t) && ActorOk(w', h', t);
    StepNotBehind(w, st, t);
    DecidedExtends(w, h, w', h', t);
  }

  /** What a server has decided is never taken back. */
  lemma {:induction false} DecidedGrows(ws: seq<World>, sts: seq<Step>, i: nat, j: nat, t: nat)
    requires IsGuardedRun(ws, sts) && i <= j < |ws| && t < |ws[i].servers|
    ensures t < |ws[j].servers|
    ensures NotBehind(ws[i].servers[t].os, ws[j].servers[t].os)
    ensures DecidedLog(ws[i].servers[t]) <= DecidedLog(ws[j].servers[t])
  {
    if i < j {
      DecidedGrows(ws, sts, i, j - 1, t);
      var h := RunInv(ws, sts, j - 1);
      DecidedStep(ws[j - 1], h, sts[j - 1], t);
    }
  }

  /** Agreement between any two servers at any two moments of a run. */
  lemma RunsAgreeAcrossTime(ws: seq<World>, sts: seq<Step>, i: nat, s: nat, j: nat, t: nat)
    requires IsGuardedRun(ws, sts) && i <= j < |ws|
    requires s < |ws[i].servers| && t < |ws[i].servers|
    ensures s < |ws[j].servers| && t < |ws[j].servers|
    ensures Comparable(DecidedLog(ws[i].servers[s]), DecidedLog(ws[j].servers[t]))
    ensures Comparable(DecidedLog(ws[j].servers[s]), DecidedLog(ws[i].servers[t]))
  {
    DecidedGrows(ws, sts, i, j, s);
    DecidedGrows(ws, sts, i, j, t);
    RunsAgree(ws, sts, j);
  }

  // ---------- rounds, logs and output in every reachable state ----------

  /** The service was handed exactly the decided entries, in order. */
  predicate HandedDecided(x: Server) {
    && x.os.decided <= |x.os.log|
    && |x.applied| == x.os.decided
    && forall k :: 0 <= k < |x.applied| ==> x.applied[k] == ApplyMsg(x.os.log[k], k)
  }

  /** The service was handed exactly the decided entries, in order, since the server last
      started.  (That storage is current holds in all runs: `Rounds.StorageIsCurrent`.) */
  lemma ApplyStream(ws: seq<World>, sts: seq<Step>, i: nat, s: nat)
    requires IsGuardedRun(ws, sts) && i < |ws| && s < |ws[i].servers|
    ensures HandedDecided(ws[i].servers[s])
  {
    var h := RunInv(ws, sts, i);
    assert ActorOk(ws[i], h, s);
  }

  /** A restart hands the service the same entries again. */
  lemma RestartReplays(ws: seq<World>, sts: seq<Step>, i: nat, s: nat)
    requires IsGuardedRun(ws, sts) && i < |sts| && sts[i] == Restart(s)
    ensures s < |ws[i].servers| == |ws[i + 1].servers|
    ensures ws[i + 1].servers[s].applied == ws[i].servers[s].applied
    ensures ws[i + 1].servers[s].os == ws[i].servers[s].os
  {
    var h := RunInv(ws, sts, i);
    assert ActorOk(ws[i], h, s);
  }

  /** Servers that accepted last in the same round have comparable logs. */
  lemma SameRoundPrefix(ws: seq<World>, sts: seq<Step>, i: nat, s: nat, t: nat)
    requires IsGuardedRun(ws, sts) && i < |ws| && s < |ws[i].servers| && t < |ws[i].servers|
    requires ws[i].servers[s].os.accepted == ws[i].servers[t].os.accepted
    ensures Comparable(ws[i].servers[s].os.log, ws[i].servers[t].os.log)
  {
    var h := RunInv(ws, sts, i);
    assert ActorOk(ws[i], h, s) && ActorOk(ws[i], h, t);
  }

  /** What a leader counts as acknowledged by a follower, that follower holds for as long as
      it accepts in the leader's round. */
  lemma AcknowledgedIsHeld(ws: seq<World>, sts: seq<Step>, i: nat, l: nat, f: nat)
    requires IsGuardedRun(ws, sts) && i < |ws| && l < |ws[i].servers| && f < |ws[i].servers|
    requires ws[i].servers[l].role == Leader && ws[i].servers[l].phase == Accepting
    requires ws[i].servers[f].os.accepted == ws[i].servers[l].currentRnd
    ensures var x, y := ws[i].servers[l], ws[i].servers[f];
      && f < |x.acceptedIdx|
      && y.os.log <= x.os.log
      && x.acceptedIdx[f] <= |y.os.log|
      && y.os.log[..x.acceptedIdx[f]] == x.os.log[..x.acceptedIdx[f]]
  {
    var h := RunInv(ws, sts, i);
    assert ActorOk(ws[i], h, l) && ActorOk(ws[i], h, f);
    assert LeadingOk(ws[i], h, l);
  }

  /** An acknowledgement that a leader acts on never points past the leader's log. */
  lemma AcknowledgedInRange(ws: seq<World>, sts: seq<Step>, i: nat, f: nat, l: nat, k: nat)
    requires IsGuardedRun(ws, sts) && i < |ws| && f < |ws[i].servers| && l < |ws[i].servers| && f != l
    requires k < |ws[i].net(f, l)| && ws[i].net(f, l)[k].Accepted?
    requires LeadingIn(ws[i].servers[l], ws[i].net(f, l)[k].n)
    ensures ws[i].net(f, l)[k].logIdx <= |ws[i].servers[l].os.log|
    ensures |ws[i].servers[l].acceptedIdx| == |ws[i].servers|
  {
    var h := RunInv(ws, sts, i);
    assert ActorOk(ws[i], h, l);
    assert LeadingOk(ws[i], h, l);
    assert RoundOk(ws[i], h, ws[i].servers[l].currentRnd);
    assert QueueOk(ws[i], h, f, l);
    assert MsgOk(ws[i], h, f, l, ws[i].net(f, l)[k]);
  }
}
