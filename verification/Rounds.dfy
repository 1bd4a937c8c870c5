/** What holds in every run of the cluster, guarded or not: storage is current, ballots never
    go back, and every round has one leader and one beginning. */
module Rounds {
  import opened Ballots
  import opened Replica
  import opened Cluster

  // ---------- what every step keeps ----------

  /** Storage is current, the accepted round is not above the promised one, and a leader leads
      the round it promised last, which bears its own identity. */
  predicate Sane(me: nat, s: Server) {
    && s.disk == s.os
    && Leq(s.os.accepted, s.os.promised)
    && (s.role == Leader ==> s.currentRnd == s.os.promised && s.currentRnd.pid == me)
  }

  lemma HandlerSane(me: nat, peers: nat, s: Server, from: nat, m: Msg, max: Promised)
    requires Sane(me, s)
    ensures Sane(me, OnMessage(me, peers, s, from, m, max).s)
  {
  }

  lemma TickSane(me: nat, peers: nat, s: Server, ballots: map<Ballot, bool>, max: Ballot)
    requires Sane(me, s)
    ensures Sane(me, OnTick(me, peers, s, ballots, max).s)
  {
  }

  lemma StepSane(w: World, st: Step, t: nat)
    requires Enabled(w, st) && t < |w.servers| && Sane(t, w.servers[t])
    ensures |Apply(w, st).servers| == |w.servers| && Sane(t, Apply(w, st).servers[t])
  {
    if st.Deliver? && st.dst == t {
      HandlerSane(t, |w.servers|, w.servers[t], st.src, w.net(st.src, t)[0], st.max);
    } else if st.Tick? && st.s == t {
      TickSane(t, |w.servers|, w.servers[t], st.ballots, st.maxBallot);
    }
  }

  lemma {:induction false} RunSane(ws: seq<World>, sts: seq<Step>, i: nat, t: nat)
    requires IsRun(ws, sts) && i < |ws| && t < |ws[i].servers|
    ensures Sane(t, ws[i].servers[t])
  {
    if i > 0 {
      SameSize(ws, sts, i - 1, i);
      RunSane(ws, sts, i - 1, t);
      StepSane(ws[i - 1], sts[i - 1], t);
    }
  }

  lemma StepSize(w: World, st: Step)
    requires Enabled(w, st)
    ensures |Apply(w, st).servers| == |w.servers|
  {
  }

  lemma {:induction false} SameSize(ws: seq<World>, sts: seq<Step>, i: nat, j: nat)
    requires IsRun(ws, sts) && i <= j < |ws|
    ensures |ws[j].servers| == |ws[i].servers|
  {
    if i < j {
      SameSize(ws, sts, i, j - 1);
      StepSize(ws[j - 1], sts[j - 1]);
    }
  }

  /** Storage holds the current state after every handler. */
  lemma StorageIsCurrent(ws: seq<World>, sts: seq<Step>, i: nat, t: nat)
    requires IsRun(ws, sts) && i < |ws| && t < |ws[i].servers|
    ensures ws[i].servers[t].disk == ws[i].servers[t].os
  {
    RunSane(ws, sts, i, t);
  }

  // ---------- what never goes back ----------

  /** `y` is no less advanced than `x`. */
  predicate NotBehind(x: Stable, y: Stable) {
    Leq(x.promised, y.promised) && Leq(x.l, y.l) && x.decided <= y.decided
  }

  lemma HandlerNotBehind(me: nat, peers: nat, s: Server, from: nat, m: Msg, max: Promised)
    ensures NotBehind(s.os, OnMessage(me, peers, s, from, m, max).s.os)
  {
  }

  lemma TickNotBehind(me: nat, peers: nat, s: Server, ballots: map<Ballot, bool>, max: Ballot)
    ensures NotBehind(s.os, OnTick(me, peers, s, ballots, max).s.os)
  {
  }

  /** Promises, elected ballots and decided indices never decrease, crashes included. */
  lemma StepNotBehind(w: World, st: Step, t: nat)
    requires Enabled(w, st) && t < |w.servers| && w.servers[t].disk == w.servers[t].os
    ensures NotBehind(w.servers[t].os, Apply(w, st).servers[t].os)
  {
    if st.Deliver? {
      HandlerNotBehind(st.dst, |w.servers|, w.servers[st.dst], st.src, w.net(st.src, st.dst)[0], st.max);
    } else if st.Tick? {
      TickNotBehind(st.s, |w.servers|, w.servers[st.s], st.ballots, st.maxBallot);
    }
  }

  /** Over any stretch of any run. */
  lemma {:induction false} RunNotBehind(ws: seq<World>, sts: seq<Step>, i: nat, j: nat, t: nat)
    requires IsRun(ws, sts) && i <= j < |ws| && t < |ws[i].servers|
    ensures t < |ws[j].servers| && NotBehind(ws[i].servers[t].os, ws[j].servers[t].os)
  {
    if i < j {
      RunNotBehind(ws, sts, i, j - 1, t);
      RunSane(ws, sts, j - 1, t);
      SameSize(ws, sts, j - 1, j);
      StepNotBehind(ws[j - 1], sts[j - 1], t);
    }
  }

  // ---------- leaders ----------

  /** A leader leads the round it promised last, which bears its own identity; so no round
      has two leaders. */
  lemma OneLeaderPerRound(ws: seq<World>, sts: seq<Step>, i: nat, s: nat, t: nat)
    requires IsRun(ws, sts) && i < |ws| && s < |ws[i].servers| && t < |ws[i].servers|
    requires ws[i].servers[s].role == Leader && ws[i].servers[t].role == Leader
    ensures ws[i].servers[s].currentRnd == ws[i].servers[s].os.promised
    ensures ws[i].servers[s].currentRnd == ws[i].servers[t].currentRnd ==> s == t
    ensures Leq(ws[i].servers[s].os.accepted, ws[i].servers[s].os.promised)
  {
    RunSane(ws, sts, i, s);
    RunSane(ws, sts, i, t);
  }

  /** Step `i` makes `s` the leader of round `n`. */
  ghost predicate BeginsRound(ws: seq<World>, i: nat, s: nat, n: Ballot)
    requires i + 1 < |ws|
  {
    && s < |ws[i].servers| == |ws[i + 1].servers|
    && !(ws[i].servers[s].role == Leader && ws[i].servers[s].currentRnd == n)
    && ws[i + 1].servers[s].role == Leader && ws[i + 1].servers[s].currentRnd == n
  }

  lemma HandlerBeginsNothing(me: nat, peers: nat, s: Server, from: nat, m: Msg, max: Promised)
    ensures var y := OnMessage(me, peers, s, from, m, max).s;
      y.role == Leader ==> s.role == Leader && y.currentRnd == s.currentRnd
  {
  }

  /** Only an election begins a round, above everything its server promised. */
  lemma BeginsAbove(w: World, st: Step, s: nat, n: Ballot)
    requires Enabled(w, st) && s < |w.servers|
    requires !(w.servers[s].role == Leader && w.servers[s].currentRnd == n)
    requires Apply(w, st).servers[s].role == Leader && Apply(w, st).servers[s].currentRnd == n
    ensures st.Tick? && st.s == s && n.pid == s && Lt(w.servers[s].os.promised, n)
  {
    if st.Deliver? {
      HandlerBeginsNothing(st.dst, |w.servers|, w.servers[st.dst], st.src, w.net(st.src, st.dst)[0], st.max);
    }
  }

  lemma BeginsLater(ws: seq<World>, sts: seq<Step>, i: nat, j: nat, s: nat, n: Ballot)
    requires IsRun(ws, sts) && i < j < |sts| && BeginsRound(ws, i, s, n)
    ensures s < |ws[j].servers| && Leq(n, ws[j].servers[s].os.promised)
  {
    OneLeaderPerRound(ws, sts, i + 1, s, s);
    RunNotBehind(ws, sts, i + 1, j, s);
  }

  /** No round is begun twice in a run, whatever crashes and elections it contains. */
  lemma RoundBeginsOnce(ws: seq<World>, sts: seq<Step>, i: nat, s: nat, j: nat, t: nat, n: Ballot)
    requires IsRun(ws, sts) && i < |sts| && j < |sts|
    requires BeginsRound(ws, i, s, n) && BeginsRound(ws, j, t, n)
    ensures i == j && s == t
  {
    BeginsAbove(ws[i], sts[i], s, n);
    BeginsAbove(ws[j], sts[j], t, n);
    if i < j {
      BeginsLater(ws, sts, i, j, s, n);
    } else if j < i {
      BeginsLater(ws, sts, j, i, s, n);
    }
  }
}
