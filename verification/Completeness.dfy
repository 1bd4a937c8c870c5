/** What a leader's log contains and what its followers rebuild from the pieces they are
    sent, over whole runs and without reference to the history. */
module Completeness {
  import opened Ballots
  import opened Replica
  import opened Cluster
  import opened Invariant
  import opened Progress
  import opened Followers
  import opened Adoption
  import opened Leaders
  import opened Agreement

  // ---------- leader completeness ----------

  /** One history per state, each continuing the one before. */
  ghost predicate Histories(ws: seq<World>, hs: seq<Hist>) {
    && |hs| <= |ws|
    && (forall i :: 0 <= i < |hs| ==> Inv(ws[i], hs[i]))
    && forall i, j :: 0 <= i <= j < |hs| ==> Extends(hs[i], hs[j])
  }

  lemma {:induction false} RunHistories(ws: seq<World>, sts: seq<Step>, i: nat) returns (hs: seq<Hist>)
    requires IsGuardedRun(ws, sts) && i < |ws|
    ensures Histories(ws, hs) && |hs| == i + 1
  {
    if i == 0 {
      hs := [StartHist()];
      InitInv(ws[0]);
    } else {
      var init := RunHistories(ws, sts, i - 1);
      var h := StepInv(ws[i - 1], init[i - 1], sts[i - 1]);
      hs := init + [h];
      HistoriesGrow(ws, init, h);
    }
  }

  lemma HistoriesGrow(ws: seq<World>, hs: seq<Hist>, h: Hist)
    requires Histories(ws, hs) && 0 < |hs| < |ws| && Inv(ws[|hs|], h) && Extends(hs[|hs| - 1], h)
    ensures Histories(ws, hs + [h])
  {
    var hs' := hs + [h];
    forall j, k | 0 <= j <= k < |hs'| ensures Extends(hs'[j], hs'[k]) {
      if k == |hs| && j < k {
        ExtendsOn(hs[j], hs[|hs| - 1], h);
      }
    }
  }

  lemma ExtendsOn(h: Hist, h': Hist, h'': Hist)
    requires Extends(h, h') && Extends(h', h'')
    ensures Extends(h, h'')
  {
  }

  /** At state `i` or before, server `s` held `v` while round `r` was the last it accepted in. */
  ghost predicate Accepted(ws: seq<World>, i: nat, s: nat, r: Ballot, v: seq<Command>) {
    exists j :: 0 <= j <= i && j < |ws| && Held(ws[j], s, r, v)
  }

  ghost predicate Held(w: World, s: nat, r: Ballot, v: seq<Command>) {
    s < |w.servers| && w.servers[s].os.accepted == r && v <= w.servers[s].os.log
  }

  lemma AcceptedIsVoted(ws: seq<World>, hs: seq<Hist>, i: nat, s: nat, r: Ballot, v: seq<Command>)
    requires Histories(ws, hs) && i < |hs| && Accepted(ws, i, s, r, v)
    ensures r in hs[i].rlog && v <= hs[i].rlog[r] && hs[i].votes(s, r) >= |v|
  {
    var j :| 0 <= j <= i && j < |ws| && Held(ws[j], s, r, v);
    assert ActorOk(ws[j], hs[j], s);
    assert Extends(hs[j], hs[i]);
  }

  /** Leader completeness over runs: what a quorum accepted in a round, each of its members at
      any time so far, is in the log of the leader of every later round, and of that round. */
  lemma LeaderHasAllChosen(ws: seq<World>, sts: seq<Step>, i: nat, q: set<nat>, r: Ballot, v: seq<Command>, l: nat)
    requires IsGuardedRun(ws, sts) && i < |ws| && l < |ws[i].servers|
    requires IsQuorum(|ws[i].servers|, q) && forall s :: s in q ==> Accepted(ws, i, s, r, v)
    requires ws[i].servers[l].role == Leader && ws[i].servers[l].phase == Accepting
    requires Leq(r, ws[i].servers[l].currentRnd)
    ensures v <= ws[i].servers[l].os.log
  {
    var hs := RunHistories(ws, sts, i);
    var w, h := ws[i], hs[i];
    forall s | s in q ensures r in h.rlog && v <= h.rlog[r] && h.votes(s, r) >= |v| {
      AcceptedIsVoted(ws, hs, i, s, r, v);
    }
    assert AllVoted(h, q, r, |v|);
    if q == {} {
      SomeServer(|w.servers|);
    }
    var s :| s in q;
    assert ChosenLog(|w.servers|, h, v, r);
    assert ActorOk(w, h, l);
    assert LeadingOk(w, h, l);
    if r != w.servers[l].currentRnd {
      ChosenBelow(w, h, v, r, w.servers[l].currentRnd);
    }
  }

  lemma SomeServer(size: nat)
    requires IsQuorum(size, {})
    ensures size == 0
  {
  }

  // ---------- reconstruction ----------

  /** Step `i` is a promise with which leader `l` enters its accept phase, adopting the promise
      of `f`. */
  ghost predicate Adopts(ws: seq<World>, sts: seq<Step>, i: nat, l: nat, f: nat)
    requires IsRun(ws, sts) && i < |sts|
  {
    && sts[i].Deliver? && sts[i].dst == l && ws[i].net(sts[i].src, l)[0].Promise?
    && ws[i].servers[l].role == Leader && ws[i].servers[l].phase == Preparing
    && ws[i + 1].servers[l].phase == Accepting
    && f in ws[i + 1].servers[l].promises && ws[i + 1].servers[l].promises[f] == ws[i + 1].servers[l].maxProm
  }

  /** A promiser that has not accepted in the round since still has the log it promised. */
  lemma PromiserLog(w: World, h: Hist, l: nat, x: Server, f: nat)
    requires Filed(w, h, l, x) && f in x.promises && RoundsOk(w, h) && f < |w.servers| && StableOk(w, h, f)
    requires Lt(w.servers[f].os.accepted, x.currentRnd)
    ensures var p := x.promises[f];
      && p.accRnd in h.rlog && p.logIdx <= |h.rlog[p.accRnd]|
      && w.servers[f].os.log == h.rlog[p.accRnd][..p.logIdx]
  {
    FiledBelow(w, h, l, x, f);
    assert FiledOk(w, h, l, f, x.promises[f]);
  }

  /** What the handler does when it enters the accept phase. */
  lemma EntersAccepting(me: nat, peers: nat, s: Server, from: nat, m: Msg, max: Promised)
    requires m.Promise? && s.role == Leader && s.phase == Preparing
    requires OnMessage(me, peers, s, from, m, max).s.phase == Accepting
    ensures var x := WithPromise(s, from, Promised(m.accRnd, m.logIdx, m.decIdx, m.sfx));
      var y := OnMessage(me, peers, s, from, m, max).s;
      && m.n == s.currentRnd && y.promises == x.promises && y.maxProm == max && y.os.log == AdoptedLog(x, max)
  {
  }

  /** Reconstruction at the leader: when it enters its accept phase, its new log continues the
      whole log of the server whose promise it adopted, although only a suffix was sent,
      unless that server has accepted in this round or a later one since; and it continues
      what the leader itself has decided. */
  lemma LeaderRebuilds(ws: seq<World>, sts: seq<Step>, i: nat, l: nat, f: nat)
    requires IsGuardedRun(ws, sts) && i < |sts| && Adopts(ws, sts, i, l, f)
    ensures f < |ws[i].servers|
    ensures || Leq(ws[i].servers[l].currentRnd, ws[i].servers[f].os.accepted)
            || ws[i].servers[f].os.log <= ws[i + 1].servers[l].os.log
    ensures DecidedLog(ws[i].servers[l]) <= ws[i + 1].servers[l].os.log
  {
    var w, src, max := ws[i], sts[i].src, sts[i].max;
    var m := w.net(src, l)[0];
    var x := WithPromise(w.servers[l], src, Promised(m.accRnd, m.logIdx, m.decIdx, m.sfx));
    var h := RunInv(ws, sts, i);
    assert ws[i + 1] == Apply(w, sts[i]);
    EntersAccepting(l, |w.servers|, w.servers[l], src, m, max);
    assert ActorOk(w, h, l);
    HeadOk(w, h, src, l);
    FilesPromise(w, h, src, l, m, x);
    assert FiledOk(w, h, l, f, x.promises[f]);
    AdoptedExtends(w, h, l, x, max);
    assert ActorOk(w, h, f);
    if Lt(w.servers[f].os.accepted, x.currentRnd) {
      PromiserLog(w, h, l, x, f);
    }
  }

  lemma SyncCompletes(h: Hist, os: Stable, n: Ballot, whole: seq<Command>, idx: nat)
    requires n in h.rlog && n in h.base && h.rlog[n] == whole && SyncOk(h, os, n, Suffix(whole, idx), idx)
    ensures Prefix(os.log, idx) + Suffix(whole, idx) == whole
  {
    assert idx <= |whole| && os.log[..idx] == whole[..idx];
    assert whole[..idx] + whole[idx..] == whole;
  }

  lemma LatePieceIff(w: World, h: Hist, src: nat, l: nat, m: Msg)
    requires RoundsOk(w, h) && SafeRounds(w, h)
    requires src < |w.servers| && l < |w.servers| && src != l && StableOk(w, h, src) && ActorOk(w, h, l)
    requires m.Promise? && LeadingIn(w.servers[l], m.n) && MsgOk(w, h, src, l, m) && w.servers[src].os.promised == m.n
    ensures var whole, idx := w.servers[l].os.log, LateSyncIdx(w.servers[l], m.accRnd, m.decIdx);
      Prefix(w.servers[src].os.log, idx) + Suffix(whole, idx) == whole <==> LateHarmless(w, src, l, m)
  {
    var mine, whole, idx := w.servers[src].os.log, w.servers[l].os.log, LateSyncIdx(w.servers[l], m.accRnd, m.decIdx);
    assert LeadingOk(w, h, l);
    if LateHarmless(w, src, l, m) {
      LateSyncSent(w, h, src, l, m);
      SyncCompletes(h, w.servers[src].os, m.n, whole, idx);
    } else {
      LateLeavesGap(w, h, src, l, m);
      assert |Prefix(mine, idx) + Suffix(whole, idx)| < |whole|;
    }
  }

  /** Over runs: the piece with which a leader answers a late promise, whose sender is still in
      the round, completes the start of the sender's log to exactly the leader's log if and
      only if the promise fits or the sender has accepted in the round since. */
  lemma LateRebuildsIff(ws: seq<World>, sts: seq<Step>, i: nat, src: nat, l: nat)
    requires IsGuardedRun(ws, sts) && i < |ws| && src < |ws[i].servers| && l < |ws[i].servers| && src != l
    requires ws[i].net(src, l) != [] && ws[i].net(src, l)[0].Promise?
    requires LeadingIn(ws[i].servers[l], ws[i].net(src, l)[0].n)
    requires ws[i].servers[src].os.promised == ws[i].net(src, l)[0].n
    ensures var m := ws[i].net(src, l)[0];
      var sent := LatePromise(ws[i].servers[l], src, m.accRnd, m.decIdx).out[src][0];
      && sent.AcceptSync?
      && (Prefix(ws[i].servers[src].os.log, sent.syncIdx) + sent.sfx == ws[i].servers[l].os.log
          <==> LateHarmless(ws[i], src, l, m))
  {
    var w, m := ws[i], ws[i].net(src, l)[0];
    var h := RunInv(ws, sts, i);
    HeadOk(w, h, src, l);
    assert ActorOk(w, h, src) && ActorOk(w, h, l);
    LatePieceIff(w, h, src, l, m);
  }

  /** Message `k` in the queue from `l` to `f` was sent by step `i`, which handled a promise. */
  ghost predicate SentOnPromise(ws: seq<World>, sts: seq<Step>, i: nat, l: nat, f: nat, k: nat)
    requires IsRun(ws, sts) && i < |sts|
  {
    && sts[i].Deliver? && sts[i].dst == l && ws[i].net(sts[i].src, l)[0].Promise?
    && f != l && f < |ws[i].servers|
    && |ws[i].net(l, f)| <= k < |ws[i + 1].net(l, f)|
  }

  lemma PieceReachesEnd(me: nat, peers: nat, s: Server, f: nat, from: nat, m: Msg, max: Promised, j: nat)
    requires m.Promise? && |s.acceptedIdx| == peers
    requires var o := OnMessage(me, peers, s, from, m, max); f in o.out && j < |o.out[f]| && o.out[f][j].AcceptSync?
    ensures var o := OnMessage(me, peers, s, from, m, max);
      var sent := o.out[f][j];
      && LeadingIn(o.s, sent.n) && sent.sfx == Suffix(o.s.os.log, sent.syncIdx)
  {
  }

  /** The message was sent by this step. */
  lemma SentPiece(ws: seq<World>, sts: seq<Step>, i: nat, l: nat, f: nat, k: nat)
    requires IsRun(ws, sts) && i < |sts| && SentOnPromise(ws, sts, i, l, f, k) && l < |ws[i].servers|
    requires ws[i + 1].net(l, f)[k].AcceptSync? && |ws[i].servers[l].acceptedIdx| == |ws[i].servers|
    ensures |ws[i + 1].servers| == |ws[i].servers|
    ensures var m := ws[i + 1].net(l, f)[k];
      LeadingIn(ws[i + 1].servers[l], m.n) && m.sfx == Suffix(ws[i + 1].servers[l].os.log, m.syncIdx)
  {
    var w, src := ws[i], sts[i].src;
    var o := OnMessage(l, |w.servers|, w.servers[l], src, w.net(src, l)[0], sts[i].max);
    var j := k - |w.net(l, f)|;
    assert ws[i + 1] == CommitFrom(w, src, l, o);
    assert f in o.out && ws[i + 1].net(l, f) == w.net(l, f) + o.out[f];
    PieceReachesEnd(l, |w.servers|, w.servers[l], f, src, w.net(src, l)[0], sts[i].max, j);
  }

  /** Reconstruction at followers: when a promise makes a leader send a piece of its log, to a
      promiser it already had or to a late one, the piece completes the start of the
      follower's log to exactly the leader's log, if the follower is still in that round. */
  lemma SyncRebuilds(ws: seq<World>, sts: seq<Step>, i: nat, l: nat, f: nat, k: nat)
    requires IsGuardedRun(ws, sts) && i < |sts| && SentOnPromise(ws, sts, i, l, f, k)
    requires ws[i + 1].net(l, f)[k].AcceptSync?
    ensures f < |ws[i + 1].servers| && l < |ws[i + 1].servers|
    ensures var m := ws[i + 1].net(l, f)[k];
      var x := ws[i + 1].servers[f].os;
      x.promised == m.n ==> Prefix(x.log, m.syncIdx) + m.sfx == ws[i + 1].servers[l].os.log
  {
    var h := RunInv(ws, sts, i);
    assert ActorOk(ws[i], h, l);
    SentPiece(ws, sts, i, l, f, k);
    var h' := RunInv(ws, sts, i + 1);
    PieceFits(ws[i + 1], h', l, f, k);
  }

  lemma PieceFits(w: World, h: Hist, l: nat, f: nat, k: nat)
    requires Inv(w, h) && l < |w.servers| && f < |w.servers| && l != f
    requires k < |w.net(l, f)| && w.net(l, f)[k].AcceptSync?
    requires var m := w.net(l, f)[k];
      LeadingIn(w.servers[l], m.n) && m.sfx == Suffix(w.servers[l].os.log, m.syncIdx)
    ensures var m := w.net(l, f)[k];
      var x := w.servers[f].os;
      x.promised == m.n ==> Prefix(x.log, m.syncIdx) + m.sfx == w.servers[l].os.log
  {
    var m := w.net(l, f)[k];
    assert QueueOk(w, h, l, f);
    assert MsgOk(w, h, l, f, m);
    assert ActorOk(w, h, l);
    assert LeadingOk(w, h, l);
    var log := w.servers[l].os.log;
    if w.servers[f].os.promised == m.n {
      assert m.syncIdx <= |log|;
      assert log == log[..m.syncIdx] + log[m.syncIdx..];
    }
  }

  // ---------- entries ----------

  /** An entry that a follower takes is the one its log is waiting for, although the handler
      does not look at the entry's index: the check that the code leaves out would never
      fire. */
  lemma EntriesArriveInOrder(ws: seq<World>, sts: seq<Step>, i: nat, src: nat, s: nat)
    requires IsGuardedRun(ws, sts) && i < |ws| && src < |ws[i].servers| && s < |ws[i].servers| && src != s
    requires ws[i].net(src, s) != [] && ws[i].net(src, s)[0].Accept?
    requires var x := ws[i].servers[s];
      x.os.promised == ws[i].net(src, s)[0].n && x.role == Follower && x.phase == Accepting
    ensures ws[i].net(src, s)[0].idx == |ws[i].servers[s].os.log| + 1
  {
    var h := RunInv(ws, sts, i);
    assert ActorOk(ws[i], h, s);
    HeadOk(ws[i], h, src, s);
    HeadContinues(ws[i], h, src, s);
  }
}
