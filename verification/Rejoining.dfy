/** What exchanges of several messages achieve: a server that recovers ends up with its leader's
    log, and a proposal that a majority acknowledges is decided by leader and follower. */
module Rejoining {
  import opened Ballots
  import opened Replica
  import opened Cluster
  import opened Exchanges
  import opened Invariant
  import opened Handlers
  import F = Followers
  import opened Agreement
  import opened Completeness

  // ---------- recovery ----------

  /** Leader `l` accepts in round `n`; follower `f`, in whatever phase, has promised no later
      round; on the way between the two there is only the request of `f` to prepare. */
  ghost predicate Asks(w: World, f: nat, l: nat, n: Ballot) {
    && Pair(w, f, l) && LeadingIn(w.servers[l], n) && Leq(w.servers[f].os.promised, n)
    && w.net(f, l) == [PrepareReq] && w.net(l, f) == []
  }

  /** The follower's log is as long as the adopted one, if it accepted last in the same round and
      not in this one. */
  predicate LongEnough(w: World, f: nat, l: nat)
    requires f < |w.servers| && l < |w.servers|
  {
    var x, y := w.servers[f].os, w.servers[l];
    x.accepted == y.currentRnd || x.accepted != y.maxProm.accRnd || y.maxProm.logIdx <= |x.log|
  }

  /** The request is answered, and the answer answered with a promise. */
  lemma Promises(w: World, f: nat, l: nat, n: Ballot) returns (v: World)
    requires Asks(w, f, l, n)
    ensures var st := Deliver(f, l, ZERO_PROMISE); var st' := Deliver(l, f, ZERO_PROMISE);
      && Enabled(w, st) && Enabled(Apply(w, st), st') && v == Apply(Apply(w, st), st')
      && Guarded(w, st) && Guarded(Apply(w, st), st')
    ensures var x, y := w.servers[f], w.servers[l];
      && v.servers == w.servers[f := Saved(x.(role := Follower, phase := Preparing), x.os.(promised := n))]
      && v.net(l, f) == []
      && v.net(f, l) == [Promise(n, x.os.accepted, |x.os.log|, x.os.decided,
                                 PromisedPart(x.os, y.os.accepted, |y.os.log|, y.os.decided))]
  {
    PrepareReqAnswered(w, f, l, ZERO_PROMISE);
    var u := Apply(w, Deliver(f, l, ZERO_PROMISE));
    PrepareAnswered(u, l, f, ZERO_PROMISE);
    v := Apply(u, Deliver(l, f, ZERO_PROMISE));
  }

  /** The promise is answered with a piece of the log, which the follower takes. */
  lemma Syncs(w: World, f: nat, l: nat, n: Ballot) returns (v: World, max: Promised)
    requires Pair(w, f, l) && LeadingIn(w.servers[l], n) && w.net(l, f) == []
    requires |w.net(f, l)| == 1 && w.net(f, l)[0].Promise? && w.net(f, l)[0].n == n
    requires w.servers[f].role == Follower && w.servers[f].phase == Preparing && w.servers[f].os.promised == n
    ensures var st := Deliver(f, l, max); var st' := Deliver(l, f, ZERO_PROMISE);
      Enabled(w, st) && Enabled(Apply(w, st), st') && v == Apply(Apply(w, st), st')
    ensures var x, y, m := w.servers[f], w.servers[l], w.net(f, l)[0];
      var idx := LateSyncIdx(y, m.accRnd, m.decIdx);
      var log := Prefix(x.os.log, idx) + Suffix(y.os.log, idx);
      && |v.servers| == |w.servers|
      && v.servers[f] == Saved(x.(phase := Accepting), x.os.(accepted := n, log := log))
      && v.servers[l] == Saved(y.(promises := y.promises[f := PromiseIn(m)]), y.os)
      && v.net(f, l) == [Accepted(n, |log|)]
      && v.net(l, f) == if m.decIdx < y.os.decided then [Decide(n, y.os.decided)] else []
  {
    var m := w.net(f, l)[0];
    max := MaxPromiseExists(w.servers[l].promises[f := PromiseIn(m)]);
    LatePromiseAnswered(w, f, l, max);
    var u := Apply(w, Deliver(f, l, max));
    SyncTaken(u, l, f, ZERO_PROMISE);
    v := Apply(u, Deliver(l, f, ZERO_PROMISE));
  }

  /** Recovery: in any state of a guarded run, the request of `f`, the leader's offer, the promise
      of `f` and the leader's answer, delivered one after the other, leave `f` accepting in the
      leader's round with exactly the leader's log, which it acknowledges, if its own log was long
      enough; and a decision on its way if it has decided less. */
  lemma Recovers(ws: seq<World>, sts: seq<Step>, i: nat, f: nat, l: nat, n: Ballot) returns (v: World, max: Promised)
    requires IsGuardedRun(ws, sts) && i < |ws| && Asks(ws[i], f, l, n) && LongEnough(ws[i], f, l)
    ensures var st, st', st'' := Deliver(f, l, ZERO_PROMISE), Deliver(l, f, ZERO_PROMISE), Deliver(f, l, max);
      && Enabled(ws[i], st) && Enabled(Apply(ws[i], st), st')
      && Enabled(Apply(Apply(ws[i], st), st'), st'')
      && Enabled(Apply(Apply(Apply(ws[i], st), st'), st''), st')
      && v == Apply(Apply(Apply(Apply(ws[i], st), st'), st''), st')
    ensures var x, y := ws[i].servers[f].os, ws[i].servers[l].os;
      && |v.servers| == |ws[i].servers| && v.servers[l].os == y && LeadingIn(v.servers[l], n) && f in v.servers[l].promises
      && v.servers[f].role == Follower && v.servers[f].phase == Accepting
      && v.servers[f].os == x.(promised := n, accepted := n, log := y.log)
      && v.net(f, l) == [Accepted(n, |y.log|)]
      && v.net(l, f) == if x.decided < y.decided then [Decide(n, y.decided)] else []
  {
    var w := ws[i];
    var h := RunInv(ws, sts, i);
    var u := Promises(w, f, l, n);
    var h1 := StepInv(w, h, Deliver(f, l, ZERO_PROMISE));
    var h2 := StepInv(Apply(w, Deliver(f, l, ZERO_PROMISE)), h1, Deliver(l, f, ZERO_PROMISE));
    v, max := Syncs(u, f, l, n);
    PieceIsWhole(u, h2, f, l);
  }

  lemma PieceIsWhole(u: World, h: Hist, f: nat, l: nat)
    requires Inv(u, h) && Pair(u, f, l) && |u.net(f, l)| == 1 && u.net(f, l)[0].Promise?
    requires LeadingIn(u.servers[l], u.net(f, l)[0].n) && u.servers[f].os.promised == u.net(f, l)[0].n
    requires LateHarmless(u, f, l, u.net(f, l)[0])
    ensures var m, y := u.net(f, l)[0], u.servers[l];
      var idx := LateSyncIdx(y, m.accRnd, m.decIdx);
      Prefix(u.servers[f].os.log, idx) + Suffix(y.os.log, idx) == y.os.log
  {
    F.HeadOk(u, h, f, l);
    assert ActorOk(u, h, f) && ActorOk(u, h, l);
    LatePieceIff(u, h, f, l, u.net(f, l)[0]);
  }

  /** The decision that follows brings `f` to what its leader has decided. */
  lemma CatchesUp(w: World, f: nat, l: nat, n: Ballot) returns (v: World)
    requires Pair(w, f, l) && w.servers[f].role == Follower && w.servers[f].phase == Accepting
    requires w.servers[f].os.promised == n && |w.net(l, f)| == 1 && w.net(l, f)[0].Decide? && w.net(l, f)[0].n == n
    requires w.servers[f].os.decided < w.net(l, f)[0].decIdx <= |w.servers[f].os.log|
    ensures Enabled(w, Deliver(l, f, ZERO_PROMISE)) && v == Apply(w, Deliver(l, f, ZERO_PROMISE))
    ensures |v.servers| == |w.servers| && v.servers[f].os == w.servers[f].os.(decided := w.net(l, f)[0].decIdx)
    ensures HandedUpTo(w.servers[f], v.servers[f], w.net(l, f)[0].decIdx)
  {
    DecideTaken(w, l, f, ZERO_PROMISE);
    v := Apply(w, Deliver(l, f, ZERO_PROMISE));
  }

  // ---------- deciding ----------

  /** Leader `l` accepts in round `n`, `f` follows it there with a log as long, and there is
      nothing on the way between the two. */
  ghost predicate InStep(w: World, f: nat, l: nat, n: Ballot) {
    && Pair(w, f, l) && |w.servers| % 2 == 1
    && LeadingIn(w.servers[l], n) && w.servers[l].os.promised == n && f in w.servers[l].promises
    && |w.servers[l].acceptedIdx| == |w.servers| && w.servers[l].os.decided <= |w.servers[l].os.log|
    && w.servers[f].role == Follower && w.servers[f].phase == Accepting && w.servers[f].os.promised == n
    && |w.servers[f].os.log| == |w.servers[l].os.log| && w.servers[f].os.decided <= |w.servers[f].os.log|
    && w.net(f, l) == [] && w.net(l, f) == []
  }

  /** A proposal reaches the follower and its acknowledgement the leader's queue. */
  lemma Replicates(w: World, f: nat, l: nat, n: Ballot, c: Command) returns (v: World)
    requires InStep(w, f, l, n)
    ensures Enabled(w, Propose(l, c)) && Enabled(Apply(w, Propose(l, c)), Deliver(l, f, ZERO_PROMISE))
    ensures v == Apply(Apply(w, Propose(l, c)), Deliver(l, f, ZERO_PROMISE))
    ensures var x, y := w.servers[f], w.servers[l];
      && |v.servers| == |w.servers|
      && v.servers[f] == Saved(x, x.os.(log := x.os.log + [c]))
      && v.servers[l] == Saved(y.(acceptedIdx := y.acceptedIdx[l := |y.os.log| + 1]), y.os.(log := y.os.log + [c]))
      && v.net(f, l) == [Accepted(n, |y.os.log| + 1)] && v.net(l, f) == []
  {
    var u := Apply(w, Propose(l, c));
    assert u.net(l, f) == [] + [Accept(n, |w.servers[l].os.log| + 1, c)];
    AcceptTaken(u, l, f, ZERO_PROMISE);
    v := Apply(u, Deliver(l, f, ZERO_PROMISE));
  }

  lemma MajorityAcknowledged(acks: seq<nat>, q: set<nat>, v: nat, size: nat)
    requires 2 * |q| > size && forall t :: t in q ==> t < |acks| && acks[t] >= v
    ensures 2 * |Acknowledged(acks, v)| > size
  {
    assert q <= Acknowledged(acks, v);
    assert Acknowledged(acks, v) == q + (Acknowledged(acks, v) - q);
  }

  /** The acknowledgement that completes a majority `q` makes the leader decide. */
  lemma LastAcknowledgement(u: World, f: nat, l: nat, n: Ballot, d: nat, q: set<nat>) returns (v: World)
    requires Pair(u, f, l) && |u.servers| % 2 == 1 && u.net(f, l) == [Accepted(n, d)]
    requires LeadingIn(u.servers[l], n) && u.servers[l].os.promised == n && |u.servers[l].acceptedIdx| == |u.servers|
    requires u.servers[l].os.decided < d <= |u.servers[l].os.log|
    requires 2 * |q| > |u.servers| && forall t :: t in q ==>
      t < |u.servers| && (t == f || u.servers[l].acceptedIdx[t] >= d)
    ensures Enabled(u, Deliver(f, l, ZERO_PROMISE)) && v == Apply(u, Deliver(f, l, ZERO_PROMISE))
    ensures Decided(u, v, f, l, u.servers[l].acceptedIdx[f := d], d)
  {
    MajorityAcknowledged(u.servers[l].acceptedIdx[f := d], q, d, |u.servers|);
    AcceptedTaken(u, f, l, ZERO_PROMISE);
    v := Apply(u, Deliver(f, l, ZERO_PROMISE));
  }

  /** Deciding: a command proposed to the leader, delivered to `f` and acknowledged, is decided by
      the leader, once the rest of a majority `q` has acknowledged as much; the leader hands it to
      its service at its position, and every promiser is told. */
  lemma Decides(w: World, f: nat, l: nat, n: Ballot, c: Command, q: set<nat>) returns (v: World)
    requires InStep(w, f, l, n)
    requires 2 * |q| > |w.servers| && forall t :: t in q ==>
      t < |w.servers| && (t == l || t == f || w.servers[l].acceptedIdx[t] > |w.servers[l].os.log|)
    ensures var st, st', st'' := Propose(l, c), Deliver(l, f, ZERO_PROMISE), Deliver(f, l, ZERO_PROMISE);
      && Enabled(w, st) && Enabled(Apply(w, st), st') && Enabled(Apply(Apply(w, st), st'), st'')
      && v == Apply(Apply(Apply(w, st), st'), st'')
    ensures var y, d := w.servers[l], |w.servers[l].os.log| + 1;
      && |v.servers| == |w.servers|
      && v.servers[l].os == y.os.(log := y.os.log + [c], decided := d)
      && |v.servers[l].applied| == |y.applied| + d - y.os.decided
      && v.servers[l].applied[|v.servers[l].applied| - 1] == ApplyMsg(c, d - 1)
      && v.servers[f].os.log == w.servers[f].os.log + [c]
      && v.net(l, f) == [Decide(n, d)]
  {
    var u := Replicates(w, f, l, n, c);
    var d := |w.servers[l].os.log| + 1;
    v := LastAcknowledgement(u, f, l, n, d, q);
  }
}
