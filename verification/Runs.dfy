/** Concrete runs of three servers, given by their steps. */
module Runs {
  import opened Ballots
  import opened Replica
  import opened Cluster

  /** The two conditions that make up `Guarded`, one at a time. */
  datatype Guard = OnPromises | OnReconnects

  predicate Keeps(g: Guard, w: World, st: Step)
    requires Enabled(w, st)
  {
    st.Deliver? ==>
      var m := w.net(st.src, st.dst)[0];
      match g
      case OnPromises => m.Promise? ==> LateHarmless(w, st.src, st.dst, m)
      case OnReconnects => m.Reconnected? ==> ReconnectHarmless(w, st.src, st.dst)
  }

  ghost predicate IsRunKeeping(g: Guard, ws: seq<World>, sts: seq<Step>) {
    && IsRun(ws, sts)
    && forall i {:trigger sts[i]} :: 0 <= i < |sts| ==> Keeps(g, ws[i], sts[i])
  }

  /** A run that keeps one of the conditions ends in `w`. */
  ghost predicate Reached(g: Guard, w: World) {
    exists ws, sts :: IsRunKeeping(g, ws, sts) && ws[|sts|] == w
  }

  lemma Longer(ws: seq<World>, sts: seq<Step>, st: Step)
    requires IsRun(ws, sts) && Enabled(ws[|sts|], st)
    ensures IsRun(ws + [Apply(ws[|sts|], st)], sts + [st])
  {
    var ws', sts' := ws + [Apply(ws[|sts|], st)], sts + [st];
    forall i | 0 <= i < |sts'| ensures Enabled(ws'[i], sts'[i]) && ws'[i + 1] == Apply(ws'[i], sts'[i]) {
      if i < |sts| {
        assert ws'[i] == ws[i] && sts'[i] == sts[i] && ws'[i + 1] == ws[i + 1];
      }
    }
  }

  lemma LongerKeeps(g: Guard, ws: seq<World>, sts: seq<Step>, st: Step)
    requires IsRunKeeping(g, ws, sts) && Enabled(ws[|sts|], st) && Keeps(g, ws[|sts|], st)
    ensures IsRunKeeping(g, ws + [Apply(ws[|sts|], st)], sts + [st])
  {
    var ws', sts' := ws + [Apply(ws[|sts|], st)], sts + [st];
    Longer(ws, sts, st);
    forall i | 0 <= i < |sts'| ensures Keeps(g, ws'[i], sts'[i]) {
      if i < |sts| {
        assert ws'[i] == ws[i] && sts'[i] == sts[i];
      }
    }
  }

  lemma Next(g: Guard, w: World, st: Step) returns (v: World)
    requires Reached(g, w) && Enabled(w, st) && Keeps(g, w, st)
    ensures v == Apply(w, st) && Reached(g, v)
  {
    var ws, sts :| IsRunKeeping(g, ws, sts) && ws[|sts|] == w;
    v := Apply(w, st);
    LongerKeeps(g, ws, sts, st);
    assert (ws + [v])[|sts + [st]|] == v;
  }

  const R1 := Ballot(0, 1)
  const R2 := Ballot(0, 2)
  const A: Command := 7
  const B: Command := 8

  /** What a state of a run says about a server. */
  datatype View = View(role: Role, phase: Phase, promised: Ballot, accepted: Ballot, log: seq<Command>, decided: nat)

  function V(s: Server): View {
    View(s.role, s.phase, s.os.promised, s.os.accepted, s.os.log, s.os.decided)
  }

  predicate Lead(s: Server, n: Ballot, promises: map<nat, Promised>, max: Promised, acks: seq<nat>) {
    s.currentRnd == n && s.promises == promises && s.maxProm == max && s.acceptedIdx == acks && s.buffer == []
  }

  predicate Candidate(s: Server, me: nat) {
    s.os.l == ZERO && s.b == Ballot(0, me) && s.qc
  }

  /** A timer round in which `s` hears one other ballot, and `n` is the greatest. */
  function Election(s: nat, heard: Ballot, n: Ballot): Step {
    Tick(s, map[heard := true], n)
  }

  lemma ElectionEnabled(w: World, s: nat, heard: Ballot, n: Ballot)
    requires |w.servers| == 3 && s < 3 && Candidate(w.servers[s], s)
    requires heard != Ballot(0, s) && (n == heard || n == Ballot(0, s))
    requires Leq(heard, n) && Leq(Ballot(0, s), n)
    ensures Enabled(w, Election(s, heard, n))
    ensures |map[heard := true][w.servers[s].b := w.servers[s].qc]| == 2
  {
    var bs := map[heard := true][Ballot(0, s) := true];
    assert bs.Keys == {heard, Ballot(0, s)};
    assert |bs| == |bs.Keys|;
    assert Candidates(bs) == {heard, Ballot(0, s)};
  }

  /** `v` is `w` after candidate `s` has begun to lead. */
  ghost predicate Elected(w: World, v: World, s: nat)
    requires |w.servers| == 3 && s < 3
  {
    var os, n := w.servers[s].os, Ballot(0, s);
    && |v.servers| == 3 && v.servers == w.servers[s := v.servers[s]]
    && V(v.servers[s]) == View(Leader, Preparing, n, os.accepted, os.log, os.decided)
    && Lead(v.servers[s], n, map[s := Promised(os.accepted, |os.log|, os.decided, Suffix(os.log, os.decided))],
            ZERO_PROMISE, [0, 0, 0])
    && forall a: nat, b: nat :: v.net(a, b) ==
         if a == s && b < 3 && b != s then w.net(a, b) + [Prepare(n, os.accepted, |os.log|, os.decided)] else w.net(a, b)
  }

  /** A candidate with a ballot above its promise begins to lead. */
  lemma Elect(g: Guard, w: World, s: nat) returns (v: World)
    requires Reached(g, w)
    requires |w.servers| == 3 && 0 < s < 3 && Candidate(w.servers[s], s) && Lt(w.servers[s].os.promised, Ballot(0, s))
    ensures Reached(g, v) && Elected(w, v, s)
  {
    var n := Ballot(0, s);
    ElectionEnabled(w, s, ZERO, n);
    v := Next(g, w, Election(s, ZERO, n));
    assert v == Commit(w, s, CheckLeader(s, 3, w.servers[s], n));
    assert Zeros(3) == [0, 0, 0];
  }

  lemma Count3(a: nat, b: nat, c: nat, v: nat)
    ensures CountAtLeast([a, b, c], v) ==
      (if a >= v then 1 else 0) + (if b >= v then 1 else 0) + (if c >= v then 1 else 0)
  {
    assert [a][..0] == [] && [a, b][..1] == [a] && [a, b, c][..2] == [a, b];
    assert CountAtLeast([a], v) == if a >= v then 1 else 0;
    assert CountAtLeast([a, b], v) == CountAtLeast([a], v) + if b >= v then 1 else 0;
  }

  /** An acknowledgement that two of three servers share decides. */
  lemma Decides(me: nat, s: Server, f: nat, v: nat, a: nat, b: nat, c: nat)
    requires s.role == Leader && s.phase == Accepting && SetAt(s.acceptedIdx, f, v) == [a, b, c] && v > s.os.decided
    requires (a >= v && b >= v) || (a >= v && c >= v) || (b >= v && c >= v)
    ensures OnAccepted(me, 3, s, f, s.os.promised, v) ==
      Outcome(AdvanceDecided(s.(acceptedIdx := [a, b, c]), v),
              map d | d in s.promises && d != me :: [Decide(s.currentRnd, v)])
  {
    Count3(a, b, c, v);
  }

  /** A late promise from a follower that has decided all the leader has. */
  lemma SentLate(s: Server, f: nat, accRnd: Ballot, decIdx: nat)
    requires s.os.decided <= decIdx
    ensures LatePromise(s, f, accRnd, decIdx).out ==
      SendTo(f, [AcceptSync(s.currentRnd, Suffix(s.os.log, LateSyncIdx(s, accRnd, decIdx)), LateSyncIdx(s, accRnd, decIdx))])
  {
    var m := AcceptSync(s.currentRnd, Suffix(s.os.log, LateSyncIdx(s, accRnd, decIdx)), LateSyncIdx(s, accRnd, decIdx));
    assert [m] + [] == [m];
  }

  /** There is a start state. */
  lemma StartExists() returns (w: World)
    ensures |w.servers| == 3 && Init(w) && Quiet(w.net)
    ensures forall g :: Reached(g, w)
  {
    w := World([Boot(0, 3, EMPTY_DISK), Boot(1, 3, EMPTY_DISK), Boot(2, 3, EMPTY_DISK)], (a, b) => []);
    var ws, sts: seq<Step> := [w], [];
    assert Init(w) && Quiet(w.net);
    assert IsRun(ws, sts);
    assert forall g :: IsRunKeeping(g, ws, sts) && ws[|sts|] == w;
  }
}
