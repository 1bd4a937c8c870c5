/** The server as the object it is: fields updated in place by handlers that each run under
    the server's lock.  Every method is proved to take the abstract state through the
    corresponding function of `Replica`, and to send what that function sends.  The scans
    and sending loops range over Go maps, whose order is left open. */
module Handlers {
  import opened Ballots
  import opened Replica

  /** The promise a scan can pick exists. */
  lemma {:induction false} MaxPromiseExists(promises: map<nat, Promised>) returns (m: Promised)
    ensures IsMaxPromise(promises, m)
    decreases |promises|
  {
    if promises == map[] {
      m := NO_PROMISE;
    } else {
      var f :| f in promises;
      var rest := promises - {f};
      assert promises.Keys == rest.Keys + {f};
      assert |rest.Keys| < |promises.Keys|;
      m := MaxPromiseExists(rest);
      if Better(promises[f], m) {
        m := promises[f];
      }
    }
  }

  /** A ballot of server `p` is among those heard. */
  predicate HeardIn(ballots: map<Ballot, bool>, p: int) {
    exists x :: x in ballots && x.pid == p
  }

  class OmniPaxos {
    const me: nat
    const peers: nat

    var os: Stable
    var persister: Stable
    var role: Role
    var phase: Phase
    var currentRnd: Ballot
    var promises: map<nat, Promised>
    var maxProm: Promised
    var accepted: seq<nat>
    var buffer: seq<Command>
    var b: Ballot
    var qc: bool
    var ballots: map<Ballot, bool>
    var r: int
    var missedHbCounts: map<int, nat>
    var restartLoop: nat
    /** Everything sent on the apply channel so far. */
    var applyCh: seq<ApplyMsg>

    /** The abstract state. */
    ghost function State(): Server
      reads this
    {
      Server(os, persister, role, phase, currentRnd, promises, maxProm, accepted, buffer, b, qc, applyCh)
    }

    constructor Make(me: nat, peers: nat, persister: Stable)
      requires persister.decided <= |persister.log|
      ensures this.me == me && this.peers == peers
      ensures State() == Boot(me, peers, persister)
      ensures ballots == map[] && r == 0 && missedHbCounts == map[] && restartLoop == 0
    {
      this.me := me;
      this.peers := peers;
      this.persister := persister;
      qc := true;
      r := 0;
      b := Ballot(0, me);
      ballots := map[];
      missedHbCounts := map[];
      restartLoop := 0;
      accepted := Zeros(peers);
      promises := map[];
      maxProm := ZERO_PROMISE;
      currentRnd := ZERO;
      buffer := [];
      role := Follower;
      phase := Preparing;
      os := persister;
      applyCh := [];
      new;
      AddToApplyChan(os.log, 0, os.decided);
    }

    method Persist()
      modifies this`persister
      ensures State() == Replica.Persist(old(State()))
    {
      persister := os;
    }

    method AddToApplyChan(log: seq<Command>, from: nat, to: nat)
      requires from <= to <= |log|
      modifies this`applyCh
      ensures applyCh == old(applyCh) + Entries(log, from, to)
    {
      var i := from;
      while i < to
        invariant from <= i <= to
        invariant applyCh + Entries(log, i, to) == old(applyCh) + Entries(log, from, to)
      {
        applyCh := applyCh + [ApplyMsg(log[i], i)];
        i := i + 1;
      }
      assert Entries(log, to, to) == [];
    }

    // ---------- sending ----------

    /** `m` to every other server. */
    method ToPeers(m: Msg) returns (out: Outbox)
      ensures out == map d | d in Ids(peers) && d != me :: [m]
    {
      out := map[];
      var peer := 0;
      while peer < peers
        invariant peer <= peers
        invariant forall d: nat :: d in out <==> d < peer && d != me
        invariant forall d: nat :: d in out ==> out[d] == [m]
      {
        if peer != me {
          out := out[peer := [m]];
        }
        peer := peer + 1;
      }
    }

    /** `m` to every other server that promised. */
    method ToPromisers(m: Msg) returns (out: Outbox)
      ensures out == map d | d in promises && d != me :: [m]
    {
      out := map[];
      var rest := promises.Keys;
      while rest != {}
        invariant rest <= promises.Keys
        invariant out == map d | d in promises.Keys - rest && d != me :: [m]
        decreases |rest|
      {
        var f :| f in rest;
        rest := rest - {f};
        if f != me {
          out := out[f := [m]];
        }
      }
    }

    /** To every other server that promised, the part of the log it misses. */
    method SyncPromisers() returns (out: Outbox)
      ensures out == map f | f in promises && f != me ::
                [AcceptSync(currentRnd, Suffix(os.log, SyncIdx(promises[f], maxProm)), SyncIdx(promises[f], maxProm))]
    {
      out := map[];
      var rest := promises.Keys;
      while rest != {}
        invariant rest <= promises.Keys
        invariant out == map f | f in promises && f !in rest && f != me ::
                    [AcceptSync(currentRnd, Suffix(os.log, SyncIdx(promises[f], maxProm)), SyncIdx(promises[f], maxProm))]
        decreases |rest|
      {
        var f :| f in rest;
        rest := rest - {f};
        var syncIdx: nat;
        if promises[f].accRnd == maxProm.accRnd {
          syncIdx := promises[f].logIdx;
        } else {
          syncIdx := promises[f].decIdx;
        }
        if f != me {
          out := out[f := [AcceptSync(currentRnd, Suffix(os.log, syncIdx), syncIdx)]];
        }
      }
    }

    // ---------- ballot leader election ----------

    method CandidateBallots() returns (candidates: set<Ballot>)
      ensures candidates == Candidates(ballots)
    {
      candidates := {};
      var rest := ballots.Keys;
      while rest != {}
        invariant rest <= ballots.Keys
        invariant candidates == set x | x in ballots && x !in rest && ballots[x]
        decreases |rest|
      {
        var x :| x in rest;
        rest := rest - {x};
        if ballots[x] {
          candidates := candidates + {x};
        }
      }
    }

    /** The reset of the leader's state and its own promise. */
    method BeginRound(n: Ballot)
      requires |accepted| == peers
      modifies this`accepted, this`promises, this`maxProm, this`buffer, this`qc, this`role, this`phase,
               this`currentRnd, this`os
      ensures accepted == Zeros(peers) && maxProm == ZERO_PROMISE && buffer == [] && qc
      ensures role == Leader && phase == Preparing && currentRnd == n && os == old(os).(promised := n)
      ensures promises == map[me := Promised(os.accepted, |os.log|, os.decided, Suffix(os.log, os.decided))]
    {
      accepted := Zeros(|accepted|);
      maxProm := ZERO_PROMISE;
      buffer := [];
      qc := true;
      role, phase := Leader, Preparing;
      currentRnd := n;
      os := os.(promised := n);
      promises := map[me := Promised(os.accepted, |os.log|, os.decided, Suffix(os.log, os.decided))];
    }

    method TriggerLeader(s: int, n: Ballot) returns (out: Outbox)
      requires |accepted| == peers
      modifies this`accepted, this`promises, this`maxProm, this`buffer, this`qc, this`role,
               this`phase, this`currentRnd, this`os, this`persister
      ensures (var o := Replica.TriggerLeader(me, peers, old(State()), s, n); State() == o.s && out == o.out)
    {
      out := map[];
      if !(s == me && Compare(n, os.promised) > 0) {
        role := Follower;
        return;
      }
      BeginRound(n);
      out := ToPeers(Prepare(currentRnd, os.accepted, |os.log|, os.decided));
      Persist();
    }

    method CheckLeader() returns (out: Outbox, max: Ballot)
      requires |accepted| == peers
      modifies this`accepted, this`promises, this`maxProm, this`buffer, this`qc, this`role,
               this`phase, this`currentRnd, this`os, this`persister, this`b
      ensures IsMaxBallot(Candidates(old(ballots)), max)
      ensures (var o := Replica.CheckLeader(me, peers, old(State()), max); State() == o.s && out == o.out)
    {
      out := map[];
      var candidates := CandidateBallots();
      max := MaxBallot(candidates);
      if Compare(max, os.l) < 0 {
        b := b.(n := os.l.n + 1);
        qc := true;
      } else if Compare(max, os.l) > 0 {
        os := os.(l := max);
        Persist();
        out := TriggerLeader(max.pid, max);
      }
    }

    /** How many rounds in a row nothing was heard of `p`. */
    function Missed(p: int): nat
      reads this
    {
      if p in missedHbCounts then missedHbCounts[p] else 0
    }

    /** A ballot of the other server `p` arrived in this round. */
    predicate Heard(p: int)
      reads this
    {
      p != me && HeardIn(ballots, p)
    }

    /** Forgets the misses of the servers heard of; a leader sends a notice to those that it had
        missed for more than three rounds. */
    method NoticeHeard() returns (notices: set<int>)
      modifies this`missedHbCounts
      ensures forall p :: p in notices <==> Heard(p) && old(Missed(p)) > 3 && os.l.pid == me
      ensures forall p :: Missed(p) == if Heard(p) then 0 else old(Missed(p))
    {
      notices := {};
      var rest := ballots.Keys;
      ghost var seen := {};
      while rest != {}
        invariant rest <= ballots.Keys
        invariant forall p :: p in seen <==> p != me && exists x :: x in ballots && x !in rest && x.pid == p
        invariant forall p :: p in notices <==> p in seen && old(Missed(p)) > 3 && os.l.pid == me
        invariant forall p :: Missed(p) == if p in seen then 0 else old(Missed(p))
        decreases |rest|
      {
        var x :| x in rest;
        rest := rest - {x};
        if x.pid != me {
          if Missed(x.pid) > 3 && me == os.l.pid {
            notices := notices + {x.pid};
          }
          missedHbCounts := missedHbCounts[x.pid := 0];
          seen := seen + {x.pid};
        }
      }
      assert forall p :: p in seen <==> Heard(p);
    }

    /** Counts the misses of the servers not heard of. */
    method CountMissed(ghost heard: iset<int>)
      requires forall p :: p in heard <==> Heard(p)
      modifies this`missedHbCounts
      ensures forall p :: Missed(p) ==
                old(Missed(p)) + if 0 <= p < peers && p != me && p !in heard then 1 else 0
    {
      var p := 0;
      while p < peers
        invariant p <= peers
        invariant forall k :: Missed(k) ==
                    old(Missed(k)) + if 0 <= k < p && k != me && k !in heard then 1 else 0
      {
        if p != me && !HeardIn(ballots, p) {
          missedHbCounts := missedHbCounts[p := Missed(p) + 1];
        }
        p := p + 1;
      }
    }

    /** The end of a timer round: whom to tell that its session was renewed, and whether to ask
        all servers for their rounds, once after a start. */
    method UpdateMissedHbsAndReconnect() returns (notices: set<int>, ask: bool)
      modifies this`missedHbCounts, this`restartLoop
      ensures forall p :: p in notices <==> Heard(p) && old(Missed(p)) > 3 && os.l.pid == me
      ensures forall p :: Missed(p) ==
                if Heard(p) then 0 else old(Missed(p)) + if 0 <= p < peers && p != me then 1 else 0
      ensures restartLoop == old(restartLoop) + 1 && ask == (restartLoop == 2)
    {
      notices := NoticeHeard();
      CountMissed(iset p | Heard(p));
      restartLoop := restartLoop + 1;
      ask := restartLoop == 2;
    }

    /** The election part of a timer round. */
    method Elect() returns (out: Outbox, ghost max: Ballot)
      requires |accepted| == peers
      modifies this`accepted, this`promises, this`maxProm, this`buffer, this`qc, this`role, this`phase,
               this`currentRnd, this`os, this`persister, this`b, this`ballots
      ensures IsMaxBallot(Candidates(old(ballots)[old(b) := old(qc)]), max)
      ensures (var o := OnTick(me, peers, old(State()), old(ballots), max); State() == o.s && out == o.out)
      ensures ballots == old(ballots)[old(b) := old(qc)]
    {
      out := map[];
      ballots := ballots[b := qc];
      if |ballots| >= (peers + 1) / 2 {
        out, max := CheckLeader();
      } else {
        max := GreatestExists(Candidates(ballots));
        qc := false;
      }
    }

    /** The locked part of one timer round.  It is a tick step, followed by a `Reconnect` step
        for every notice, which only an elected server sends, and an `AskPrepare` step. */
    method TimerRound() returns (out: Outbox, notices: set<int>, ask: bool, ghost max: Ballot)
      requires |accepted| == peers
      modifies this
      ensures IsMaxBallot(Candidates(old(ballots)[old(b) := old(qc)]), max)
      ensures (var o := OnTick(me, peers, old(State()), old(ballots), max); State() == o.s && out == o.out)
      ensures ballots == map[] && r == old(r) + 1
      ensures forall p :: p in notices <==>
                os.l.pid == me && p != me && old(Missed(p)) > 3 && HeardIn(old(ballots)[old(b) := old(qc)], p)
      ensures restartLoop == old(restartLoop) + 1 && ask == (restartLoop == 2)
    {
      out, max := Elect();
      notices, ask := UpdateMissedHbsAndReconnect();
      ballots := map[];
      r := r + 1;
    }

    // ---------- sequence paxos ----------

    method Proposal(c: Command) returns (out: Outbox, index: int, ballot: int, isLeader: bool)
      requires me < |accepted|
      modifies this`buffer, this`os, this`accepted, this`persister
      ensures (var o := OnPropose(me, old(State()), c); State() == o.s && out == o.out)
      ensures isLeader == (old(role) == Leader && old(os).l.pid == me)
      ensures role == Leader && phase != Recovering ==> index == |os.log| - 1 && ballot == os.l.n
      ensures role == Follower ==> index == -1 && ballot == -1
    {
      out, index, ballot := map[], -1, -1;
      isLeader := role == Leader && os.l.pid == me;
      if role == Leader && phase == Preparing {
        buffer := buffer + [c];
        index, ballot := |os.log| - 1, os.l.n;
      } else if role == Leader && phase == Accepting {
        os := os.(log := os.log + [c]);
        accepted := accepted[me := |os.log|];
        Persist();
        out := ToPromisers(Accept(currentRnd, |os.log|, c));
        index, ballot := |os.log| - 1, os.l.n;
      }
    }

    method PrepareHandler(l: nat, n: Ballot, accRnd: Ballot, logIdx: nat, decIdx: nat) returns (out: Outbox)
      modifies this`role, this`phase, this`os, this`persister
      ensures (var o := OnPrepare(old(State()), l, n, accRnd, logIdx, decIdx); State() == o.s && out == o.out)
    {
      out := map[];
      if Compare(os.promised, n) > 0 {
        return;
      }
      role, phase := Follower, Preparing;
      os := os.(promised := n);
      Persist();
      var sfx: seq<Command>;
      if Compare(os.accepted, accRnd) > 0 {
        sfx := Suffix(os.log, decIdx);
      } else if Compare(os.accepted, accRnd) == 0 {
        sfx := Suffix(os.log, logIdx);
      } else {
        sfx := [];
      }
      out := SendTo(l, [Promise(n, os.accepted, |os.log|, os.decided, sfx)]);
    }

    method MaxPromise() returns (max: Promised)
      ensures IsMaxPromise(promises, max)
    {
      max := NO_PROMISE;
      var rest := promises.Keys;
      while rest != {}
        invariant rest <= promises.Keys
        invariant max == NO_PROMISE || exists f :: f in promises && promises[f] == max
        invariant forall f :: f in promises && f !in rest ==> !Better(promises[f], max)
        decreases |rest|
      {
        var f :| f in rest;
        rest := rest - {f};
        if Compare(promises[f].accRnd, max.accRnd) > 0
           || (promises[f].accRnd == max.accRnd && promises[f].logIdx > max.logIdx) {
          max := promises[f];
        }
      }
    }

    /** The leader's new log and its entry into the accept phase. */
    method AdoptLog(max: Promised)
      requires me < |accepted| && role == Leader
      modifies this`maxProm, this`os, this`accepted, this`role, this`phase
      ensures State() == old(State()).(
                maxProm := max,
                os := old(os).(log := AdoptedLog(old(State()), max), accepted := old(currentRnd)),
                acceptedIdx := SetAt(old(accepted), me, |AdoptedLog(old(State()), max)|),
                phase := Accepting)
    {
      maxProm := max;
      if maxProm.accRnd != os.accepted {
        os := os.(log := Prefix(os.log, os.decided));
      }
      os := os.(log := os.log + maxProm.log);
      os := os.(log := os.log + buffer);
      os := os.(accepted := currentRnd);
      accepted := accepted[me := |os.log|];
      role, phase := Leader, Accepting;
    }

    /** Steps P2 to P6 of a promise that completes a majority. */
    method BecomeAccepting() returns (out: Outbox, max: Promised)
      requires me < |accepted| && role == Leader
      modifies this`maxProm, this`os, this`accepted, this`role, this`phase, this`persister
      ensures IsMaxPromise(old(promises), max)
      ensures (var o := EnterAccept(me, old(State()), max); State() == o.s && out == o.out)
    {
      out := map[];
      max := MaxPromise();
      AdoptLog(max);
      out := SyncPromisers();
      Persist();
    }

    method PromiseHandler(f: nat, n: Ballot, accRnd: Ballot, logIdx: nat, decIdx: nat, sfx: seq<Command>)
      returns (out: Outbox, ghost max: Promised)
      requires me < |accepted|
      modifies this`promises, this`maxProm, this`os, this`accepted, this`role, this`phase, this`persister
      ensures IsMaxPromise(old(promises)[f := Promised(accRnd, logIdx, decIdx, sfx)], max)
      ensures (var o := OnPromise(me, peers, old(State()), f, n, Promised(accRnd, logIdx, decIdx, sfx), max);
               State() == o.s && out == o.out)
    {
      out := map[];
      ghost var filed := promises[f := Promised(accRnd, logIdx, decIdx, sfx)];
      max := MaxPromiseExists(filed);
      if Compare(n, currentRnd) != 0 {
        return;
      }
      promises := promises[f := Promised(accRnd, logIdx, decIdx, sfx)];
      if role != Leader {
        return;
      }
      if phase == Preparing {
        if |promises| < (peers + 1) / 2 {
          return;
        }
        out, max := BecomeAccepting();
        return;
      } else if phase == Accepting {
        var syncIdx: nat;
        if accRnd == maxProm.accRnd {
          syncIdx := maxProm.logIdx;
        } else {
          syncIdx := decIdx;
        }
        var msgs := [AcceptSync(currentRnd, Suffix(os.log, syncIdx), syncIdx)];
        if os.decided > decIdx {
          msgs := msgs + [Decide(currentRnd, os.decided)];
        }
        assert msgs == [msgs[0]] + if os.decided > decIdx then [Decide(currentRnd, os.decided)] else [];
        out := SendTo(f, msgs);
      }
      Persist();
    }

    method AcceptSyncHandler(l: nat, n: Ballot, sfx: seq<Command>, syncIdx: nat) returns (out: Outbox)
      modifies this`os, this`role, this`phase, this`persister
      ensures (var o := OnAcceptSync(old(State()), l, n, sfx, syncIdx); State() == o.s && out == o.out)
    {
      out := map[];
      if Compare(os.promised, n) != 0 || !(role == Follower && phase == Preparing) {
        return;
      }
      os := os.(accepted := n);
      role, phase := Follower, Accepting;
      os := os.(log := Prefix(os.log, syncIdx));
      os := os.(log := os.log + sfx);
      Persist();
      out := SendTo(l, [Accepted(n, |os.log|)]);
    }

    method AcceptHandler(l: nat, n: Ballot, c: Command) returns (out: Outbox)
      modifies this`os, this`persister
      ensures (var o := OnAccept(old(State()), l, n, c); State() == o.s && out == o.out)
    {
      out := map[];
      if Compare(os.promised, n) != 0 || !(role == Follower && phase == Accepting) {
        return;
      }
      os := os.(log := os.log + [c]);
      Persist();
      out := SendTo(l, [Accepted(n, |os.log|)]);
    }

    method DecideHandler(n: Ballot, decIdx: nat)
      modifies this`applyCh, this`os, this`persister
      ensures State() == OnDecide(old(State()), n, decIdx).s && OnDecide(old(State()), n, decIdx).out == map[]
    {
      if decIdx <= os.decided {
        return;
      }
      if decIdx > |os.log| {
        return;
      }
      if Compare(os.promised, n) == 0 && role == Follower && phase == Accepting {
        AddToApplyChan(os.log, os.decided, decIdx);
        os := os.(decided := decIdx);
        Persist();
      }
    }

    method HasMajorityAccepted(v: nat) returns (yes: bool)
      ensures yes == (CountAtLeast(accepted, v) >= Threshold(peers))
    {
      var acceptedCount := 0;
      var i := 0;
      while i < |accepted|
        invariant i <= |accepted| && acceptedCount == CountAtLeast(accepted[..i], v)
      {
        assert accepted[..i + 1][..i] == accepted[..i];
        if accepted[i] >= v {
          acceptedCount := acceptedCount + 1;
        }
        i := i + 1;
      }
      assert accepted[..i] == accepted;
      return acceptedCount >= (peers + 1) / 2;
    }

    /** The leader decides its first `end` entries and announces it. */
    method DecideUpTo(end: nat) returns (out: Outbox)
      requires os.decided <= end <= |os.log|
      modifies this`os, this`persister, this`applyCh
      ensures State() == AdvanceDecided(old(State()), end)
      ensures out == map d | d in promises && d != me :: [Decide(currentRnd, end)]
    {
      AddToApplyChan(os.log, os.decided, end);
      os := os.(decided := end);
      Persist();
      out := ToPromisers(Decide(currentRnd, os.decided));
    }

    /** The acknowledgement would decide entries that the leader does not have. */
    ghost predicate RunsOff(f: nat, n: Ballot, logIdx: nat)
      reads this
    {
      && os.promised == n && role == Leader && phase == Accepting && logIdx > os.decided && logIdx > |os.log|
      && CountAtLeast(SetAt(accepted, f, logIdx), logIdx) >= Threshold(peers)
    }

    /** `panics` where the code would stop with an index error; in guarded runs this does not
        happen (`Agreement.AcknowledgedInRange`). */
    method AcceptedHandler(f: nat, n: Ballot, logIdx: nat) returns (out: Outbox, panics: bool)
      requires f < |accepted|
      modifies this`accepted, this`applyCh, this`os, this`persister
      ensures panics == old(RunsOff(f, n, logIdx))
      ensures !panics ==>
        (var o := OnAccepted(me, peers, old(State()), f, n, logIdx); State() == o.s && out == o.out)
    {
      out, panics := map[], false;
      if Compare(os.promised, n) != 0 || !(role == Leader && phase == Accepting) {
        return;
      }
      accepted := accepted[f := logIdx];
      var majority := HasMajorityAccepted(logIdx);
      if logIdx > os.decided && majority {
        if logIdx > |os.log| {
          return map[], true;
        }
        out := DecideUpTo(logIdx);
      }
    }

    // ---------- recovery ----------

    method ReconnectedHandler(f: nat) returns (out: Outbox)
      modifies this`role, this`phase
      ensures (var o := OnReconnected(old(State()), f); State() == o.s && out == o.out)
    {
      if f == os.l.pid {
        role, phase := Follower, Recovering;
      }
      out := SendTo(f, [PrepareReq]);
    }

    method PrepareReqHandler(f: nat) returns (out: Outbox)
      ensures (var o := OnPrepareReq(State(), f); o.s == State() && out == o.out)
    {
      out := map[];
      if role != Leader {
        return;
      }
      out := SendTo(f, [Prepare(currentRnd, os.accepted, |os.log|, os.decided)]);
    }
  }

  /** Every set of candidates has a greatest ballot in the sense of the scan. */
  lemma {:induction false} GreatestExists(s: set<Ballot>) returns (m: Ballot)
    ensures IsMaxBallot(s, m)
  {
    if s == {} {
      m := NO_BALLOT;
    } else {
      var x :| x in s;
      m := GreatestExists(s - {x});
      assert s == (s - {x}) + {x};
      if Lt(m, x) {
        m := x;
      }
    }
  }
}
