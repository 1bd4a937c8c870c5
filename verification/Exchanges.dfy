/** What servers say to each other, message by message, in any state whatever: each lemma writes
    out the new state of the server that acts and what every queue holds afterwards. */
module Exchanges {
  import opened Ballots
  import opened Replica
  import opened Cluster

  /** From `w` to `v`, server `dst` took the first message from `src`, is now `x`, and sent
      `reply` back; nothing else happened. */
  ghost predicate Took(w: World, v: World, src: nat, dst: nat, x: Server, reply: seq<Msg>)
    requires dst < |w.servers| && w.net(src, dst) != []
  {
    && v.servers == w.servers[dst := x]
    && forall a: nat, b: nat :: v.net(a, b) ==
         if a == src && b == dst then w.net(src, dst)[1..]
         else if a == dst && b == src then w.net(dst, src) + reply
         else w.net(a, b)
  }

  predicate Pair(w: World, a: nat, b: nat) {
    a < |w.servers| && b < |w.servers| && a != b
  }

  /** Storage written along with the state. */
  function Saved(s: Server, os: Stable): Server {
    s.(os := os, disk := os)
  }

  // ---------- prepare and promise ----------

  /** A leader answers a request to prepare with its round, what it accepted last, the length of
      its log and its decided index; any other server is silent. */
  lemma PrepareReqAnswered(w: World, f: nat, l: nat, max: Promised)
    requires Pair(w, f, l) && w.net(f, l) != [] && w.net(f, l)[0].PrepareReq?
    ensures Enabled(w, Deliver(f, l, max))
    ensures var x := w.servers[l];
      Took(w, Apply(w, Deliver(f, l, max)), f, l, x,
           if x.role == Leader then [Prepare(x.currentRnd, x.os.accepted, |x.os.log|, x.os.decided)] else [])
  {
  }

  /** What a follower adds to its promise: its log from the leader's decided index on if it
      accepted in a later round than the leader, what it has beyond the leader's log if in the
      same one, nothing otherwise. */
  function PromisedPart(os: Stable, accRnd: Ballot, logIdx: nat, decIdx: nat): seq<Command> {
    if Lt(accRnd, os.accepted) then (if decIdx <= |os.log| then os.log[decIdx..] else [])
    else if os.accepted == accRnd then (if logIdx <= |os.log| then os.log[logIdx..] else [])
    else []
  }

  /** A server promises every round that is not below the one it promised. */
  lemma PrepareAnswered(w: World, l: nat, f: nat, max: Promised)
    requires Pair(w, l, f) && w.net(l, f) != [] && w.net(l, f)[0].Prepare?
    ensures Enabled(w, Deliver(l, f, max))
    ensures var x, m := w.servers[f], w.net(l, f)[0];
      if Lt(m.n, x.os.promised) then Took(w, Apply(w, Deliver(l, f, max)), l, f, x, [])
      else Took(w, Apply(w, Deliver(l, f, max)), l, f,
                Saved(x.(role := Follower, phase := Preparing), x.os.(promised := m.n)),
                [Promise(m.n, x.os.accepted, |x.os.log|, x.os.decided,
                         PromisedPart(x.os, m.accRnd, m.logIdx, m.decIdx))])
  {
  }

  /** The promise a message carries. */
  function PromiseIn(m: Msg): Promised
    requires m.Promise?
  {
    Promised(m.accRnd, m.logIdx, m.decIdx, m.sfx)
  }

  /** A promise for another round is ignored; one that does not complete a majority is filed. */
  lemma PromiseFiled(w: World, f: nat, l: nat, max: Promised)
    requires Pair(w, f, l) && w.net(f, l) != [] && w.net(f, l)[0].Promise? && Enabled(w, Deliver(f, l, max))
    ensures var x, m := w.servers[l], w.net(f, l)[0];
      && (m.n != x.currentRnd ==> Took(w, Apply(w, Deliver(f, l, max)), f, l, x, []))
      && (m.n == x.currentRnd && x.role == Leader && x.phase == Preparing
          && 2 * |x.promises[f := PromiseIn(m)]| < |w.servers| ==>
            Took(w, Apply(w, Deliver(f, l, max)), f, l, x.(promises := x.promises[f := PromiseIn(m)]), []))
  {
  }

  /** From where on a promiser is sent the leader's log: its own log's end if it accepted last in
      the same round as the adopted promise, its decided index otherwise. */
  function ServedFrom(p: Promised, max: Promised): nat {
    if p.accRnd == max.accRnd then p.logIdx else p.decIdx
  }

  function From(log: seq<Command>, idx: nat): seq<Command> {
    if idx <= |log| then log[idx..] else []
  }

  /** A promise that completes a majority takes the leader into its accept phase, in its own
      round, and every other promiser is sent the part of the new log it lacks. */
  lemma MajorityEnters(w: World, f: nat, l: nat, max: Promised)
    requires Pair(w, f, l) && w.net(f, l) != [] && w.net(f, l)[0].Promise? && Enabled(w, Deliver(f, l, max))
    requires w.net(f, l)[0].n == w.servers[l].currentRnd && w.servers[l].role == Leader && w.servers[l].phase == Preparing
    requires 2 * |w.servers[l].promises[f := PromiseIn(w.net(f, l)[0])]| > |w.servers| && |w.servers| % 2 == 1
    requires l < |w.servers[l].acceptedIdx|
    ensures var x, v := w.servers[l], Apply(w, Deliver(f, l, max));
      var y, ps := v.servers[l], x.promises[f := PromiseIn(w.net(f, l)[0])];
      && v.servers == w.servers[l := y]
      && y.role == Leader && y.phase == Accepting && y.currentRnd == x.currentRnd && y.promises == ps && y.maxProm == max
      && y.os == x.os.(log := y.os.log, accepted := x.currentRnd) && y.disk == y.os
      && y.acceptedIdx == x.acceptedIdx[l := |y.os.log|]
      && (forall d: nat :: v.net(l, d) ==
            if d in ps && d != l then
              w.net(l, d) + [AcceptSync(x.currentRnd, From(y.os.log, ServedFrom(ps[d], max)), ServedFrom(ps[d], max))]
            else w.net(l, d))
      && (forall a: nat, b: nat :: a != l ==> v.net(a, b) == if a == f && b == l then w.net(f, l)[1..] else w.net(a, b))
  {
  }

  /** A promise that comes late is answered with the part of the log it lacks, counted from the
      adopted promise if both accepted last in the same round, and, if its sender has decided
      less than the leader, with the leader's decided index. */
  lemma LatePromiseAnswered(w: World, f: nat, l: nat, max: Promised)
    requires Pair(w, f, l) && w.net(f, l) != [] && w.net(f, l)[0].Promise? && Enabled(w, Deliver(f, l, max))
    requires LeadingIn(w.servers[l], w.net(f, l)[0].n)
    ensures var x, m := w.servers[l], w.net(f, l)[0];
      var idx := if m.accRnd == x.maxProm.accRnd then x.maxProm.logIdx else m.decIdx;
      Took(w, Apply(w, Deliver(f, l, max)), f, l, Saved(x.(promises := x.promises[f := PromiseIn(m)]), x.os),
           if m.decIdx < x.os.decided then [AcceptSync(m.n, From(x.os.log, idx), idx), Decide(m.n, x.os.decided)]
           else [AcceptSync(m.n, From(x.os.log, idx), idx)])
  {
    var x, m := w.servers[l], w.net(f, l)[0];
    var idx := if m.accRnd == x.maxProm.accRnd then x.maxProm.logIdx else m.decIdx;
    assert [AcceptSync(m.n, From(x.os.log, idx), idx)] + [] == [AcceptSync(m.n, From(x.os.log, idx), idx)];
  }

  // ---------- entries ----------

  /** A follower that waits for it takes the piece: the start of its own log, followed by the
      piece.  It acknowledges the length. */
  lemma SyncTaken(w: World, l: nat, f: nat, max: Promised)
    requires Pair(w, l, f) && w.net(l, f) != [] && w.net(l, f)[0].AcceptSync?
    ensures Enabled(w, Deliver(l, f, max))
    ensures var x, m := w.servers[f], w.net(l, f)[0];
      var log := (if m.syncIdx <= |x.os.log| then x.os.log[..m.syncIdx] else x.os.log) + m.sfx;
      if x.os.promised == m.n && x.role == Follower && x.phase == Preparing then
        Took(w, Apply(w, Deliver(l, f, max)), l, f,
             Saved(x.(phase := Accepting), x.os.(accepted := m.n, log := log)), [Accepted(m.n, |log|)])
      else Took(w, Apply(w, Deliver(l, f, max)), l, f, x, [])
  {
  }

  /** A follower in its accept phase appends the entry and acknowledges the length. */
  lemma AcceptTaken(w: World, l: nat, f: nat, max: Promised)
    requires Pair(w, l, f) && w.net(l, f) != [] && w.net(l, f)[0].Accept?
    ensures Enabled(w, Deliver(l, f, max))
    ensures var x, m := w.servers[f], w.net(l, f)[0];
      if x.os.promised == m.n && x.role == Follower && x.phase == Accepting then
        Took(w, Apply(w, Deliver(l, f, max)), l, f, Saved(x, x.os.(log := x.os.log + [m.c])),
             [Accepted(m.n, |x.os.log| + 1)])
      else Took(w, Apply(w, Deliver(l, f, max)), l, f, x, [])
  {
  }

  /** The servers that acknowledged at least `v` entries. */
  function Acknowledged(acks: seq<nat>, v: nat): (q: set<nat>)
    ensures forall s: nat :: s in q <==> s < |acks| && acks[s] >= v
  {
    set s | 0 <= s < |acks| && acks[s] >= v
  }

  lemma {:induction false} CountIsSize(acks: seq<nat>, v: nat)
    ensures CountAtLeast(acks, v) == |Acknowledged(acks, v)|
  {
    if acks != [] {
      var init, last := acks[..|acks| - 1], |acks| - 1;
      CountIsSize(init, v);
      assert Acknowledged(acks, v) == if acks[last] >= v then Acknowledged(init, v) + {last} else Acknowledged(init, v);
    }
  }

  /** Between `x` and `y` the service was handed the entries of `x` up to position `end`. */
  ghost predicate HandedUpTo(x: Server, y: Server, end: nat)
    requires x.os.decided <= end <= |x.os.log|
  {
    && x.applied <= y.applied && |y.applied| == |x.applied| + end - x.os.decided
    && forall k {:trigger y.applied[k]} :: |x.applied| <= k < |y.applied| ==>
         y.applied[k] == ApplyMsg(x.os.log[x.os.decided + k - |x.applied|], x.os.decided + k - |x.applied|)
  }

  /** From `w` to `v` leader `l` has filed the acknowledgements `acks`, decided `d`, handed over
      what was not decided, and told every other promiser. */
  ghost predicate Decided(w: World, v: World, f: nat, l: nat, acks: seq<nat>, d: nat)
    requires f < |w.servers| && l < |w.servers| && w.net(f, l) != []
    requires w.servers[l].os.decided <= d <= |w.servers[l].os.log|
  {
    var x, y := w.servers[l], if |v.servers| == |w.servers| then v.servers[l] else w.servers[l];
    && v.servers == w.servers[l := y]
    && y.os == x.os.(decided := d) && y.disk == y.os && y.acceptedIdx == acks && HandedUpTo(x, y, d)
    && LeadingIn(y, x.currentRnd) && y.promises == x.promises
    && (forall t: nat :: v.net(l, t) ==
          if t in x.promises && t != l then w.net(l, t) + [Decide(x.currentRnd, d)] else w.net(l, t))
    && (forall a: nat, b: nat :: a != l ==> v.net(a, b) == if a == f && b == l then w.net(f, l)[1..] else w.net(a, b))
  }

  lemma MajorityDecides(w: World, f: nat, l: nat, max: Promised)
    requires Pair(w, f, l) && w.net(f, l) != [] && w.net(f, l)[0].Accepted?
    requires LeadingIn(w.servers[l], w.net(f, l)[0].n) && w.servers[l].os.promised == w.net(f, l)[0].n
    requires f < |w.servers[l].acceptedIdx| && w.servers[l].os.decided < w.net(f, l)[0].logIdx <= |w.servers[l].os.log|
    requires var d := w.net(f, l)[0].logIdx; CountAtLeast(w.servers[l].acceptedIdx[f := d], d) >= Threshold(|w.servers|)
    ensures var d := w.net(f, l)[0].logIdx;
      Decided(w, Apply(w, Deliver(f, l, max)), f, l, w.servers[l].acceptedIdx[f := d], d)
  {
    var x, d := w.servers[l], w.net(f, l)[0].logIdx;
    assert SetAt(x.acceptedIdx, f, d) == x.acceptedIdx[f := d];
  }

  lemma AcknowledgementFiled(w: World, f: nat, l: nat, max: Promised)
    requires Pair(w, f, l) && w.net(f, l) != [] && w.net(f, l)[0].Accepted?
    requires LeadingIn(w.servers[l], w.net(f, l)[0].n) && w.servers[l].os.promised == w.net(f, l)[0].n
    requires f < |w.servers[l].acceptedIdx|
    requires var d := w.net(f, l)[0].logIdx;
      d <= w.servers[l].os.decided || CountAtLeast(w.servers[l].acceptedIdx[f := d], d) < Threshold(|w.servers|)
    ensures var d := w.net(f, l)[0].logIdx;
      Took(w, Apply(w, Deliver(f, l, max)), f, l, w.servers[l].(acceptedIdx := w.servers[l].acceptedIdx[f := d]), [])
  {
    var x, d := w.servers[l], w.net(f, l)[0].logIdx;
    assert SetAt(x.acceptedIdx, f, d) == x.acceptedIdx[f := d];
  }

  /** A leader files an acknowledgement.  If more is acknowledged by a majority than it has
      decided, it decides it, hands it over and tells every other promiser. */
  lemma AcceptedTaken(w: World, f: nat, l: nat, max: Promised)
    requires Pair(w, f, l) && w.net(f, l) != [] && w.net(f, l)[0].Accepted? && |w.servers| % 2 == 1
    requires LeadingIn(w.servers[l], w.net(f, l)[0].n) && w.servers[l].os.promised == w.net(f, l)[0].n
    requires f < |w.servers[l].acceptedIdx| && w.net(f, l)[0].logIdx <= |w.servers[l].os.log|
    ensures Enabled(w, Deliver(f, l, max))
    ensures var x, d, v := w.servers[l], w.net(f, l)[0].logIdx, Apply(w, Deliver(f, l, max));
      var acks := x.acceptedIdx[f := d];
      if d > x.os.decided && 2 * |Acknowledged(acks, d)| > |w.servers| then Decided(w, v, f, l, acks, d)
      else Took(w, v, f, l, x.(acceptedIdx := acks), [])
  {
    var d := w.net(f, l)[0].logIdx;
    var acks := w.servers[l].acceptedIdx[f := d];
    CountIsSize(acks, d);
    if d > w.servers[l].os.decided && CountAtLeast(acks, d) >= Threshold(|w.servers|) {
      MajorityDecides(w, f, l, max);
    } else {
      AcknowledgementFiled(w, f, l, max);
    }
  }

  /** A follower in its accept phase decides what its leader has, as far as its log goes, and hands
      it over. */
  lemma DecideTaken(w: World, l: nat, f: nat, max: Promised)
    requires Pair(w, l, f) && w.net(l, f) != [] && w.net(l, f)[0].Decide?
    ensures Enabled(w, Deliver(l, f, max))
    ensures var x, m, v := w.servers[f], w.net(l, f)[0], Apply(w, Deliver(l, f, max));
      if x.os.promised == m.n && x.role == Follower && x.phase == Accepting && x.os.decided < m.decIdx <= |x.os.log| then
        && v.servers[f].os == x.os.(decided := m.decIdx) && v.servers[f].role == Follower && v.servers[f].phase == Accepting
        && HandedUpTo(x, v.servers[f], m.decIdx)
        && Took(w, v, l, f, v.servers[f], [])
      else Took(w, v, l, f, x, [])
  {
  }

  // ---------- reconnection and elections ----------

  /** A server told that its session was renewed asks the sender to prepare, and stops accepting
      exactly if it regards the sender as elected. */
  lemma ReconnectedAnswered(w: World, l: nat, f: nat, max: Promised)
    requires Pair(w, l, f) && w.net(l, f) != [] && w.net(l, f)[0].Reconnected?
    ensures Enabled(w, Deliver(l, f, max))
    ensures var x := w.servers[f];
      Took(w, Apply(w, Deliver(l, f, max)), l, f,
           if x.os.l.pid == l then x.(role := Follower, phase := Recovering) else x, [PrepareReq])
  {
  }

  /** A timer round in which `s` hears ballots of a majority, its own among them, and `n` is the
      greatest of those that are connected. */
  predicate Hears(w: World, s: nat, ballots: map<Ballot, bool>, n: Ballot)
    requires s < |w.servers|
  {
    && Enabled(w, Tick(s, ballots, n))
    && 2 * |ballots[w.servers[s].b := w.servers[s].qc]| > |w.servers|
  }

  /** A server whose own ballot is the greatest, above the elected one and above what it promised,
      begins to lead that round: it forgets what earlier rounds left, promises itself, and asks
      every other server to promise. */
  lemma ElectionWon(w: World, s: nat, ballots: map<Ballot, bool>, n: Ballot)
    requires s < |w.servers| && |w.servers| % 2 == 1 && Hears(w, s, ballots, n)
    requires n.pid == s && Lt(w.servers[s].os.l, n) && Lt(w.servers[s].os.promised, n)
    ensures var x, v := w.servers[s], Apply(w, Tick(s, ballots, n));
      var y := v.servers[s];
      && v.servers == w.servers[s := y]
      && y.role == Leader && y.phase == Preparing && y.currentRnd == n && y.qc && y.buffer == [] && y.b == x.b
      && y.os == x.os.(l := n, promised := n) && y.disk == y.os && y.applied == x.applied
      && y.promises == map[s := Promised(x.os.accepted, |x.os.log|, x.os.decided, From(x.os.log, x.os.decided))]
      && |y.acceptedIdx| == |w.servers| && (forall t :: 0 <= t < |w.servers| ==> y.acceptedIdx[t] == 0)
      && (forall a: nat, d: nat :: v.net(a, d) ==
            if a == s && d < |w.servers| && d != s then
              w.net(s, d) + [Prepare(n, x.os.accepted, |x.os.log|, x.os.decided)]
            else w.net(a, d))
  {
  }

  /** What a timer round makes of a server that does not begin to lead in it. */
  function NotWon(x: Server, connected: bool, n: Ballot): Server {
    if !connected then x.(qc := false)
    else if Lt(n, x.os.l) then x.(b := Ballot(x.os.l.n + 1, x.b.pid), qc := true)
    else if Lt(x.os.l, n) then Saved(x.(role := Follower), x.os.(l := n))
    else x
  }

  lemma TickNotWon(s: nat, size: nat, x: Server, ballots: map<Ballot, bool>, n: Ballot)
    requires size % 2 == 1
    requires !(2 * |ballots[x.b := x.qc]| > size && n.pid == s && Lt(x.os.l, n) && Lt(x.os.promised, n))
    ensures OnTick(s, size, x, ballots, n) == Outcome(NotWon(x, 2 * |ballots[x.b := x.qc]| > size, n), map[])
  {
    var connected := |ballots[x.b := x.qc]| >= Threshold(size);
    assert connected <==> 2 * |ballots[x.b := x.qc]| > size;
    if connected && Lt(x.os.l, n) {
      assert TriggerLeader(s, size, Persist(x.(os := x.os.(l := n))), n.pid, n)
          == Outcome(Persist(x.(os := x.os.(l := n))).(role := Follower), map[]);
    }
  }

  /** Otherwise a server follows a greater ballot, raises its own above the elected one if that is
      gone, or does nothing; too few ballots make it disconnected.  It sends nothing. */
  lemma ElectionNotWon(w: World, s: nat, ballots: map<Ballot, bool>, n: Ballot)
    requires s < |w.servers| && |w.servers| % 2 == 1 && Enabled(w, Tick(s, ballots, n))
    requires !(Hears(w, s, ballots, n) && n.pid == s && Lt(w.servers[s].os.l, n) && Lt(w.servers[s].os.promised, n))
    ensures var x, v := w.servers[s], Apply(w, Tick(s, ballots, n));
      && v.servers == w.servers[s := NotWon(x, Hears(w, s, ballots, n), n)]
      && (forall a: nat, d: nat :: v.net(a, d) == w.net(a, d))
      && (Hears(w, s, ballots, n) && Lt(n, x.os.l) ==> Lt(x.os.l, v.servers[s].b))
  {
    TickNotWon(s, |w.servers|, w.servers[s], ballots, n);
  }
}
