/** The cluster as a step system: all servers, one FIFO queue per ordered pair of
    servers, and one step per handler run, timer round, proposal, restart and session
    drop. */
module Cluster {
  import opened Ballots
  import opened Replica

  type Net = (nat, nat) -> seq<Msg>

  datatype World = World(servers: seq<Server>, net: Net)

  datatype Step =
    | Tick(s: nat, ballots: map<Ballot, bool>, maxBallot: Ballot)
    | Deliver(src: nat, dst: nat, max: Promised)
    | Propose(s: nat, c: Command)
    | Restart(s: nat)
    | Reconnect(src: nat, dst: nat)
    | AskPrepare(s: nat)
    | DropSession(src: nat, dst: nat, keep: nat)

  function Post(net: Net, s: nat, out: Outbox): Net {
    (a: nat, b: nat) => if a == s && b in out then net(a, b) + out[b] else net(a, b)
  }

  function SetQueue(net: Net, src: nat, dst: nat, q: seq<Msg>): Net {
    (a: nat, b: nat) => if a == src && b == dst then q else net(a, b)
  }

  /** Server `s` reaches `o.s` and sends `o.out`. */
  function Commit(w: World, s: nat, o: Outcome): World
    requires s < |w.servers|
  {
    World(w.servers[s := o.s], Post(w.net, s, o.out))
  }

  /** The same, having taken the first message out of the queue from `src`. */
  function CommitFrom(w: World, src: nat, s: nat, o: Outcome): World
    requires s < |w.servers| && w.net(src, s) != []
  {
    World(w.servers[s := o.s], Post(SetQueue(w.net, src, s, w.net(src, s)[1..]), s, o.out))
  }

  predicate Enabled(w: World, st: Step) {
    var size := |w.servers|;
    match st
    case Tick(s, ballots, maxBallot) =>
      s < size && IsMaxBallot(Candidates(ballots[w.servers[s].b := w.servers[s].qc]), maxBallot)
    case Deliver(src, dst, max) =>
      && src < size && dst < size && src != dst && w.net(src, dst) != []
      && var m := w.net(src, dst)[0];
         m.Promise? ==>
           IsMaxPromise(w.servers[dst].promises[src := Promised(m.accRnd, m.logIdx, m.decIdx, m.sfx)], max)
    case Propose(s, _) => s < size
    case Restart(s) => s < size
    case Reconnect(src, dst) =>
      src < size && dst < size && src != dst && w.servers[src].os.l.pid == src
    case AskPrepare(s) => s < size
    case DropSession(src, dst, keep) =>
      src < size && dst < size && src != dst && keep <= |w.net(src, dst)|
  }

  /** The steps.  A dropped session loses the messages behind the first `keep` ones; a leader
      opens the next session with `Reconnected`, any other server without. */
  function Apply(w: World, st: Step): World
    requires Enabled(w, st)
  {
    var size := |w.servers|;
    match st
    case Tick(s, ballots, maxBallot) =>
      Commit(w, s, OnTick(s, size, w.servers[s], ballots, maxBallot))
    case Deliver(src, dst, max) =>
      CommitFrom(w, src, dst, OnMessage(dst, size, w.servers[dst], src, w.net(src, dst)[0], max))
    case Propose(s, c) => Commit(w, s, OnPropose(s, w.servers[s], c))
    case Restart(s) => Commit(w, s, Outcome(Boot(s, size, w.servers[s].disk), map[]))
    case Reconnect(src, dst) => Commit(w, src, Outcome(w.servers[src], SendTo(dst, [Reconnected])))
    case AskPrepare(s) =>
      Commit(w, s, Outcome(w.servers[s], map d | d in Ids(size) && d != s :: [PrepareReq]))
    case DropSession(src, dst, keep) =>
      w.(net := SetQueue(w.net, src, dst,
           w.net(src, dst)[..keep] + if w.servers[src].role == Leader then [Reconnected] else []))
  }

  predicate Init(w: World) {
    && |w.servers| % 2 == 1
    && (forall s :: 0 <= s < |w.servers| ==> w.servers[s] == Boot(s, |w.servers|, EMPTY_DISK))
  }

  /** Nothing has been sent yet. */
  ghost predicate Quiet(net: Net) {
    forall a, b :: net(a, b) == []
  }

  predicate LeadingIn(s: Server, n: Ballot) {
    s.role == Leader && s.phase == Accepting && s.currentRnd == n
  }

  // ---------- the order of entries in a queue ----------

  predicate IsStream(m: Msg, n: Ballot) {
    (m.AcceptSync? || m.Accept?) && m.n == n
  }

  /** How long the receiver's log is once it has taken this message. */
  function Position(m: Msg): nat
    requires m.AcceptSync? || m.Accept?
  {
    if m.AcceptSync? then m.syncIdx + |m.sfx| else m.idx
  }

  /** Where the stream of round-`n` entries stands: exactly at `p`, or at `p` or beyond. */
  datatype Mark = Mark(p: nat, exact: bool)

  function Advance(m: Msg, n: Ballot, k: Mark): Mark {
    if IsStream(m, n) then Mark(Position(m), true)
    else if m.Reconnected? then Mark(k.p, false)
    else k
  }

  function Last(q: seq<Msg>, n: Ballot, k: Mark): Mark {
    if q == [] then k else Last(q[1..], n, Advance(q[0], n, k))
  }

  predicate Continues(m: Msg, n: Ballot, k: Mark) {
    IsStream(m, n) ==>
      var start := if m.Accept? then Position(m) - 1 else Position(m);
      if k.exact then start == k.p else start >= k.p
  }

  /** No entry is missing between consecutive messages of the round, except across a
      session boundary. */
  predicate Flow(q: seq<Msg>, n: Ballot, k: Mark) {
    q == [] || (Continues(q[0], n, k) && Flow(q[1..], n, Advance(q[0], n, k)))
  }

  // ---------- the two places where the code relies on luck ----------

  /** A promise that reaches a leader already in its accept phase comes from a follower whose
      log is at least as long as that of the promise the leader adopted, if both accepted in
      the same round. */
  predicate LatePromiseFits(s: Server, m: Msg)
    requires m.Promise?
  {
    s.role == Leader && s.phase == Accepting && m.n == s.currentRnd && m.accRnd == s.maxProm.accRnd
    ==> s.maxProm.logIdx <= m.logIdx
  }

  /** The promise of `src` fits, or `src` has left the round since, or has accepted in it. */
  predicate LateHarmless(w: World, src: nat, s: nat, m: Msg)
    requires src < |w.servers| && s < |w.servers| && m.Promise?
  {
    || LatePromiseFits(w.servers[s], m)
    || w.servers[src].os.promised != m.n
    || w.servers[src].os.accepted == m.n
  }

  /** `Reconnected` from the leader of the round a follower accepts in finds that follower
      still regarding the sender as elected. */
  predicate ReconnectNoticed(s: Server, src: nat) {
    s.role == Follower && s.phase == Accepting && s.os.promised.pid == src ==> s.os.l.pid == src
  }

  /** Follower `f`, in state `x`, can go on accepting behind a `Reconnected` it does not heed:
      the rest `q` of the queue starts where its log ends, has no gap and, unless the session
      ends again, leads up to the end of the log of the leader, in state `l`, which counts on
      `f`. */
  predicate ResumesInPlace(x: Server, l: Server, f: nat, q: seq<Msg>) {
    var n := x.os.promised;
    var k := Mark(|x.os.log|, true);
    && Flow(q, n, k)
    && (LeadingIn(l, n) && Last(q, n, k).exact ==> Last(q, n, k).p == |l.os.log| && f in l.promises)
  }

  /** The `Reconnected` first in the queue from `src` to `s` is heeded, or nothing was lost. */
  predicate ReconnectHarmless(w: World, src: nat, s: nat)
    requires src < |w.servers| && s < |w.servers| && w.net(src, s) != []
  {
    ReconnectNoticed(w.servers[s], src)
    || ResumesInPlace(w.servers[s], w.servers[src], s, w.net(src, s)[1..])
  }

  predicate Guarded(w: World, st: Step)
    requires Enabled(w, st)
  {
    st.Deliver? ==>
      var m := w.net(st.src, st.dst)[0];
      && (m.Promise? ==> LateHarmless(w, st.src, st.dst, m))
      && (m.Reconnected? ==> ReconnectHarmless(w, st.src, st.dst))
  }

  // ---------- runs ----------

  /** `ws` is the sequence of states that `sts` leads through. */
  ghost predicate IsRun(ws: seq<World>, sts: seq<Step>) {
    && |ws| == |sts| + 1
    && Init(ws[0]) && Quiet(ws[0].net)
    && forall i {:trigger sts[i]} :: 0 <= i < |sts| ==> Enabled(ws[i], sts[i]) && ws[i + 1] == Apply(ws[i], sts[i])
  }

  ghost predicate IsGuardedRun(ws: seq<World>, sts: seq<Step>) {
    && IsRun(ws, sts)
    && forall i {:trigger sts[i]} :: 0 <= i < |sts| ==> Guarded(ws[i], sts[i])
  }

  /** What a server has decided. */
  function DecidedLog(s: Server): seq<Command> {
    Prefix(s.os.log, s.os.decided)
  }

  predicate Comparable(x: seq<Command>, y: seq<Command>) {
    x <= y || y <= x
  }

  ghost predicate Agree(w: World) {
    forall s, t :: 0 <= s < |w.servers| && 0 <= t < |w.servers| ==>
      Comparable(DecidedLog(w.servers[s]), DecidedLog(w.servers[t]))
  }
}
