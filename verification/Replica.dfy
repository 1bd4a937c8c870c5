/** One OmniPaxos server: its state, the messages it exchanges, and what each handler
    does to the state and sends.  A handler runs under the server's lock, so it is one
    atomic function from a state to a state and an outbox.

    Messages carry no sender field: the queue a message travels in identifies it. */
module Replica {
  import opened Ballots

  /** A proposed command; the protocol never looks inside. */
  type Command = int

  datatype Role = Leader | Follower
  datatype Phase = Preparing | Accepting | Recovering

  /** The record that is saved to stable storage. */
  datatype Stable = Stable(
    l: Ballot,
    log: seq<Command>,
    promised: Ballot,
    accepted: Ballot,
    decided: nat)

  datatype Promised = Promised(accRnd: Ballot, logIdx: nat, decIdx: nat, log: seq<Command>)

  datatype ApplyMsg = ApplyMsg(command: Command, index: nat)

  datatype Server = Server(
    os: Stable,
    disk: Stable,
    role: Role,
    phase: Phase,
    currentRnd: Ballot,
    promises: map<nat, Promised>,
    maxProm: Promised,
    acceptedIdx: seq<nat>,
    buffer: seq<Command>,
    b: Ballot,
    qc: bool,
    applied: seq<ApplyMsg>)

  datatype Msg =
    | Prepare(n: Ballot, accRnd: Ballot, logIdx: nat, decIdx: nat)
    | Promise(n: Ballot, accRnd: Ballot, logIdx: nat, decIdx: nat, sfx: seq<Command>)
    | AcceptSync(n: Ballot, sfx: seq<Command>, syncIdx: nat)
    | Accept(n: Ballot, idx: nat, c: Command)
    | Accepted(n: Ballot, logIdx: nat)
    | Decide(n: Ballot, decIdx: nat)
    | PrepareReq
    | Reconnected

  /** What a handler sends: for each destination, messages in sending order. */
  type Outbox = map<nat, seq<Msg>>

  datatype Outcome = Outcome(s: Server, out: Outbox)

  const NO_PROMISE := Promised(Ballot(-1, -1), 0, 0, [])
  const ZERO_PROMISE := Promised(ZERO, 0, 0, [])

  /** The threshold the code compares every count with. */
  function Threshold(peers: nat): nat {
    (peers + 1) / 2
  }

  function Suffix(log: seq<Command>, idx: nat): seq<Command> {
    if idx > |log| then [] else log[idx..]
  }

  function Prefix(log: seq<Command>, idx: nat): seq<Command> {
    if idx > |log| then log else log[..idx]
  }

  function Persist(s: Server): Server {
    s.(disk := s.os)
  }

  /** The entries sent to the service for positions `from` up to `end`. */
  function Entries(log: seq<Command>, from: nat, end: nat): (r: seq<ApplyMsg>)
    requires from <= end <= |log|
    ensures |r| == end - from
    ensures forall i :: 0 <= i < |r| ==> r[i] == ApplyMsg(log[from + i], from + i)
    decreases end - from
  {
    if from == end then [] else [ApplyMsg(log[from], from)] + Entries(log, from + 1, end)
  }

  /** The identities of all servers. */
  function Ids(peers: nat): (r: set<nat>)
    ensures |r| == peers
    ensures forall d: nat :: d in r <==> d < peers
  {
    if peers == 0 then {} else Ids(peers - 1) + {peers - 1}
  }

  function SendTo(d: nat, msgs: seq<Msg>): Outbox {
    map[d := msgs]
  }

  /** `acceptedIdx[i] := v`; indices are server identities, always in range. */
  function SetAt(a: seq<nat>, i: nat, v: nat): (r: seq<nat>)
    ensures |r| == |a|
    ensures forall j :: 0 <= j < |a| ==> r[j] == if j == i then v else a[j]
  {
    if i < |a| then a[i := v] else a
  }

  function Zeros(peers: nat): (r: seq<nat>)
    ensures |r| == peers && forall i :: 0 <= i < peers ==> r[i] == 0
  {
    seq(peers, _ => 0)
  }

  // ---------- ballot leader election ----------

  function TriggerLeader(me: nat, peers: nat, s: Server, pid: int, n: Ballot): Outcome {
    if !(pid == me && Lt(s.os.promised, n)) then
      Outcome(s.(role := Follower), map[])
    else
      var own := Promised(s.os.accepted, |s.os.log|, s.os.decided, Suffix(s.os.log, s.os.decided));
      var s' := s.(
        acceptedIdx := Zeros(peers),
        promises := map[me := own],
        maxProm := ZERO_PROMISE,
        buffer := [],
        qc := true,
        role := Leader,
        phase := Preparing,
        currentRnd := n,
        os := s.os.(promised := n));
      Outcome(Persist(s'),
              map d | d in Ids(peers) && d != me ::
                [Prepare(n, s.os.accepted, |s.os.log|, s.os.decided)])
  }

  function CheckLeader(me: nat, peers: nat, s: Server, max: Ballot): Outcome {
    if Lt(max, s.os.l) then
      Outcome(s.(b := s.b.(n := s.os.l.n + 1), qc := true), map[])
    else if Lt(s.os.l, max) then
      TriggerLeader(me, peers, Persist(s.(os := s.os.(l := max))), max.pid, max)
    else
      Outcome(s, map[])
  }

  function Candidates(ballots: map<Ballot, bool>): set<Ballot> {
    set b | b in ballots && ballots[b]
  }

  /** One timer round: `ballots` holds the heartbeat replies of the round. */
  function OnTick(me: nat, peers: nat, s: Server, ballots: map<Ballot, bool>, max: Ballot): Outcome {
    if |ballots[s.b := s.qc]| >= Threshold(peers) then
      CheckLeader(me, peers, s, max)
    else
      Outcome(s.(qc := false), map[])
  }

  // ---------- sequence paxos ----------

  function OnPropose(me: nat, s: Server, c: Command): Outcome {
    if s.role == Leader && s.phase == Preparing then
      Outcome(s.(buffer := s.buffer + [c]), map[])
    else if s.role == Leader && s.phase == Accepting then
      var log := s.os.log + [c];
      var s' := Persist(s.(os := s.os.(log := log), acceptedIdx := SetAt(s.acceptedIdx, me, |log|)));
      Outcome(s', map d | d in s.promises && d != me :: [Accept(s.currentRnd, |log|, c)])
    else
      Outcome(s, map[])
  }

  function OnPrepare(s: Server, l: nat, n: Ballot, accRnd: Ballot, logIdx: nat, decIdx: nat): Outcome {
    if Lt(n, s.os.promised) then
      Outcome(s, map[])
    else
      var s' := Persist(s.(role := Follower, phase := Preparing, os := s.os.(promised := n)));
      var sfx :=
        if Lt(accRnd, s.os.accepted) then Suffix(s.os.log, decIdx)
        else if s.os.accepted == accRnd then Suffix(s.os.log, logIdx)
        else [];
      Outcome(s', SendTo(l, [Promise(n, s.os.accepted, |s.os.log|, s.os.decided, sfx)]))
  }

  predicate Better(p: Promised, q: Promised) {
    Lt(q.accRnd, p.accRnd) || (p.accRnd == q.accRnd && p.logIdx > q.logIdx)
  }

  /** `m` is a result the scan over the promises can return, for some enumeration order. */
  predicate IsMaxPromise(promises: map<nat, Promised>, m: Promised) {
    && (m == NO_PROMISE || exists f :: f in promises && promises[f] == m)
    && forall f :: f in promises ==> !Better(promises[f], m)
  }

  function SyncIdx(p: Promised, max: Promised): nat {
    if p.accRnd == max.accRnd then p.logIdx else p.decIdx
  }

  /** The log with which a leader enters the accept phase. */
  function AdoptedLog(s: Server, max: Promised): seq<Command> {
    (if max.accRnd != s.os.accepted then Prefix(s.os.log, s.os.decided) else s.os.log)
    + max.log + s.buffer
  }

  function EnterAccept(me: nat, s: Server, max: Promised): Outcome {
    var log := AdoptedLog(s, max);
    var s' := Persist(s.(
      maxProm := max,
      os := s.os.(log := log, accepted := s.currentRnd),
      acceptedIdx := SetAt(s.acceptedIdx, me, |log|),
      phase := Accepting));
    Outcome(s', map f | f in s.promises && f != me ::
              [AcceptSync(s.currentRnd, Suffix(log, SyncIdx(s.promises[f], max)), SyncIdx(s.promises[f], max))])
  }

  /** The position from which a promise that arrives after the accept phase began is served. */
  function LateSyncIdx(s: Server, accRnd: Ballot, decIdx: nat): nat {
    if accRnd == s.maxProm.accRnd then s.maxProm.logIdx else decIdx
  }

  function LatePromise(s: Server, f: nat, accRnd: Ballot, decIdx: nat): Outcome {
    var syncIdx := LateSyncIdx(s, accRnd, decIdx);
    Outcome(Persist(s), SendTo(f,
      [AcceptSync(s.currentRnd, Suffix(s.os.log, syncIdx), syncIdx)]
      + if s.os.decided > decIdx then [Decide(s.currentRnd, s.os.decided)] else []))
  }

  /** The state once a promise has been filed. */
  function WithPromise(s: Server, f: nat, p: Promised): Server {
    s.(promises := s.promises[f := p])
  }

  /** `max` stands for the promise the scan picked; only the first branch reads it. */
  function OnPromise(me: nat, peers: nat, s: Server, f: nat, n: Ballot, p: Promised, max: Promised): Outcome {
    if n != s.currentRnd then Outcome(s, map[])
    else
      var s1 := WithPromise(s, f, p);
      if s1.role != Leader then Outcome(s1, map[])
      else if s1.phase == Preparing then
        if |s1.promises| < Threshold(peers) then Outcome(s1, map[])
        else EnterAccept(me, s1, max)
      else if s1.phase == Accepting then LatePromise(s1, f, p.accRnd, p.decIdx)
      else Outcome(Persist(s1), map[])
  }

  function OnAcceptSync(s: Server, l: nat, n: Ballot, sfx: seq<Command>, syncIdx: nat): Outcome {
    if s.os.promised != n || !(s.role == Follower && s.phase == Preparing) then
      Outcome(s, map[])
    else
      var log := Prefix(s.os.log, syncIdx) + sfx;
      Outcome(Persist(s.(os := s.os.(accepted := n, log := log), phase := Accepting)),
              SendTo(l, [Accepted(n, |log|)]))
  }

  function OnAccept(s: Server, l: nat, n: Ballot, c: Command): Outcome {
    if s.os.promised != n || !(s.role == Follower && s.phase == Accepting) then
      Outcome(s, map[])
    else
      var log := s.os.log + [c];
      Outcome(Persist(s.(os := s.os.(log := log))), SendTo(l, [Accepted(n, |log|)]))
  }

  /** Moves the decided index and hands the new entries to the service.  Where the Go code
      would index past the log, the model hands over nothing; `Agreement` shows that this
      never happens. */
  function AdvanceDecided(s: Server, end: nat): Server {
    Persist(s.(
      applied := s.applied + (if s.os.decided <= end <= |s.os.log| then Entries(s.os.log, s.os.decided, end) else []),
      os := s.os.(decided := end)))
  }

  function OnDecide(s: Server, n: Ballot, decIdx: nat): Outcome {
    if decIdx <= s.os.decided || decIdx > |s.os.log| then Outcome(s, map[])
    else if s.os.promised == n && s.role == Follower && s.phase == Accepting then
      Outcome(AdvanceDecided(s, decIdx), map[])
    else Outcome(s, map[])
  }

  function CountAtLeast(a: seq<nat>, v: nat): (r: nat)
    ensures r <= |a|
  {
    if a == [] then 0 else CountAtLeast(a[..|a| - 1], v) + if a[|a| - 1] >= v then 1 else 0
  }

  function OnAccepted(me: nat, peers: nat, s: Server, f: nat, n: Ballot, logIdx: nat): Outcome {
    if s.os.promised != n || !(s.role == Leader && s.phase == Accepting) then
      Outcome(s, map[])
    else
      var s1 := s.(acceptedIdx := SetAt(s.acceptedIdx, f, logIdx));
      if logIdx > s.os.decided && CountAtLeast(s1.acceptedIdx, logIdx) >= Threshold(peers) then
        Outcome(AdvanceDecided(s1, logIdx),
                map d | d in s.promises && d != me :: [Decide(s.currentRnd, logIdx)])
      else Outcome(s1, map[])
  }

  // ---------- recovery ----------

  function OnReconnected(s: Server, f: nat): Outcome {
    Outcome(if f == s.os.l.pid then s.(role := Follower, phase := Recovering) else s,
            SendTo(f, [PrepareReq]))
  }

  function OnPrepareReq(s: Server, f: nat): Outcome {
    if s.role != Leader then Outcome(s, map[])
    else Outcome(s, SendTo(f, [Prepare(s.currentRnd, s.os.accepted, |s.os.log|, s.os.decided)]))
  }

  /** A server as `Make` builds it from what is on disk. */
  function Boot(me: nat, peers: nat, disk: Stable): Server {
    Server(disk, disk, Follower, Preparing, ZERO, map[], ZERO_PROMISE, Zeros(peers), [],
           Ballot(0, me), true,
           if disk.decided <= |disk.log| then Entries(disk.log, 0, disk.decided) else [])
  }

  const EMPTY_DISK := Stable(ZERO, [], ZERO, ZERO, 0)

  /** Handling of one message that arrived from `from`. */
  function OnMessage(me: nat, peers: nat, s: Server, from: nat, m: Msg, max: Promised): Outcome {
    match m
    case Prepare(n, accRnd, logIdx, decIdx) => OnPrepare(s, from, n, accRnd, logIdx, decIdx)
    case Promise(n, accRnd, logIdx, decIdx, sfx) =>
      OnPromise(me, peers, s, from, n, Promised(accRnd, logIdx, decIdx, sfx), max)
    case AcceptSync(n, sfx, syncIdx) => OnAcceptSync(s, from, n, sfx, syncIdx)
    case Accept(n, _, c) => OnAccept(s, from, n, c)
    case Accepted(n, logIdx) => OnAccepted(me, peers, s, from, n, logIdx)
    case Decide(n, decIdx) => OnDecide(s, n, decIdx)
    case PrepareReq => OnPrepareReq(s, from)
    case Reconnected => OnReconnected(s, from)
  }
}
