/** Where commands come from, in every run, guarded or not: nothing is in a log, in a message or
    handed to the service that was not proposed; and what is proposed to a leader gets into its
    log, in the order of the proposals. */
module Validity {
  import opened Ballots
  import opened Replica
  import opened Cluster
  import opened Rounds

  // ---------- nothing is invented ----------

  type Commands = iset<Command>

  ghost predicate AllIn(log: seq<Command>, known: Commands) {
    forall k :: 0 <= k < |log| ==> log[k] in known
  }

  ghost predicate ServerValid(s: Server, known: Commands) {
    && AllIn(s.os.log, known) && AllIn(s.disk.log, known) && AllIn(s.buffer, known) && AllIn(s.maxProm.log, known)
    && (forall f :: f in s.promises ==> AllIn(s.promises[f].log, known))
    && (forall k :: 0 <= k < |s.applied| ==> s.applied[k].command in known)
  }

  /** The commands in a message. */
  function Carried(m: Msg): seq<Command> {
    match m
    case Promise(_, _, _, _, sfx) => sfx
    case AcceptSync(_, sfx, _) => sfx
    case Accept(_, _, c) => [c]
    case _ => []
  }

  ghost predicate MsgValid(m: Msg, known: Commands) {
    AllIn(Carried(m), known)
  }

  ghost predicate QueueValid(q: seq<Msg>, known: Commands) {
    forall j :: 0 <= j < |q| ==> MsgValid(q[j], known)
  }

  ghost predicate OutcomeValid(o: Outcome, known: Commands) {
    && ServerValid(o.s, known)
    && forall d :: d in o.out ==> QueueValid(o.out[d], known)
  }

  ghost predicate WorldValid(w: World, known: Commands) {
    && (forall s :: 0 <= s < |w.servers| ==> ServerValid(w.servers[s], known))
    && (forall a: nat, b: nat :: QueueValid(w.net(a, b), known))
  }

  lemma SuffixIn(log: seq<Command>, idx: nat, known: Commands)
    requires AllIn(log, known)
    ensures AllIn(Suffix(log, idx), known) && AllIn(Prefix(log, idx), known)
  {
  }

  lemma EnterValid(me: nat, s: Server, max: Promised, known: Commands)
    requires ServerValid(s, known) && AllIn(max.log, known)
    ensures OutcomeValid(EnterAccept(me, s, max), known)
  {
    var log := AdoptedLog(s, max);
    SuffixIn(s.os.log, s.os.decided, known);
    assert AllIn(log, known);
    var out := EnterAccept(me, s, max).out;
    forall g | g in out ensures QueueValid(out[g], known) {
      SuffixIn(log, SyncIdx(s.promises[g], max), known);
      assert MsgValid(out[g][0], known);
    }
  }

  lemma LateValid(s: Server, f: nat, accRnd: Ballot, decIdx: nat, known: Commands)
    requires ServerValid(s, known)
    ensures OutcomeValid(LatePromise(s, f, accRnd, decIdx), known)
  {
    SuffixIn(s.os.log, LateSyncIdx(s, accRnd, decIdx), known);
    var q := LatePromise(s, f, accRnd, decIdx).out[f];
    assert MsgValid(q[0], known);
  }

  lemma MaxValid(promises: map<nat, Promised>, max: Promised, known: Commands)
    requires IsMaxPromise(promises, max) && forall f :: f in promises ==> AllIn(promises[f].log, known)
    ensures AllIn(max.log, known)
  {
  }

  lemma PromiseValid(me: nat, peers: nat, s: Server, f: nat, n: Ballot, p: Promised, max: Promised, known: Commands)
    requires ServerValid(s, known) && AllIn(p.log, known) && IsMaxPromise(s.promises[f := p], max)
    ensures OutcomeValid(OnPromise(me, peers, s, f, n, p, max), known)
  {
    var s1 := WithPromise(s, f, p);
    assert ServerValid(s1, known);
    MaxValid(s1.promises, max, known);
    EnterValid(me, s1, max, known);
    LateValid(s1, f, p.accRnd, p.decIdx, known);
  }

  lemma PrepareValid(s: Server, l: nat, n: Ballot, accRnd: Ballot, logIdx: nat, decIdx: nat, known: Commands)
    requires ServerValid(s, known)
    ensures OutcomeValid(OnPrepare(s, l, n, accRnd, logIdx, decIdx), known)
  {
    SuffixIn(s.os.log, logIdx, known);
    SuffixIn(s.os.log, decIdx, known);
  }

  lemma SyncValid(s: Server, l: nat, n: Ballot, sfx: seq<Command>, syncIdx: nat, known: Commands)
    requires ServerValid(s, known) && AllIn(sfx, known)
    ensures OutcomeValid(OnAcceptSync(s, l, n, sfx, syncIdx), known)
  {
    SuffixIn(s.os.log, syncIdx, known);
  }

  lemma AcceptValid(s: Server, l: nat, n: Ballot, c: Command, known: Commands)
    requires ServerValid(s, known) && c in known
    ensures OutcomeValid(OnAccept(s, l, n, c), known)
  {
  }

  lemma AdvanceValid(s: Server, end: nat, known: Commands)
    requires ServerValid(s, known)
    ensures ServerValid(AdvanceDecided(s, end), known)
  {
  }

  lemma AcceptedValid(me: nat, peers: nat, s: Server, f: nat, n: Ballot, logIdx: nat, known: Commands)
    requires ServerValid(s, known)
    ensures OutcomeValid(OnAccepted(me, peers, s, f, n, logIdx), known)
  {
    var s1 := s.(acceptedIdx := SetAt(s.acceptedIdx, f, logIdx));
    assert ServerValid(s1, known);
    AdvanceValid(s1, logIdx, known);
  }

  lemma HandlerValid(me: nat, peers: nat, s: Server, from: nat, m: Msg, max: Promised, known: Commands)
    requires ServerValid(s, known) && MsgValid(m, known)
    requires m.Promise? ==> IsMaxPromise(s.promises[from := Promised(m.accRnd, m.logIdx, m.decIdx, m.sfx)], max)
    ensures OutcomeValid(OnMessage(me, peers, s, from, m, max), known)
  {
    match m
    case Prepare(n, accRnd, logIdx, decIdx) => PrepareValid(s, from, n, accRnd, logIdx, decIdx, known);
    case Promise(n, accRnd, logIdx, decIdx, sfx) =>
      PromiseValid(me, peers, s, from, n, Promised(accRnd, logIdx, decIdx, sfx), max, known);
    case AcceptSync(n, sfx, syncIdx) => SyncValid(s, from, n, sfx, syncIdx, known);
    case Accept(n, _, c) =>
      assert Carried(m)[0] == c;
      AcceptValid(s, from, n, c, known);
    case Accepted(n, logIdx) => AcceptedValid(me, peers, s, from, n, logIdx, known);
    case Decide(_, decIdx) => AdvanceValid(s, decIdx, known);
    case PrepareReq =>
    case Reconnected =>
  }

  lemma TriggerValid(me: nat, peers: nat, s: Server, pid: int, n: Ballot, known: Commands)
    requires ServerValid(s, known)
    ensures OutcomeValid(TriggerLeader(me, peers, s, pid, n), known)
  {
    SuffixIn(s.os.log, s.os.decided, known);
  }

  lemma TickValid(me: nat, peers: nat, s: Server, ballots: map<Ballot, bool>, max: Ballot, known: Commands)
    requires ServerValid(s, known)
    ensures OutcomeValid(OnTick(me, peers, s, ballots, max), known)
  {
    var s1 := Persist(s.(os := s.os.(l := max)));
    assert ServerValid(s1, known);
    TriggerValid(me, peers, s1, max.pid, max, known);
  }

  lemma PostValid(w: World, s: nat, o: Outcome, net0: Net, known: Commands)
    requires WorldValid(w, known) && s < |w.servers| && OutcomeValid(o, known)
    requires forall a: nat, b: nat :: QueueValid(net0(a, b), known)
    ensures WorldValid(World(w.servers[s := o.s], Post(net0, s, o.out)), known)
  {
  }

  lemma TakenValid(w: World, src: nat, dst: nat, known: Commands)
    requires WorldValid(w, known) && w.net(src, dst) != []
    ensures MsgValid(w.net(src, dst)[0], known)
    ensures forall a: nat, b: nat :: QueueValid(SetQueue(w.net, src, dst, w.net(src, dst)[1..])(a, b), known)
  {
    assert QueueValid(w.net(src, dst), known);
  }

  ghost function Proposes(st: Step): Commands {
    if st.Propose? then iset{st.c} else iset{}
  }

  lemma MoreKnown(w: World, known: Commands, more: Commands)
    requires WorldValid(w, known)
    ensures WorldValid(w, known + more)
  {
    forall a: nat, b: nat ensures QueueValid(w.net(a, b), known + more) {
      assert QueueValid(w.net(a, b), known);
    }
  }

  lemma DropValid(w: World, src: nat, dst: nat, keep: nat, r: seq<Msg>, known: Commands)
    requires WorldValid(w, known) && keep <= |w.net(src, dst)| && QueueValid(r, known)
    ensures WorldValid(w.(net := SetQueue(w.net, src, dst, w.net(src, dst)[..keep] + r)), known)
  {
    assert QueueValid(w.net(src, dst), known);
  }

  lemma DeliverValid(w: World, src: nat, dst: nat, max: Promised, known: Commands)
    requires WorldValid(w, known) && Enabled(w, Deliver(src, dst, max))
    ensures WorldValid(Apply(w, Deliver(src, dst, max)), known)
  {
    TakenValid(w, src, dst, known);
    var o := OnMessage(dst, |w.servers|, w.servers[dst], src, w.net(src, dst)[0], max);
    HandlerValid(dst, |w.servers|, w.servers[dst], src, w.net(src, dst)[0], max, known);
    PostValid(w, dst, o, SetQueue(w.net, src, dst, w.net(src, dst)[1..]), known);
  }

  lemma ProposeValid(w: World, s: nat, c: Command, known: Commands)
    requires WorldValid(w, known) && s < |w.servers| && c in known
    ensures WorldValid(Apply(w, Propose(s, c)), known)
  {
    var o := OnPropose(s, w.servers[s], c);
    assert ServerValid(o.s, known);
    PostValid(w, s, o, w.net, known);
  }

  lemma StepValid(w: World, st: Step, known: Commands)
    requires WorldValid(w, known) && Enabled(w, st)
    ensures WorldValid(Apply(w, st), known + Proposes(st))
  {
    var size := |w.servers|;
    var all := known + Proposes(st);
    MoreKnown(w, known, Proposes(st));
    match st
    case Tick(s, ballots, maxBallot) =>
      TickValid(s, size, w.servers[s], ballots, maxBallot, all);
      PostValid(w, s, OnTick(s, size, w.servers[s], ballots, maxBallot), w.net, all);
    case Deliver(src, dst, max) => DeliverValid(w, src, dst, max, all);
    case Propose(s, c) => ProposeValid(w, s, c, all);
    case Restart(s) => PostValid(w, s, Outcome(Boot(s, size, w.servers[s].disk), map[]), w.net, all);
    case Reconnect(src, dst) => PostValid(w, src, Outcome(w.servers[src], SendTo(dst, [Reconnected])), w.net, all);
    case AskPrepare(s) =>
      PostValid(w, s, Outcome(w.servers[s], map d | d in Ids(size) && d != s :: [PrepareReq]), w.net, all);
    case DropSession(src, dst, keep) =>
      DropValid(w, src, dst, keep, if w.servers[src].role == Leader then [Reconnected] else [], all);
  }

  /** The commands proposed in the first `i` steps. */
  ghost function Proposed(sts: seq<Step>, i: nat): Commands
    requires i <= |sts|
  {
    iset k | 0 <= k < i && sts[k].Propose? :: sts[k].c
  }

  lemma ProposedNext(sts: seq<Step>, i: nat)
    requires i < |sts|
    ensures Proposed(sts, i + 1) == Proposed(sts, i) + Proposes(sts[i])
  {
  }

  lemma InitValid(w: World)
    requires Init(w) && Quiet(w.net)
    ensures WorldValid(w, iset{})
  {
    forall a: nat, b: nat ensures QueueValid(w.net(a, b), iset{}) {
      assert w.net(a, b) == [];
    }
  }

  lemma {:induction false} RunValid(ws: seq<World>, sts: seq<Step>, i: nat)
    requires IsRun(ws, sts) && i < |ws|
    ensures WorldValid(ws[i], Proposed(sts, i))
  {
    if i == 0 {
      InitValid(ws[0]);
      assert Proposed(sts, 0) == iset{};
    } else {
      RunValid(ws, sts, i - 1);
      assert ws[i] == Apply(ws[i - 1], sts[i - 1]);
      StepValid(ws[i - 1], sts[i - 1], Proposed(sts, i - 1));
      ProposedNext(sts, i - 1);
    }
  }

  /** Command `c` was proposed, to some server, before state `i`. */
  ghost predicate WasProposed(sts: seq<Step>, i: nat, c: Command)
    requires i <= |sts|
  {
    exists k :: 0 <= k < i && sts[k].Propose? && sts[k].c == c
  }

  /** Validity: in every state of every run, whatever is in a log or a buffer, was handed to the
      service, or travels in a message, was proposed before. */
  lemma NothingIsInvented(ws: seq<World>, sts: seq<Step>, i: nat, s: nat)
    requires IsRun(ws, sts) && i < |ws| && s < |ws[i].servers|
    ensures var x := ws[i].servers[s];
      && (forall k :: 0 <= k < |x.os.log| ==> WasProposed(sts, i, x.os.log[k]))
      && (forall k :: 0 <= k < |x.buffer| ==> WasProposed(sts, i, x.buffer[k]))
      && (forall k :: 0 <= k < |x.applied| ==> WasProposed(sts, i, x.applied[k].command))
    ensures forall d: nat, j, k :: 0 <= j < |ws[i].net(s, d)| && 0 <= k < |Carried(ws[i].net(s, d)[j])| ==>
      WasProposed(sts, i, Carried(ws[i].net(s, d)[j])[k])
  {
    RunValid(ws, sts, i);
    assert ServerValid(ws[i].servers[s], Proposed(sts, i));
    forall d: nat, j, k | 0 <= j < |ws[i].net(s, d)| && 0 <= k < |Carried(ws[i].net(s, d)[j])|
      ensures WasProposed(sts, i, Carried(ws[i].net(s, d)[j])[k])
    {
      assert QueueValid(ws[i].net(s, d), Proposed(sts, i));
      assert MsgValid(ws[i].net(s, d)[j], Proposed(sts, i));
    }
  }

  // ---------- nothing that is proposed to a leader is dropped or reordered ----------

  predicate PreparesAt(w: World, s: nat) {
    s < |w.servers| && w.servers[s].role == Leader && w.servers[s].phase == Preparing
  }

  /** What was proposed to `s` since it began the round it last began, while it was preparing. */
  ghost function Pending(ws: seq<World>, sts: seq<Step>, s: nat, i: nat): seq<Command>
    requires IsRun(ws, sts) && i < |ws| && s < |ws[i].servers|
  {
    if i == 0 then []
    else
      SameSize(ws, sts, i - 1, i);
      if BeginsRound(ws, i - 1, s, ws[i].servers[s].currentRnd) then []
      else if sts[i - 1].Propose? && sts[i - 1].s == s && PreparesAt(ws[i - 1], s) then
        Pending(ws, sts, s, i - 1) + [sts[i - 1].c]
      else Pending(ws, sts, s, i - 1)
  }

  lemma HandlerKeepsBuffer(me: nat, peers: nat, s: Server, from: nat, m: Msg, max: Promised)
    ensures var y := OnMessage(me, peers, s, from, m, max).s;
      y.role == Leader && y.phase == Preparing ==>
        s.role == Leader && s.phase == Preparing && y.currentRnd == s.currentRnd && y.buffer == s.buffer
  {
  }

  lemma TickKeepsBuffer(me: nat, peers: nat, s: Server, ballots: map<Ballot, bool>, max: Ballot)
    requires Sane(me, s)
    ensures var y := OnTick(me, peers, s, ballots, max).s;
      y.role == Leader && y.phase == Preparing ==>
        if s.role == Leader && y.currentRnd == s.currentRnd then s.phase == Preparing && y.buffer == s.buffer
        else y.buffer == []
  {
  }

  /** How a step changes the buffer of a preparing leader. */
  lemma StepBuffer(w: World, st: Step, s: nat)
    requires Enabled(w, st) && s < |w.servers| && Sane(s, w.servers[s])
    requires |Apply(w, st).servers| == |w.servers| && PreparesAt(Apply(w, st), s)
    ensures var x, y := w.servers[s], Apply(w, st).servers[s];
      if !(x.role == Leader && x.currentRnd == y.currentRnd) then y.buffer == []
      else
        && x.phase == Preparing
        && y.buffer == if st.Propose? && st.s == s then x.buffer + [st.c] else x.buffer
  {
    if st.Deliver? && st.dst == s {
      HandlerKeepsBuffer(s, |w.servers|, w.servers[s], st.src, w.net(st.src, s)[0], st.max);
    } else if st.Tick? && st.s == s {
      TickKeepsBuffer(s, |w.servers|, w.servers[s], st.ballots, st.maxBallot);
    }
  }

  /** Step `i` leaves `s` a preparing leader: either it begins its round there, or it was one. */
  lemma RunBuffer(ws: seq<World>, sts: seq<Step>, s: nat, i: nat)
    requires IsRun(ws, sts) && i < |sts| && PreparesAt(ws[i + 1], s)
    ensures |ws[i + 1].servers| == |ws[i].servers|
    ensures if BeginsRound(ws, i, s, ws[i + 1].servers[s].currentRnd) then ws[i + 1].servers[s].buffer == []
      else
        && PreparesAt(ws[i], s)
        && ws[i + 1].servers[s].buffer ==
             if sts[i].Propose? && sts[i].s == s then ws[i].servers[s].buffer + [sts[i].c] else ws[i].servers[s].buffer
  {
    SameSize(ws, sts, i, i + 1);
    RunSane(ws, sts, i, s);
    StepBuffer(ws[i], sts[i], s);
  }

  lemma NoLeaderAtFirst(ws: seq<World>, sts: seq<Step>, s: nat)
    requires IsRun(ws, sts)
    ensures !PreparesAt(ws[0], s)
  {
  }

  lemma {:induction false} BufferIsPending(ws: seq<World>, sts: seq<Step>, s: nat, i: nat)
    requires IsRun(ws, sts) && i < |ws| && PreparesAt(ws[i], s)
    ensures ws[i].servers[s].buffer == Pending(ws, sts, s, i)
  {
    if i == 0 {
      NoLeaderAtFirst(ws, sts, s);
    } else {
      RunBuffer(ws, sts, s, i - 1);
      if !BeginsRound(ws, i - 1, s, ws[i].servers[s].currentRnd) {
        BufferIsPending(ws, sts, s, i - 1);
      }
    }
  }

  /** When a leader enters its accept phase, its log ends with everything that was proposed to it
      in this round so far, in the order of the proposals. */
  lemma PendingEntersLog(ws: seq<World>, sts: seq<Step>, i: nat, l: nat) returns (start: seq<Command>)
    requires IsRun(ws, sts) && i < |sts| && PreparesAt(ws[i], l)
    requires |ws[i + 1].servers| == |ws[i].servers| && ws[i + 1].servers[l].role == Leader
    requires ws[i + 1].servers[l].phase == Accepting
    ensures ws[i + 1].servers[l].os.log == start + Pending(ws, sts, l, i)
  {
    BufferIsPending(ws, sts, l, i);
    assert ws[i + 1] == Apply(ws[i], sts[i]);
    start := EnteredLog(ws[i], sts[i], l);
  }

  lemma EnteredLog(w: World, st: Step, l: nat) returns (start: seq<Command>)
    requires Enabled(w, st) && PreparesAt(w, l) && |Apply(w, st).servers| == |w.servers|
    requires Apply(w, st).servers[l].role == Leader && Apply(w, st).servers[l].phase == Accepting
    ensures Apply(w, st).servers[l].os.log == start + w.servers[l].buffer
  {
    var x := w.servers[l];
    var m := w.net(st.src, l)[0];
    var s1 := WithPromise(x, st.src, Promised(m.accRnd, m.logIdx, m.decIdx, m.sfx));
    start := (if st.max.accRnd != x.os.accepted then Prefix(x.os.log, x.os.decided) else x.os.log) + st.max.log;
    assert Apply(w, st).servers[l].os.log == AdoptedLog(s1, st.max);
  }

  /** A proposal to a leader in its accept phase extends its log by the command and sends it, with
      its position, to every other server that promised; any other server refuses it. */
  lemma ProposalEntersLog(w: World, s: nat, c: Command)
    requires s < |w.servers|
    ensures var x, v := w.servers[s], Apply(w, Propose(s, c));
      && v.servers == w.servers[s := v.servers[s]]
      && (x.role == Leader && x.phase == Accepting ==>
            && v.servers[s].os == x.os.(log := x.os.log + [c])
            && (forall d: nat :: v.net(s, d) ==
                  if d in x.promises && d != s then w.net(s, d) + [Accept(x.currentRnd, |x.os.log| + 1, c)] else w.net(s, d)))
      && (x.role == Leader && x.phase == Preparing ==> v.servers[s].os == x.os && forall d: nat :: v.net(s, d) == w.net(s, d))
      && (x.role != Leader ==> v.servers == w.servers && forall d: nat :: v.net(s, d) == w.net(s, d))
      && (forall a: nat, d: nat :: a != s ==> v.net(a, d) == w.net(a, d))
  {
  }
}
