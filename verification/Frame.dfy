/** What remains to be shown of a step, once it is known to be a step of one server: its own
    new state, the messages it sent, and the flow it feeds or is fed by. */
module Frame {
  import opened Ballots
  import opened Replica
  import opened Cluster
  import opened Invariant
  import opened Progress
  import opened Streams

  ghost predicate SentOk(w: World, h: Hist, s: nat, out: Outbox)
    requires s < |w.servers|
  {
    && (forall b :: b in out ==> b < |w.servers| && b != s)
    && (forall b, i :: b in out && 0 <= i < |out[b]| ==> MsgOk(w, h, s, b, out[b][i]))
  }

  ghost predicate NoStreamSent(out: Outbox) {
    forall b, i :: b in out && 0 <= i < |out[b]| ==> !out[b][i].AcceptSync? && !out[b][i].Accept?
  }

  /** Queues of `net0` hold nothing that `net` does not. */
  ghost predicate Within(net0: Net, net: Net) {
    forall a, b, i :: 0 <= i < |net0(a, b)| ==> net0(a, b)[i] in net(a, b)
  }

  /** A leader in its accept phase was one before, and has forgotten no promise. */
  ghost predicate KeepsLeading(x: Server, y: Server) {
    y.role == Leader && y.phase == Accepting ==>
      && x.role == Leader && x.phase == Accepting && x.currentRnd == y.currentRnd
      && x.promises.Keys <= y.promises.Keys
  }

  ghost predicate VotesBounded(w': World, h': Hist, s: nat)
    requires s < |w'.servers|
  {
    var n := w'.servers[s].os.promised;
    h'.votes(s, n) <= if n in h'.rlog then |h'.rlog[n]| else 0
  }

  lemma QueuesStep(w: World, h: Hist, w': World, h': Hist, s: nat, net0: Net, out: Outbox)
    requires QueuesOk(w, h) && Grows(w, h, w', h', s)
    requires Within(net0, w.net) && w'.net == Post(net0, s, out)
    requires SentOk(w', h', s, out)
    ensures QueuesOk(w', h')
  {
    forall a, b | 0 <= a < |w.servers| && 0 <= b < |w.servers| && a != b ensures QueueOk(w', h', a, b) {
      forall i | 0 <= i < |w'.net(a, b)| ensures MsgOk(w', h', a, b, w'.net(a, b)[i]) {
        var m := w'.net(a, b)[i];
        if i < |net0(a, b)| {
          assert m == net0(a, b)[i];
          var j :| 0 <= j < |w.net(a, b)| && w.net(a, b)[j] == m;
          assert QueueOk(w, h, a, b);
          MsgOkGrows(w, h, w', h', s, a, b, m);
        } else {
          assert m == out[b][i - |net0(a, b)|];
        }
      }
    }
  }

  lemma ServersStep(w: World, h: Hist, w': World, h': Hist, s: nat)
    requires ServersOk(w, h) && Grows(w, h, w', h', s) && ActorOk(w', h', s)
    ensures ServersOk(w', h')
  {
    forall t | 0 <= t < |w'.servers| ensures ActorOk(w', h', t) {
      if t != s {
        assert ActorOk(w, h, t);
        StableOkOther(w, h, w', h', s, t);
        RoleOkOther(w, h, w', h', s, t);
      }
    }
  }

  lemma RoundsStep(w: World, h: Hist, w': World, h': Hist, s: nat)
    requires RoundsOk(w, h) && Grows(w, h, w', h', s) && VotesBounded(w', h', s)
    requires h'.rlog.Keys == h.rlog.Keys && h'.base == h.base
    ensures RoundsOk(w', h')
  {
    forall n | n in h'.rlog ensures RoundOk(w', h', n) {
      assert RoundOk(w, h, n);
      RoundOkGrows(w, h, w', h', s, n);
    }
  }

  lemma SafeStep(w: World, h: Hist, w': World, h': Hist, s: nat)
    requires SafeRounds(w, h) && Grows(w, h, w', h', s)
    requires h'.rlog.Keys == h.rlog.Keys && h'.base == h.base
    ensures SafeRounds(w', h')
  {
    forall n, m, q, k: nat | n in h'.rlog && m in h'.rlog && m in h'.base && Lt(n, m)
                             && MayChoose(w', h', q, n, k) && k > 0
      ensures Carried(h', n, k, m)
    {
      CarriedGrows(w, h, w', h', s, n, m, q, k);
    }
  }

  /** The flow to a server that did not act, from a leader that did not act. */
  lemma FlowBystander(w: World, h: Hist, w': World, h': Hist, s: nat, f: nat)
    requires Grows(w, h, w', h', s) && f < |w.servers| && f != s && FlowOk(w, h, f)
    requires h.base.Keys == h.rlog.Keys && h'.base.Keys == h'.rlog.Keys
    requires w.servers[f].os.promised.pid != s
    requires forall a: nat :: a != s && a < |w.servers| ==> w'.net(a, f) == w.net(a, f)
    ensures FlowOk(w', h', f)
  {
    var x := w.servers[f];
    var pid := x.os.promised.pid;
    if 0 <= pid < |w.servers| && pid != f {
      var l := w.servers[pid];
      FlowKeeps(h, h', x, x, l, l, f, w.net(pid, f), []);
      assert w.net(pid, f) + [] == w.net(pid, f);
    }
  }

  /** The flow to a server that did not act, from the acting server, which sent no entries. */
  lemma FlowFromActor(w: World, h: Hist, w': World, h': Hist, s: nat, f: nat, out: Outbox)
    requires Grows(w, h, w', h', s) && f < |w.servers| && f != s && FlowOk(w, h, f)
    requires h'.rlog == h.rlog && h'.base == h.base
    requires w.servers[f].os.promised.pid == s
    requires w'.net(s, f) == w.net(s, f) + if f in out then out[f] else []
    requires NoStreamSent(out)
    requires KeepsLeading(w.servers[s], w'.servers[s])
    ensures FlowOk(w', h', f)
  {
    var x := w.servers[f];
    FlowKeeps(h, h', x, x, w.servers[s], w'.servers[s], f, w.net(s, f), if f in out then out[f] else []);
  }

  lemma QuietFlows(w: World, h: Hist, w': World, h': Hist, s: nat, net0: Net, out: Outbox)
    requires FlowsOk(w, h) && Grows(w, h, w', h', s) && h.base.Keys == h.rlog.Keys
    requires h'.rlog == h.rlog && h'.base == h.base
    requires w'.net == Post(net0, s, out)
    requires forall a: nat, b: nat :: b != s ==> net0(a, b) == w.net(a, b)
    requires NoStreamSent(out) && FlowOk(w', h', s)
    requires KeepsLeading(w.servers[s], w'.servers[s])
    ensures FlowsOk(w', h')
  {
    forall f | 0 <= f < |w'.servers| ensures FlowOk(w', h', f) {
      if f != s {
        assert FlowOk(w, h, f);
        if w.servers[f].os.promised.pid == s {
          FlowFromActor(w, h, w', h', s, f, out);
        } else {
          FlowBystander(w, h, w', h', s, f);
        }
      }
    }
  }

  /** A step of `s` that adds no entry to any round and sends none. */
  lemma QuietStep(w: World, h: Hist, w': World, h': Hist, s: nat, net0: Net, out: Outbox)
    requires Inv(w, h) && Grows(w, h, w', h', s)
    requires h'.rlog == h.rlog && h'.base == h.base && VotesBounded(w', h', s)
    requires Within(net0, w.net) && w'.net == Post(net0, s, out)
    requires forall a: nat, b: nat :: b != s ==> net0(a, b) == w.net(a, b)
    requires SentOk(w', h', s, out) && NoStreamSent(out)
    requires ActorOk(w', h', s) && FlowOk(w', h', s)
    requires KeepsLeading(w.servers[s], w'.servers[s])
    ensures Inv(w', h')
  {
    SafeStep(w, h, w', h', s);
    RoundsStep(w, h, w', h', s);
    ServersStep(w, h, w', h', s);
    QueuesStep(w, h, w', h', s, net0, out);
    QuietFlows(w, h, w', h', s, net0, out);
  }

  // ---------- the flow that feeds the actor ----------

  /** Nothing was taken from the queue of the actor's leader, and its mark did not move. */
  lemma ActorFlowKeeps(w: World, h: Hist, w': World, h': Hist, s: nat)
    requires Grows(w, h, w', h', s) && FlowOk(w, h, s)
    requires h'.rlog == h.rlog && h'.base == h.base
    requires w'.servers[s].os.promised == w.servers[s].os.promised
    requires w.servers[s].os.promised in h.base ==>
      Weaker(StartMark(h, w.servers[s]), StartMark(h', w'.servers[s]))
    requires var pid := w.servers[s].os.promised.pid;
      0 <= pid < |w.servers| && pid != s ==> w'.net(pid, s) == w.net(pid, s)
    ensures FlowOk(w', h', s)
  {
    var x, y := w.servers[s], w'.servers[s];
    var pid := x.os.promised.pid;
    if 0 <= pid < |w.servers| && pid != s {
      FlowKeeps(h, h', x, y, w.servers[pid], w.servers[pid], s, w.net(pid, s), []);
      assert w.net(pid, s) + [] == w.net(pid, s);
    }
  }

  /** The actor took the first message of the queue from `src`, its leader or not. */
  lemma ActorFlowTakes(w: World, h: Hist, w': World, h': Hist, s: nat, src: nat)
    requires Grows(w, h, w', h', s) && FlowOk(w, h, s)
    requires h'.rlog == h.rlog && h'.base == h.base
    requires w'.servers[s].os.promised == w.servers[s].os.promised
    requires src < |w.servers| && src != s && w.net(src, s) != []
    requires forall a: nat :: a < |w.servers| && a != s ==>
      w'.net(a, s) == if a == src then w.net(src, s)[1..] else w.net(a, s)
    requires w.servers[s].os.promised in h.base ==>
      Weaker(if src == w.servers[s].os.promised.pid
             then Advance(w.net(src, s)[0], w.servers[s].os.promised, StartMark(h, w.servers[s]))
             else StartMark(h, w.servers[s]),
             StartMark(h', w'.servers[s]))
    ensures FlowOk(w', h', s)
  {
    var x, y := w.servers[s], w'.servers[s];
    if x.os.promised.pid == src {
      FlowTakes(h, h', x, y, w.servers[src], s, w.net(src, s));
    } else {
      ActorFlowKeeps(w, h, w', h', s);
    }
  }

  /** A message on its way to `s` belongs to no round above the promise of `s`. */
  lemma OldRound(w: World, h: Hist, a: nat, s: nat, m: Msg, n: Ballot)
    requires QueuesOk(w, h) && a < |w.servers| && s < |w.servers| && a != s
    requires m in w.net(a, s) && Lt(w.servers[s].os.promised, n)
    ensures !IsStream(m, n)
  {
    var j :| 0 <= j < |w.net(a, s)| && w.net(a, s)[j] == m;
    assert QueueOk(w, h, a, s);
    assert MsgOk(w, h, a, s, w.net(a, s)[j]);
  }

  /** The actor promised a new round. */
  lemma ActorFlowStarts(w: World, h: Hist, w': World, s: nat)
    requires s < |w.servers| == |w'.servers| && QueuesOk(w, h) && RoundsOk(w, h)
    requires Lt(w.servers[s].os.promised, w'.servers[s].os.promised)
    requires w'.servers[s].os.accepted != w'.servers[s].os.promised && w'.servers[s].phase != Accepting
    requires forall a: nat :: a < |w.servers| && a != s ==>
      forall i :: 0 <= i < |w'.net(a, s)| ==> w'.net(a, s)[i] in w.net(a, s)
    ensures FlowOk(w', h, s)
  {
    var y := w'.servers[s];
    var n := y.os.promised;
    if 0 <= n.pid < |w.servers| && n.pid != s {
      var a: nat := n.pid;
      var q := w'.net(a, s);
      forall i | 0 <= i < |q| ensures !IsStream(q[i], n) {
        assert w'.net(a, s)[i] in w.net(a, s);
        OldRound(w, h, a, s, q[i], n);
      }
      if n in h.rlog {
        assert RoundOk(w, h, n);
      }
      FlowStarts(h, y, w'.servers[a], s, q);
    }
  }
}
