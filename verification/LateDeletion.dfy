/** A run in which an acknowledged write is lost.  One shard goes back and forth between two
    groups; the deletion sent to group 1 when it first gave the shard up arrives after it was
    given the shard again, wrote to it and has to give it up once more. */
module LateDeletion {
  import opened ShardGroup
  import opened Deployment

  const C: Client := 5
  const K: Key := [0]
  const V1: Value := [1]
  const V2: Value := [2]
  const PUT1 := Op(Put, C, 1, K, V1)
  const PUT2 := Op(Put, C, 2, K, V2)

  function OwnerUnder(c: nat): nat {
    if c == 0 then 0 else if c % 2 == 1 then 1 else 2
  }

  /** Odd configurations give all shards to group 1, even ones to group 2. */
  function Alternating(c: nat): (r: Config)
    ensures forall sid :: 0 <= sid < NSHARDS ==> r.shards[sid] == OwnerUnder(c)
  {
    Config(c, seq(NSHARDS, _ => OwnerUnder(c)))
  }

  ghost predicate ReachedIn(w: World, n: nat)
    decreases n
  {
    if n == 0 then Init(w) else exists v, st :: ReachedIn(v, n - 1) && Leads(v, st, w)
  }

  ghost predicate Leads(v: World, st: Step, w: World) {
    Enabled(v, st) && w == Apply(v, st)
  }

  ghost predicate Reached(w: World) {
    exists n: nat :: ReachedIn(w, n)
  }

  lemma Next(w: World, st: Step) returns (v: World)
    requires Reached(w) && Enabled(w, st)
    ensures v == Apply(w, st) && Reached(v)
  {
    var n: nat :| ReachedIn(w, n);
    v := Apply(w, st);
    assert Leads(w, st, v);
    assert ReachedIn(v, n + 1);
  }

  lemma Previous(w: World, n: nat) returns (v: World, st: Step)
    requires n > 0 && ReachedIn(w, n)
    ensures ReachedIn(v, n - 1) && Leads(v, st, w)
  {
    v, st :| ReachedIn(v, n - 1) && Leads(v, st, w);
  }

  ghost predicate IsRunTo(ws: seq<World>, sts: seq<Step>, w: World) {
    IsRun(ws, sts) && ws[|sts|] == w
  }

  lemma {:induction false} RunTo(w: World, n: nat) returns (ws: seq<World>, sts: seq<Step>)
    requires ReachedIn(w, n)
    ensures IsRunTo(ws, sts, w)
    decreases n
  {
    if n == 0 {
      ws, sts := [w], [];
    } else {
      var v, st := Previous(w, n);
      ws, sts := RunTo(v, n - 1);
      ws, sts := Further(ws, sts, v, st, w);
    }
  }

  lemma Further(ws: seq<World>, sts: seq<Step>, v: World, st: Step, w: World) returns (ws': seq<World>, sts': seq<Step>)
    requires IsRunTo(ws, sts, v) && Leads(v, st, w)
    ensures IsRunTo(ws', sts', w)
  {
    ws', sts' := Longer(ws, sts, st);
  }

  lemma Longer(ws: seq<World>, sts: seq<Step>, st: Step) returns (ws': seq<World>, sts': seq<Step>)
    requires IsRun(ws, sts) && Enabled(ws[|sts|], st)
    ensures IsRun(ws', sts') && ws'[|sts'|] == Apply(ws[|sts|], st)
  {
    ws', sts' := ws + [Apply(ws[|sts|], st)], sts + [st];
    forall i | 0 <= i < |sts'| ensures Enabled(ws'[i], sts'[i]) && ws'[i + 1] == Apply(ws'[i], sts'[i]) {
      if i < |sts| {
        assert ws'[i] == ws[i] && sts'[i] == sts[i] && ws'[i + 1] == ws[i + 1];
      }
    }
  }

  /** What matters of a group: its configuration, shard 0 and the client's entry. */
  datatype Side = Side(n: nat, m: Shard, p: nat)

  predicate Shows(x: Group, g: nat, y: Side) {
    x.gid == g && x.config == Alternating(y.n) && x.store[0] == y.m && Last(x.prevReq, C) == y.p
  }

  /** A reachable state of groups 1 and 2, with the client's requests up to `id` answered. */
  ghost predicate State(w: World, a: Side, b: Side, id: nat, h: seq<Op>) {
    && Reached(w) && w.configs == Alternating && w.groups.Keys == {1, 2}
    && Shows(w.groups[1], 1, a) && Shows(w.groups[2], 2, b)
    && C !in w.waiting && Last(w.lastId, C) == id && w.history == h
  }

  /** Installing a change that brings `m` and `p`. */
  lemma Installing(x: Group, g: nat, y: Side, ch: Change)
    requires Shows(x, g, y) && ch.config == Alternating(y.n + 1)
    ensures Shows(ApplyChange(x, ch), g, Side(y.n + 1, y.m + ch.store[0], Max(y.p, Last(ch.prevReq, C))))
  {
  }

  /** A change under which the group gains nothing. */
  lemma Moving(x: Group, g: nat, y: Side)
    requires Shows(x, g, y) && (y.n == 0 || OwnerUnder(y.n + 1) != g)
    ensures Shows(ApplyChange(x, EmptyChange(Alternating(y.n + 1))), g, y.(n := y.n + 1))
    ensures Donors(g, Alternating(y.n), Alternating(y.n + 1)) == {}
  {
    Installing(x, g, y, EmptyChange(Alternating(y.n + 1)));
    assert y.m + map[] == y.m;
  }

  function Idle(g: nat, n: nat): Draft {
    Draft(g, Alternating(n), EmptyChange(Alternating(n + 1)), {})
  }

  /** Beginning and installing such a change affects nothing but the group. */
  lemma AfterMove(w: World, g: nat, y: Side)
    requires w.configs == Alternating && g in w.groups && Shows(w.groups[g], g, y)
    requires y.n == 0 || OwnerUnder(y.n + 1) != g
    ensures Enabled(w, Begin(g))
    ensures var u := Apply(w, Begin(g));
      && Enabled(u, Install(Idle(g, y.n)))
      && var v := Apply(u, Install(Idle(g, y.n)));
         && v.groups == w.groups[g := v.groups[g]] && Shows(v.groups[g], g, y.(n := y.n + 1))
         && v == w.(groups := v.groups, drafts := v.drafts, deletions := v.deletions) && w.deletions <= v.deletions
  {
    Moving(w.groups[g], g, y);
  }

  lemma MoveFirst(w: World, a: Side, b: Side, id: nat, h: seq<Op>) returns (v: World)
    requires State(w, a, b, id, h) && (a.n == 0 || OwnerUnder(a.n + 1) == 2)
    ensures State(v, a.(n := a.n + 1), b, id, h) && w.deletions <= v.deletions
  {
    AfterMove(w, 1, a);
    v := Next(w, Begin(1));
    v := Next(v, Install(Idle(1, a.n)));
  }

  lemma MoveSecond(w: World, a: Side, b: Side, id: nat, h: seq<Op>) returns (v: World)
    requires State(w, a, b, id, h) && (b.n == 0 || OwnerUnder(b.n + 1) == 1)
    ensures State(v, a, b.(n := b.n + 1), id, h) && w.deletions <= v.deletions
  {
    AfterMove(w, 2, b);
    v := Next(w, Begin(2));
    v := Next(v, Install(Idle(2, b.n)));
  }

  /** The change with which a group takes all shards over. */
  lemma Taking(g: nat, n: nat, d: nat, x: Group, y: Side) returns (ch: Change)
    requires Shows(x, d, y) && 0 < n && OwnerUnder(n) == d && OwnerUnder(n + 1) == g
    ensures ch == WithAnswer(g, Alternating(n), EmptyChange(Alternating(n + 1)), d, x.store, x.prevReq)
    ensures ch.config == Alternating(n + 1) && ch.store[0] == y.m && Last(ch.prevReq, C) == y.p
    ensures Donors(g, Alternating(n), Alternating(n + 1)) == {d}
  {
    var cur, next := Alternating(n), Alternating(n + 1);
    ch := WithAnswer(g, cur, EmptyChange(next), d, x.store, x.prevReq);
    assert Gains(g, cur, next, 0);
    assert 0 in GainedFrom(g, cur, next, d);
    assert map[] + y.m == y.m;
  }

  /** The draft of a group that took over what `x` holds. */
  function Full(g: nat, n: nat, d: nat, x: Group): Draft {
    Draft(g, Alternating(n),
          WithAnswer(g, Alternating(n), EmptyChange(Alternating(n + 1)), d, x.store, x.prevReq), {} + {d})
  }

  /** Beginning, pulling and installing such a change affects nothing but the group. */
  lemma AfterTake(w: World, g: nat, y: Side, d: nat, z: Side)
    requires w.configs == Alternating && g in w.groups && Shows(w.groups[g], g, y) && d in w.groups && Shows(w.groups[d], d, z)
    requires g != d && 0 < y.n < z.n && OwnerUnder(y.n) == d && OwnerUnder(y.n + 1) == g
    ensures Enabled(w, Begin(g))
    ensures var u := Apply(w, Begin(g));
      && Enabled(u, Pull(Idle(g, y.n), d))
      && var u' := Apply(u, Pull(Idle(g, y.n), d));
         && Enabled(u', Install(Full(g, y.n, d, w.groups[d])))
         && var v := Apply(u', Install(Full(g, y.n, d, w.groups[d])));
            && v.groups == w.groups[g := v.groups[g]] && w.deletions <= v.deletions
            && Shows(v.groups[g], g, Side(y.n + 1, y.m + z.m, Max(y.p, z.p)))
            && v == w.(groups := v.groups, drafts := v.drafts, deletions := v.deletions)
            && (z.m != map[] ==> Deletion(d, 0, y.n, g) in v.deletions)
  {
    var ch := Taking(g, y.n, d, w.groups[d], z);
    Installing(w.groups[g], g, y, ch);
  }

  /** Group 2 takes the shards from group 1, which is further on. */
  lemma TakeSecond(w: World, a: Side, b: Side, id: nat, h: seq<Op>) returns (v: World)
    requires State(w, a, b, id, h) && 0 < b.n < a.n && OwnerUnder(b.n) == 1
    ensures State(v, a, Side(b.n + 1, b.m + a.m, Max(b.p, a.p)), id, h) && w.deletions <= v.deletions
    ensures a.m != map[] ==> Deletion(1, 0, b.n, 2) in v.deletions
  {
    AfterTake(w, 2, b, 1, a);
    v := Next(w, Begin(2));
    v := Next(v, Pull(Idle(2, b.n), 1));
    v := Next(v, Install(Full(2, b.n, 1, w.groups[1])));
  }

  /** Group 1 takes the shards from group 2, which is further on. */
  lemma TakeFirst(w: World, a: Side, b: Side, id: nat, h: seq<Op>) returns (v: World)
    requires State(w, a, b, id, h) && 0 < a.n < b.n && OwnerUnder(a.n) == 2
    ensures State(v, Side(a.n + 1, a.m + b.m, Max(a.p, b.p)), b, id, h) && w.deletions <= v.deletions
  {
    AfterTake(w, 1, a, 2, b);
    v := Next(w, Begin(1));
    v := Next(v, Pull(Idle(1, a.n), 2));
    v := Next(v, Install(Full(1, a.n, 2, w.groups[2])));
  }

  lemma Begins() returns (w: World)
    ensures State(w, Side(0, map[], 0), Side(0, map[], 0), 0, [])
  {
    var first := Alternating(0);
    w := World(Alternating, map[1 := NewGroup(1, first), 2 := NewGroup(2, first)], {}, {}, {}, map[], {}, []);
    assert ConfigsOk(w);
    assert ReachedIn(w, 0);
  }

  lemma Executing(x: Group, a: Side, v: Value)
    requires Shows(x, 1, a) && OwnerUnder(a.n) == 1
    ensures var op := Op(Put, C, a.p + 1, K, v);
      Owns(x, 0) && IsNew(x, op) && Serve(x, op).reply == Reply(OK, [])
      && Shows(Serve(x, op).g, 1, Side(a.n, a.m[K := v], a.p + 1))
  {
  }

  /** Client `C` issues its next request, which group 1 executes and answers. */
  lemma Write(w: World, a: Side, b: Side, id: nat, h: seq<Op>, v: Value) returns (w': World)
    requires State(w, a, b, id, h) && OwnerUnder(a.n) == 1 && a.p == id
    ensures State(w', Side(a.n, a.m[K := v], id + 1), b, id + 1, h + [Op(Put, C, id + 1, K, v)])
    ensures w.deletions <= w'.deletions
  {
    var op := Op(Put, C, id + 1, K, v);
    Executing(w.groups[1], a, v);
    w' := Next(w, Issue(op));
    w' := Next(w', Handle(1, op, true));
  }

  /** The write of the first value, and the shard's way to group 2. */
  lemma There() returns (w: World)
    ensures State(w, Side(2, map[K := V1], 1), Side(2, map[K := V1], 1), 1, [PUT1])
    ensures Deletion(1, 0, 1, 2) in w.deletions
  {
    var none, one := Side(0, map[], 0), Side(2, map[K := V1], 1);
    w := Begins();
    w := MoveFirst(w, none, none, 0, []);
    w := Write(w, Side(1, map[], 0), none, 0, [], V1);
    assert [] + [PUT1] == [PUT1];
    w := MoveFirst(w, Side(1, map[K := V1], 1), none, 1, [PUT1]);
    w := MoveSecond(w, one, none, 1, [PUT1]);
    assert K in map[K := V1];
    w := TakeSecond(w, one, Side(1, map[], 0), 1, [PUT1]);
    assert map[] + map[K := V1] == map[K := V1];
  }

  /** Its way back to group 1, the write of the second value, and the late deletion. */
  lemma BackAndGone() returns (w: World)
    ensures State(w, Side(4, map[], 2), Side(3, map[K := V1], 1), 2, [PUT1] + [PUT2])
  {
    var one, two := Side(2, map[K := V1], 1), Side(3, map[K := V1], 1);
    w := There();
    w := MoveSecond(w, one, one, 1, [PUT1]);
    w := TakeFirst(w, one, two, 1, [PUT1]);
    assert map[K := V1] + map[K := V1] == map[K := V1];
    w := Write(w, two, two, 1, [PUT1], V2);
    assert map[K := V1][K := V2] == map[K := V2];
    w := MoveFirst(w, Side(3, map[K := V2], 2), two, 2, [PUT1] + [PUT2]);
    w := Next(w, Drop(Deletion(1, 0, 1, 2), 1));
  }

  lemma FirstIsServed(w: World)
    requires State(w, Side(4, map[], 2), Side(4, map[K := V1], 2), 2, [PUT1] + [PUT2])
    ensures w.history == [PUT1, PUT2] && Owns(w.groups[2], Key2Shard(K))
    ensures Serve(w.groups[2], Op(Get, C, 3, K, [])).reply == Reply(OK, V1)
    ensures Read(Replay(w.history), K) == Reply(OK, V2)
  {
    assert [PUT1] + [PUT2] == [PUT1, PUT2];
    assert [PUT1, PUT2][..1] == [PUT1] && [PUT1][..0] == [];
    assert Replay([]) == map[];
    assert Replay([PUT1]) == map[K := V1];
    assert Replay([PUT1, PUT2]) == map[K := V1][K := V2];
  }

  /** Without the condition on deletions an acknowledged write is lost: group 2 serves the
      shard and answers with the first value, although the second was written after it. */
  lemma LateDeletionLosesWrite() returns (ws: seq<World>, sts: seq<Step>)
    ensures IsRun(ws, sts)
    ensures var w := ws[|sts|];
      && w.history == [PUT1, PUT2] && 2 in w.groups && Owns(w.groups[2], Key2Shard(K))
      && Serve(w.groups[2], Op(Get, C, 3, K, [])).reply == Reply(OK, V1)
      && Read(Replay(w.history), K) == Reply(OK, V2)
  {
    var w := BackAndGone();
    w := TakeSecond(w, Side(4, map[], 2), Side(3, map[K := V1], 1), 2, [PUT1] + [PUT2]);
    assert map[K := V1] + map[] == map[K := V1];
    FirstIsServed(w);
    var n: nat :| ReachedIn(w, n);
    ws, sts := RunTo(w, n);
  }
}
