/** What holds in every run of the sharded store. */
module ShardSafety {
  import opened ShardGroup
  import opened Deployment
  import opened Ownership
  import opened ShardInvariant
  import opened ShardServing
  import opened ShardMoves
  import W = Writes

  // ---------- the invariant over runs ----------

  lemma StepInv(w: World, a: Seats, hit: set<nat>, st: Step) returns (a': Seats)
    requires Inv(w, a, hit) && Enabled(w, st)
    ensures Inv(Apply(w, st), a', HitBy(w, hit, st))
  {
    a' := a;
    match st
    case Issue(op) => IssueStep(w, a, hit, op);
    case Handle(gid, op, heard) => HandleStep(w, a, hit, gid, op, heard);
    case Begin(gid) => BeginStep(w, a, hit, gid);
    case Pull(draft, donor) => PullStep(w, a, hit, draft, donor);
    case Install(draft) => a' := InstallStep(w, a, hit, draft);
    case Drop(d, num) => DropStep(w, a, hit, d, num);
  }

  /** The shards of which a deletion dropped the current copy, in the first `i` steps. */
  ghost function Hits(ws: seq<World>, sts: seq<Step>, i: nat): set<nat>
    requires IsRun(ws, sts) && i < |ws|
  {
    if i == 0 then {} else HitBy(ws[i - 1], Hits(ws, sts, i - 1), sts[i - 1])
  }

  lemma {:induction false} RunInv(ws: seq<World>, sts: seq<Step>, i: nat) returns (a: Seats)
    requires IsRun(ws, sts) && i < |ws|
    ensures Inv(ws[i], a, Hits(ws, sts, i))
  {
    if i == 0 {
      a := seq(NSHARDS, _ => 0);
      InitInv(ws[0]);
    } else {
      a := RunInv(ws, sts, i - 1);
      a := StepInv(ws[i - 1], a, Hits(ws, sts, i - 1), sts[i - 1]);
    }
  }

  /** A deletion that arrives in time drops no current copy. */
  lemma TimelyIsHarmless(ws: seq<World>, sts: seq<Step>, i: nat, d: Deletion, num: nat)
    requires IsRun(ws, sts) && i < |ws| && Enabled(ws[i], Drop(d, num)) && d.sid < NSHARDS && Timely(ws[i], d)
    ensures !Harmful(ws[i], Drop(d, num))
  {
    var a := RunInv(ws, sts, i);
    TimelyMissesHolder(ws[i], a, Hits(ws, sts, i), d);
    forall b: nat | IsSeat(ws[i], d.sid, b) ensures b == a[d.sid] {
      assert IsSeat(ws[i], d.sid, a[d.sid]);
      SeatUnique(ws[i], d.sid, a[d.sid], b);
    }
  }

  lemma TimelyStep(ws: seq<World>, sts: seq<Step>, i: nat)
    requires IsTimelyRun(ws, sts) && i < |sts|
    ensures !Harmful(ws[i], sts[i])
  {
    var st := sts[i];
    if st.Drop? {
      TimelyIsHarmless(ws, sts, i, st.d, st.num);
    }
  }

  lemma HitsNext(ws: seq<World>, sts: seq<Step>, i: nat)
    requires IsRun(ws, sts) && i < |sts| && !Harmful(ws[i], sts[i])
    ensures Hits(ws, sts, i + 1) == Hits(ws, sts, i)
  {
  }

  /** So a run in which all deletions arrive in time hits no shard. */
  lemma {:induction false} TimelyHitsNothing(ws: seq<World>, sts: seq<Step>, i: nat)
    requires IsTimelyRun(ws, sts) && i < |ws|
    ensures Hits(ws, sts, i) == {}
  {
    if i > 0 {
      TimelyStep(ws, sts, i - 1);
      HitsNext(ws, sts, i - 1);
      TimelyHitsNothing(ws, sts, i - 1);
    }
  }

  // ---------- single owner ----------

  /** In every reachable state, with groups at whatever configurations, at most one group
      accepts operations on a shard. */
  lemma SingleOwner(ws: seq<World>, sts: seq<Step>, i: nat, g: nat, g': nat, sid: nat)
    requires IsRun(ws, sts) && i < |ws|
    requires g in ws[i].groups && Owns(ws[i].groups[g], sid)
    requires g' in ws[i].groups && Owns(ws[i].groups[g'], sid)
    ensures g == g'
  {
    var a := RunInv(ws, sts, i);
    OneServes(ws[i], a, g, g', sid);
  }

  lemma StepInOrder(w: World, st: Step, g: nat)
    requires Enabled(w, st) && g in w.groups
    requires st.Install? ==> DraftShape(w, st.draft) && w.configs(st.draft.cur.num).num == st.draft.cur.num
                             && w.configs(st.draft.cur.num + 1).num == st.draft.cur.num + 1
    ensures g in Apply(w, st).groups
    ensures var x, y := w.groups[g].config, Apply(w, st).groups[g].config;
      y == x || y == w.configs(x.num + 1)
  {
  }

  /** Groups go through the configurations one by one, in order. */
  lemma ConfigurationsInOrder(ws: seq<World>, sts: seq<Step>, i: nat, g: nat)
    requires IsRun(ws, sts) && i < |sts| && g in ws[i].groups
    ensures g in ws[i + 1].groups
    ensures var x, y := ws[i].groups[g].config, ws[i + 1].groups[g].config;
      y == x || y == ws[i].configs(x.num + 1)
  {
    if sts[i].Install? {
      DraftsAreSound(ws, sts, i, sts[i].draft);
    }
    StepInOrder(ws[i], sts[i], g);
  }

  lemma DraftsAreSound(ws: seq<World>, sts: seq<Step>, i: nat, dr: Draft)
    requires IsRun(ws, sts) && i < |ws| && dr in ws[i].drafts
    ensures DraftShape(ws[i], dr) && ws[i].configs(dr.cur.num).num == dr.cur.num
    ensures ws[i].configs(dr.cur.num + 1).num == dr.cur.num + 1
  {
    var a := RunInv(ws, sts, i);
    assert DraftOk(ws[i], dr, Hits(ws, sts, i));
  }

  // ---------- one map ----------

  /** What the groups hold of a shard: the copy of its owner at its seat `a`. */
  ghost function Held(w: World, sid: nat, a: nat): Shard
    requires ConfigsOk(w) && sid < NSHARDS && IsSeat(w, sid, a)
  {
    if a == 0 then map[] else w.groups[Owner(w, a, sid)].store[sid]
  }

  lemma HeldIsPart(ws: seq<World>, sts: seq<Step>, i: nat, sid: nat) returns (a: nat)
    requires IsRun(ws, sts) && i < |ws| && sid < NSHARDS && sid !in Hits(ws, sts, i)
    ensures ConfigsOk(ws[i]) && IsSeat(ws[i], sid, a) && Held(ws[i], sid, a) == Part(ws[i].history, sid)
  {
    var seats := RunInv(ws, sts, i);
    a := seats[sid];
    assert IsSeat(ws[i], sid, a);
    assert HolderOk(ws[i], sid, a, Hits(ws, sts, i));
  }

  /** The groups act as one map: what they hold of a shard changes by the effect of an
      operation on that shard when a group executes one, and by no other step, whatever
      configuration changes, transfers and harmless deletions move it around. */
  lemma GroupsActAsOneMap(ws: seq<World>, sts: seq<Step>, i: nat, sid: nat) returns (a: nat, b: nat)
    requires IsRun(ws, sts) && i < |sts| && sid < NSHARDS && sid !in Hits(ws, sts, i + 1)
    ensures ConfigsOk(ws[i]) && IsSeat(ws[i], sid, a) && ConfigsOk(ws[i + 1]) && IsSeat(ws[i + 1], sid, b)
    ensures Held(ws[i + 1], sid, b) ==
      if sts[i].Handle? && Executes(ws[i], sts[i].gid, sts[i].op) && Key2Shard(sts[i].op.key) == sid
      then Effect(Held(ws[i], sid, a), sts[i].op)
      else Held(ws[i], sid, a)
  {
    HitsGrow(ws, sts, i);
    StepPart(ws, sts, i, sid);
    a := HeldIsPart(ws, sts, i, sid);
    b := HeldIsPart(ws, sts, i + 1, sid);
  }

  lemma HitsGrow(ws: seq<World>, sts: seq<Step>, i: nat)
    requires IsRun(ws, sts) && i < |sts|
    ensures Hits(ws, sts, i) <= Hits(ws, sts, i + 1)
  {
  }

  lemma StepPart(ws: seq<World>, sts: seq<Step>, i: nat, sid: nat)
    requires IsRun(ws, sts) && i < |sts|
    ensures Part(ws[i + 1].history, sid) ==
      if sts[i].Handle? && Executes(ws[i], sts[i].gid, sts[i].op) && Key2Shard(sts[i].op.key) == sid
      then Effect(Part(ws[i].history, sid), sts[i].op)
      else Part(ws[i].history, sid)
  {
    PartStep(ws[i], sts[i], sid);
  }

  lemma PartStep(w: World, st: Step, sid: nat)
    requires Enabled(w, st)
    ensures Part(Apply(w, st).history, sid) ==
      if st.Handle? && Executes(w, st.gid, st.op) && Key2Shard(st.op.key) == sid
      then Effect(Part(w.history, sid), st.op)
      else Part(w.history, sid)
  {
    if st.Handle? {
      PartGrows(w.history, st.op, sid);
    }
  }

  /** Whatever group serves a shard holds exactly that shard's part of the one map, unless a
      deletion dropped the current copy. */
  lemma ServesOneMap(ws: seq<World>, sts: seq<Step>, i: nat, g: nat, sid: nat)
    requires IsRun(ws, sts) && i < |ws| && sid !in Hits(ws, sts, i)
    requires g in ws[i].groups && Owns(ws[i].groups[g], sid)
    ensures ws[i].groups[g].store[sid] == Part(ws[i].history, sid)
  {
    var a := RunInv(ws, sts, i);
    ServesAtSeat(ws[i], a, g, sid);
    assert HolderOk(ws[i], sid, a[sid], Hits(ws, sts, i));
  }

  /** Every served read of a shard that was not hit returns what the one map holds. */
  lemma ReadsOneMap(ws: seq<World>, sts: seq<Step>, i: nat)
    requires IsRun(ws, sts) && i < |sts| && sts[i].Handle? && sts[i].op.kind == Get
    requires Key2Shard(sts[i].op.key) !in Hits(ws, sts, i)
    requires ServedBy(ws[i], sts[i].gid, sts[i].op).reply.err != ErrWrongGroup
    ensures ServedBy(ws[i], sts[i].gid, sts[i].op).reply == Read(Replay(ws[i].history), sts[i].op.key)
  {
    ServesOneMap(ws, sts, i, sts[i].gid, Key2Shard(sts[i].op.key));
  }

  /** No write is lost: at every moment some group holds the current copy of each shard that
      was ever written and not hit, also while no group serves it. */
  lemma NothingLost(ws: seq<World>, sts: seq<Step>, i: nat, sid: nat) returns (g: nat)
    requires IsRun(ws, sts) && i < |ws| && sid < NSHARDS && Part(ws[i].history, sid) != map[]
    requires sid !in Hits(ws, sts, i)
    ensures g in ws[i].groups && ws[i].groups[g].store[sid] == Part(ws[i].history, sid)
  {
    var a := HeldIsPart(ws, sts, i, sid);
    g := Owner(ws[i], a, sid);
  }

  /** A copy anywhere has only keys that are in the one map: a transferred shard laid over it
      replaces it. */
  lemma CopiesAreOld(ws: seq<World>, sts: seq<Step>, i: nat, g: nat, sid: nat)
    requires IsRun(ws, sts) && i < |ws| && g in ws[i].groups && sid < NSHARDS
    ensures ws[i].groups[g].store[sid] + Part(ws[i].history, sid) == Part(ws[i].history, sid)
  {
    var a := RunInv(ws, sts, i);
    assert CopyOk(ws[i], ws[i].groups[g]);
    OverlayIsReplacement(ws[i].groups[g].store[sid], Part(ws[i].history, sid));
  }

  // ---------- what operations do ----------

  /** The write an operation makes. */
  function WriteOf(op: Op): W.Write<Key, byte> {
    match op.kind
    case Put => W.Put(op.key, op.value)
    case Append => W.Append(op.key, op.value)
    case Get => W.Nothing
  }

  function WritesOf(h: seq<Op>): (ws: seq<W.Write<Key, byte>>)
    ensures |ws| == |h| && forall i :: 0 <= i < |h| ==> ws[i] == WriteOf(h[i])
  {
    seq(|h|, i requires 0 <= i < |h| => WriteOf(h[i]))
  }

  lemma EffectHolds(m: Shard, op: Op, ws: seq<W.Write<Key, byte>>, n: nat, k: Key)
    requires n < |ws| && ws[n] == WriteOf(op)
    requires (k in m <==> W.Written(ws, k, n)) && Lookup(m, k) == W.Value(ws, k, n)
    ensures k in Effect(m, op) <==> W.Written(ws, k, n + 1)
    ensures Lookup(Effect(m, op), k) == W.Value(ws, k, n + 1)
  {
    W.WrittenNext(ws, k, n);
    W.ValueNext(ws, k, n);
  }

  /** The one map has a key exactly if the history wrote to it, with the last value put there
      and what was appended since. */
  lemma {:induction false} MapHoldsWrites(h: seq<Op>, n: nat, k: Key)
    requires n <= |h|
    ensures k in Replay(h[..n]) <==> W.Written(WritesOf(h), k, n)
    ensures Lookup(Replay(h[..n]), k) == W.Value(WritesOf(h), k, n)
  {
    if n == 0 {
      W.ValueUnwritten(WritesOf(h), k, 0);
    } else {
      MapHoldsWrites(h, n - 1, k);
      assert h[..n][..n - 1] == h[..n - 1];
      EffectHolds(Replay(h[..n - 1]), h[n - 1], WritesOf(h), n - 1, k);
    }
  }

  /** Every served read of a shard that was not hit is answered with the last value put at the
      key by any group, followed by what was appended there since, in the order of execution;
      and with the missing-key error exactly if nothing was ever written to the key. */
  lemma ReadsSeeWrites(ws: seq<World>, sts: seq<Step>, i: nat)
    requires IsRun(ws, sts) && i < |sts| && sts[i].Handle? && sts[i].op.kind == Get
    requires Key2Shard(sts[i].op.key) !in Hits(ws, sts, i)
    requires ServedBy(ws[i], sts[i].gid, sts[i].op).reply.err != ErrWrongGroup
    ensures var h, k, reply := ws[i].history, sts[i].op.key, ServedBy(ws[i], sts[i].gid, sts[i].op).reply;
      && (reply.err == ErrNoKey <==> !W.Written(WritesOf(h), k, |h|))
      && (reply.err == OK <==> W.Written(WritesOf(h), k, |h|))
      && reply.value == W.Value(WritesOf(h), k, |h|)
  {
    ReadsOneMap(ws, sts, i);
    var h := ws[i].history;
    MapHoldsWrites(h, |h|, sts[i].op.key);
    assert h[..|h|] == h;
  }

  /** An operation is refused exactly by a group that does not own its shard under the group's
      configuration; a write that is not refused is answered with OK. */
  lemma WritesAreAnswered(ws: seq<World>, sts: seq<Step>, i: nat)
    requires IsRun(ws, sts) && i < |sts| && sts[i].Handle?
    ensures var g, op := ws[i].groups[sts[i].gid], sts[i].op;
      var reply := ServedBy(ws[i], sts[i].gid, op).reply;
      && (reply.err == ErrWrongGroup <==> ws[i].configs(g.config.num).shards[Key2Shard(op.key)] != sts[i].gid)
      && (op.kind != Get && reply.err != ErrWrongGroup ==> reply == Reply(OK, []))
  {
    var a := RunInv(ws, sts, i);
    assert GroupOk(ws[i], sts[i].gid);
  }

  /** A group that installs a change asks exactly the previous owners of the shards that brought
      data to drop them. */
  lemma DonorsAreAsked(ws: seq<World>, sts: seq<Step>, i: nat, d: Deletion)
    requires IsRun(ws, sts) && i < |sts| && sts[i].Install? && d !in ws[i].deletions
    ensures var dr := sts[i].draft; var g := ws[i].groups[dr.gid];
      d in ws[i + 1].deletions <==>
        && g.config.num + 1 == dr.ch.config.num && d.sid < NSHARDS && dr.ch.store[d.sid] != map[]
        && d == Deletion(ws[i].configs(g.config.num).shards[d.sid], d.sid, g.config.num, dr.gid)
  {
    var a := RunInv(ws, sts, i);
    assert GroupOk(ws[i], sts[i].draft.gid);
    assert ws[i + 1].deletions == ws[i].deletions + Deletions(ws[i].groups[sts[i].draft.gid], sts[i].draft.ch);
  }

  // ---------- at most once ----------

  lemma {:induction false} HistoryGrows(ws: seq<World>, sts: seq<Step>, i: nat, j: nat)
    requires IsRun(ws, sts) && i <= j < |ws|
    ensures ws[i].history <= ws[j].history
  {
    if i < j {
      HistoryGrows(ws, sts, i, j - 1);
      assert ws[j] == Apply(ws[j - 1], sts[j - 1]);
    }
  }

  /** Step `i` executes request `id` of client `c`. */
  ghost predicate ExecutesAt(ws: seq<World>, sts: seq<Step>, i: nat, c: Client, id: nat)
    requires IsRun(ws, sts) && i < |sts|
  {
    sts[i].Handle? && Executes(ws[i], sts[i].gid, sts[i].op) && sts[i].op.client == c && sts[i].op.id == id
  }

  /** What a step executes is in the history from then on. */
  lemma ExecutedStays(ws: seq<World>, sts: seq<Step>, i: nat, j: nat, c: Client, id: nat)
    requires IsRun(ws, sts) && i < j < |ws| && ExecutesAt(ws, sts, i, c, id)
    ensures InHistory(ws[j].history, c, id)
  {
    HistoryGrows(ws, sts, i + 1, j);
    assert ws[i + 1].history == ws[i].history + [sts[i].op];
    assert ws[j].history[|ws[i].history|] == sts[i].op;
  }

  /** Each request takes effect at most once in the whole system, whichever groups it reaches
      and however often. */
  lemma AtMostOnce(ws: seq<World>, sts: seq<Step>, i: nat, j: nat, c: Client, id: nat)
    requires IsRun(ws, sts) && i <= j < |sts| && ExecutesAt(ws, sts, i, c, id) && ExecutesAt(ws, sts, j, c, id)
    ensures i == j
  {
    if i < j {
      ExecutedStays(ws, sts, i, j, c, id);
      var a := RunInv(ws, sts, j);
      NewIsUnexecuted(ws[j], a, Hits(ws, sts, j), sts[j].gid, sts[j].op);
    }
  }

  /** A request that is answered has taken effect, at this step or before it; before it, if it
      has no effect now. */
  lemma AnsweredIsExecuted(ws: seq<World>, sts: seq<Step>, i: nat)
    requires IsRun(ws, sts) && i < |sts| && sts[i].Handle?
    requires ServedBy(ws[i], sts[i].gid, sts[i].op).reply.err != ErrWrongGroup
    ensures sts[i].op in ws[i + 1].history
    ensures !Executes(ws[i], sts[i].gid, sts[i].op) ==> sts[i].op in ws[i].history
  {
    if !Executes(ws[i], sts[i].gid, sts[i].op) {
      var a := RunInv(ws, sts, i);
      RepeatedIsExecuted(ws[i], a, Hits(ws, sts, i), sts[i].gid, sts[i].op);
    } else {
      assert ws[i + 1].history[|ws[i].history|] == sts[i].op;
    }
  }

  // ---------- deletions, exactly ----------

  /** The group that owns the shard at its seat holds the current copy. */
  ghost predicate HoldsCurrent(w: World, sid: nat, a: nat)
    requires ConfigsOk(w) && sid < NSHARDS
  {
    a > 0 && w.groups[Owner(w, a, sid)].store[sid] == Part(w.history, sid)
  }

  /** A deletion leaves the current copy alone exactly if it is not harmful: it is harmful if
      and only if it takes effect, its donor owns the shard at its seat, and something was
      written to the shard. */
  lemma DeletionHarmlessIff(ws: seq<World>, sts: seq<Step>, i: nat, d: Deletion, num: nat) returns (seat: nat)
    requires IsRun(ws, sts) && i < |ws| && Enabled(ws[i], Drop(d, num))
    requires d.sid < NSHARDS && d.sid !in Hits(ws, sts, i)
    ensures ConfigsOk(ws[i]) && ConfigsOk(Apply(ws[i], Drop(d, num)))
    ensures IsSeat(ws[i], d.sid, seat) && HoldsCurrent(ws[i], d.sid, seat)
    ensures HoldsCurrent(Apply(ws[i], Drop(d, num)), d.sid, seat) <==> !Harmful(ws[i], Drop(d, num))
    ensures Harmful(ws[i], Drop(d, num)) <==>
      && num <= ws[i].groups[d.donor].config.num && !Owns(ws[i].groups[d.donor], d.sid)
      && Owner(ws[i], seat, d.sid) == d.donor && Part(ws[i].history, d.sid) != map[]
  {
    var a := RunInv(ws, sts, i);
    seat := a[d.sid];
    assert IsSeat(ws[i], d.sid, seat);
    assert HolderOk(ws[i], d.sid, seat, Hits(ws, sts, i));
    assert GroupOk(ws[i], d.donor);
    forall b: nat | IsSeat(ws[i], d.sid, b) ensures b == seat {
      SeatUnique(ws[i], d.sid, seat, b);
    }
  }
}
