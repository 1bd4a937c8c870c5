/** What every step of the sharded store keeps.  The operations executed so far, by any
    group, make up one history; each shard's part of the map that history yields is held
    by the owner of the shard at its seat, except for the shards in `hit`: those of which a
    deletion dropped the current copy. */
module ShardInvariant {
  import opened ShardGroup
  import opened Deployment
  import opened Ownership

  predicate InHistory(h: seq<Op>, c: Client, id: nat) {
    exists i :: 0 <= i < |h| && h[i].client == c && h[i].id == id
  }

  predicate Untouched(h: seq<Op>, sid: nat) {
    forall i :: 0 <= i < |h| ==> Key2Shard(h[i].key) != sid
  }

  /** The table accounts for every executed operation on the shard. */
  predicate Remembers(prev: Table, h: seq<Op>, sid: nat) {
    forall i :: 0 <= i < |h| && Key2Shard(h[i].key) == sid ==> Last(prev, h[i].client) >= h[i].id
  }

  /** Every entry of the table is the number of an executed request. */
  predicate Known(w: World, prev: Table) {
    forall c :: c in prev ==> 0 < prev[c] <= Last(w.lastId, c) && InHistory(w.history, c, prev[c])
  }

  ghost predicate HolderOk(w: World, sid: nat, a: nat, hit: set<nat>)
    requires ConfigsOk(w) && sid < NSHARDS
  {
    if a == 0 then Untouched(w.history, sid) && Part(w.history, sid) == map[]
    else
      var g := w.groups[Owner(w, a, sid)];
      (sid !in hit ==> g.store[sid] == Part(w.history, sid)) && Remembers(g.prevReq, w.history, sid)
  }

  /** A copy that is not current still has no key that the current one lacks. */
  predicate CopyOk(w: World, x: Group) {
    forall sid :: 0 <= sid < NSHARDS ==> x.store[sid].Keys <= Part(w.history, sid).Keys
  }

  predicate Fetched(dr: Draft, sid: nat) {
    Gains(dr.gid, dr.cur, dr.ch.config, sid) && dr.cur.shards[sid] in dr.pulled
  }

  ghost predicate DraftShape(w: World, dr: Draft) {
    && dr.gid in w.groups && Num(w, dr.gid) >= dr.cur.num
    && dr.cur == w.configs(dr.cur.num) && dr.ch.config == w.configs(dr.cur.num + 1)
    && (forall d :: d in dr.pulled ==> d in w.groups && Num(w, d) > dr.cur.num)
    && (forall sid :: 0 <= sid < NSHARDS && !Fetched(dr, sid) ==> dr.ch.store[sid] == map[])
    && (forall sid :: 0 <= sid < NSHARDS ==> dr.ch.store[sid].Keys <= Part(w.history, sid).Keys)
    && Known(w, dr.ch.prevReq)
  }

  /** What a draft that can still be installed has fetched is current. */
  predicate DraftFresh(w: World, dr: Draft, hit: set<nat>)
    requires dr.gid in w.groups
  {
    Num(w, dr.gid) == dr.cur.num ==>
      forall sid :: 0 <= sid < NSHARDS && Fetched(dr, sid) ==>
        (sid !in hit ==> dr.ch.store[sid] == Part(w.history, sid)) && Remembers(dr.ch.prevReq, w.history, sid)
  }

  ghost predicate DraftOk(w: World, dr: Draft, hit: set<nat>) {
    DraftShape(w, dr) && DraftFresh(w, dr, hit)
  }

  ghost predicate NoRepeats(h: seq<Op>) {
    forall i, j :: 0 <= i < j < |h| ==> !(h[i].client == h[j].client && h[i].id == h[j].id)
  }

  /** A client's requests are numbered without gaps, and all but the one it is waiting for
      have been executed. */
  ghost predicate ClientsOk(w: World) {
    && (forall op :: op in w.issued ==> 0 < op.id <= Last(w.lastId, op.client))
    && (forall op, op' :: op in w.issued && op' in w.issued && op.client == op'.client && op.id == op'.id ==> op == op')
    && (forall c, id :: 0 < id < Last(w.lastId, c) ==> InHistory(w.history, c, id))
    && (forall c :: c !in w.waiting && Last(w.lastId, c) > 0 ==> InHistory(w.history, c, Last(w.lastId, c)))
    && (forall i :: 0 <= i < |w.history| ==> w.history[i] in w.issued)
    && NoRepeats(w.history)
  }

  ghost predicate HoldersOk(w: World, a: Seats, hit: set<nat>)
    requires ConfigsOk(w)
  {
    forall sid {:trigger HolderOk(w, sid, a[sid], hit)} :: 0 <= sid < NSHARDS ==> HolderOk(w, sid, a[sid], hit)
  }

  ghost predicate CopiesOk(w: World) {
    forall g {:trigger CopyOk(w, w.groups[g])} {:trigger Known(w, w.groups[g].prevReq)} ::
      g in w.groups ==> CopyOk(w, w.groups[g]) && Known(w, w.groups[g].prevReq)
  }

  ghost predicate DraftsOk(w: World, hit: set<nat>) {
    forall dr {:trigger DraftOk(w, dr, hit)} :: dr in w.drafts ==> DraftOk(w, dr, hit)
  }

  ghost predicate DeletionsOk(w: World, a: Seats) {
    forall d :: d in w.deletions ==> d.sid < NSHARDS && a[d.sid] > d.at
  }

  /** Where everything is. */
  ghost predicate Placed(w: World, a: Seats, hit: set<nat>) {
    && ConfigsOk(w) && GroupsOk(w) && SeatsOk(w, a)
    && HoldersOk(w, a, hit) && CopiesOk(w) && DraftsOk(w, hit) && DeletionsOk(w, a)
  }

  ghost predicate Inv(w: World, a: Seats, hit: set<nat>) {
    Placed(w, a, hit) && ClientsOk(w)
  }

  // ---------- the map of a longer history ----------

  /** One more operation changes the part of the shard it addresses, by its effect there. */
  lemma PartGrows(h: seq<Op>, op: Op, sid: nat)
    ensures Part(h + [op], sid) ==
      if Key2Shard(op.key) == sid then Effect(Part(h, sid), op) else Part(h, sid)
  {
    assert (h + [op])[..|h|] == h;
    assert Replay(h + [op]) == Effect(Replay(h), op);
  }

  lemma InHistoryGrows(h: seq<Op>, op: Op, c: Client, id: nat)
    ensures InHistory(h, c, id) ==> InHistory(h + [op], c, id)
    ensures InHistory(h + [op], op.client, op.id)
  {
    var h' := h + [op];
    assert h'[|h|] == op;
    if InHistory(h, c, id) {
      var i :| 0 <= i < |h| && h[i].client == c && h[i].id == id;
      assert h'[i] == h[i];
    }
  }

  lemma InitInv(w: World)
    requires Init(w)
    ensures Inv(w, seq(NSHARDS, _ => 0), {})
  {
    var a: Seats := seq(NSHARDS, _ => 0);
    forall sid | 0 <= sid < NSHARDS ensures IsSeat(w, sid, 0) && HolderOk(w, sid, 0, {}) {
      assert Part([], sid) == map[];
    }
  }

  // ---------- clients ----------

  lemma KnownGrows(w: World, w': World, prev: Table)
    requires Known(w, prev)
    requires forall c :: Last(w.lastId, c) <= Last(w'.lastId, c)
    requires forall c, id :: InHistory(w.history, c, id) ==> InHistory(w'.history, c, id)
    ensures Known(w', prev)
  {
  }

  lemma IssueStep(w: World, a: Seats, hit: set<nat>, op: Op)
    requires Inv(w, a, hit) && Enabled(w, Issue(op))
    ensures Inv(Apply(w, Issue(op)), a, hit)
  {
    var w' := Apply(w, Issue(op));
    SameSeats(w, a, w');
    forall g | g in w'.groups ensures CopyOk(w', w'.groups[g]) && Known(w', w'.groups[g].prevReq) {
      KnownGrows(w, w', w.groups[g].prevReq);
    }
    forall dr | dr in w'.drafts ensures DraftOk(w', dr, hit) {
      assert DraftOk(w, dr, hit);
      KnownGrows(w, w', dr.ch.prevReq);
    }
    forall sid | 0 <= sid < NSHARDS ensures HolderOk(w', sid, a[sid], hit) {
      assert HolderOk(w, sid, a[sid], hit);
    }
  }

  /** A request that a serving group takes for a repetition has been executed. */
  lemma RepeatedIsExecuted(w: World, a: Seats, hit: set<nat>, gid: nat, op: Op)
    requires Inv(w, a, hit) && gid in w.groups && op in w.issued && !IsNew(w.groups[gid], op)
    ensures op in w.history
  {
    var prev := w.groups[gid].prevReq;
    assert Known(w, prev);
    var p := prev[op.client];
    assert InHistory(w.history, op.client, op.id);
    var i :| 0 <= i < |w.history| && w.history[i].client == op.client && w.history[i].id == op.id;
    assert w.history[i] in w.issued;
  }

  /** A request that a serving group takes for new has not been executed by any group. */
  lemma NewIsUnexecuted(w: World, a: Seats, hit: set<nat>, gid: nat, op: Op)
    requires Inv(w, a, hit) && gid in w.groups && op in w.issued && Executes(w, gid, op)
    ensures !InHistory(w.history, op.client, op.id)
  {
    var sid := Key2Shard(op.key);
    ServesAtSeat(w, a, gid, sid);
    assert HolderOk(w, sid, a[sid], hit);
  }
}
