/** Serving client operations keeps the invariant. */
module ShardServing {
  import opened ShardGroup
  import opened Deployment
  import opened Ownership
  import opened ShardInvariant

  /** The seat of a shard that an installable draft has fetched is the configuration the
      draft leaves, whose owner has moved on: no group serves the shard. */
  lemma FetchedIsAtRest(w: World, a: Seats, dr: Draft, sid: nat)
    requires ConfigsOk(w) && GroupsOk(w) && SeatsOk(w, a) && DraftShape(w, dr)
    requires Num(w, dr.gid) == dr.cur.num && sid < NSHARDS && Fetched(dr, sid)
    ensures a[sid] == dr.cur.num > 0
    ensures forall g :: g in w.groups ==> !Owns(w.groups[g], sid)
  {
    SeatBeforeMove(w, a, dr.gid, sid);
    forall g | g in w.groups ensures !Owns(w.groups[g], sid) {
      if Owns(w.groups[g], sid) {
        ServesAtSeat(w, a, g, sid);
      }
    }
  }

  /** `w'` is `w` after group `gid` executed `op`. */
  ghost predicate Executed(w: World, w': World, gid: nat, op: Op) {
    && gid in w.groups && w'.configs == w.configs && w'.groups == w.groups[gid := Execute(w.groups[gid], op)]
    && w'.history == w.history + [op] && w'.drafts == w.drafts && w'.deletions == w.deletions
    && w'.issued == w.issued && w'.lastId == w.lastId
    && (w'.waiting == w.waiting || w'.waiting == w.waiting - {op.client})
  }

  lemma RemembersMore(prev: Table, prev': Table, h: seq<Op>, op: Op, sid: nat)
    requires Remembers(prev, h, sid) && (forall c :: Last(prev, c) <= Last(prev', c))
    requires Key2Shard(op.key) == sid ==> Last(prev', op.client) >= op.id
    ensures Remembers(prev', h + [op], sid)
  {
  }

  lemma ExecutedHolder(w: World, a: Seats, hit: set<nat>, w': World, gid: nat, op: Op, sid: nat)
    requires Placed(w, a, hit) && gid in w.groups && Executes(w, gid, op) && Executed(w, w', gid, op) && sid < NSHARDS
    requires ConfigsOk(w')
    ensures HolderOk(w', sid, a[sid], hit)
  {
    assert HolderOk(w, sid, a[sid], hit);
    PartGrows(w.history, op, sid);
    ServesAtSeat(w, a, gid, Key2Shard(op.key));
    if a[sid] > 0 {
      var g := Owner(w, a[sid], sid);
      RemembersMore(w.groups[g].prevReq, w'.groups[g].prevReq, w.history, op, sid);
    }
  }

  lemma ExecutedKnown(w: World, w': World, gid: nat, op: Op, prev: Table)
    requires Executed(w, w', gid, op) && Known(w, prev)
    ensures Known(w', prev)
  {
    forall c, id ensures InHistory(w.history, c, id) ==> InHistory(w'.history, c, id) {
      InHistoryGrows(w.history, op, c, id);
    }
    KnownGrows(w, w', prev);
  }

  lemma ExecutedCopy(w: World, w': World, x: Group, op: Op)
    requires CopyOk(w, x) && w'.history == w.history + [op]
    ensures CopyOk(w', x) && CopyOk(w', Execute(x, op))
  {
    forall sid | 0 <= sid < NSHARDS
      ensures x.store[sid].Keys <= Part(w'.history, sid).Keys
      ensures Execute(x, op).store[sid].Keys <= Part(w'.history, sid).Keys
    {
      PartGrows(w.history, op, sid);
    }
  }

  lemma ExecutedDraft(w: World, a: Seats, hit: set<nat>, w': World, gid: nat, op: Op, dr: Draft)
    requires Placed(w, a, hit) && gid in w.groups && Executes(w, gid, op) && Executed(w, w', gid, op)
    requires DraftOk(w, dr, hit)
    ensures DraftOk(w', dr, hit)
  {
    ExecutedKnown(w, w', gid, op, dr.ch.prevReq);
    forall sid | 0 <= sid < NSHARDS ensures dr.ch.store[sid].Keys <= Part(w'.history, sid).Keys {
      PartGrows(w.history, op, sid);
    }
    if Num(w, dr.gid) == dr.cur.num {
      forall sid | 0 <= sid < NSHARDS && Fetched(dr, sid)
        ensures sid !in hit ==> dr.ch.store[sid] == Part(w'.history, sid)
        ensures Remembers(dr.ch.prevReq, w'.history, sid)
      {
        FetchedIsAtRest(w, a, dr, sid);
        PartGrows(w.history, op, sid);
        RemembersMore(dr.ch.prevReq, dr.ch.prevReq, w.history, op, sid);
      }
    }
  }

  lemma ExecutedClients(w: World, a: Seats, hit: set<nat>, w': World, gid: nat, op: Op)
    requires Inv(w, a, hit) && gid in w.groups && op in w.issued && Executes(w, gid, op) && Executed(w, w', gid, op)
    requires w'.waiting != w.waiting ==> op.id == Last(w.lastId, op.client)
    ensures ClientsOk(w')
  {
    NewIsUnexecuted(w, a, hit, gid, op);
    forall c, id ensures InHistory(w.history, c, id) ==> InHistory(w'.history, c, id) {
      InHistoryGrows(w.history, op, c, id);
    }
    InHistoryGrows(w.history, op, op.client, op.id);
    forall i, j | 0 <= i < j < |w'.history|
      ensures !(w'.history[i].client == w'.history[j].client && w'.history[i].id == w'.history[j].id)
    {
      assert w'.history[i] == w.history[i];
    }
  }

  lemma ExecutedEntry(w: World, w': World, gid: nat, op: Op, prev: Table)
    requires Executed(w, w', gid, op) && Known(w, prev) && 0 < op.id <= Last(w.lastId, op.client)
    ensures Known(w', prev) && Known(w', prev[op.client := op.id])
  {
    ExecutedKnown(w, w', gid, op, prev);
    InHistoryGrows(w.history, op, op.client, op.id);
  }

  lemma ExecutedCopies(w: World, w': World, gid: nat, op: Op)
    requires CopiesOk(w) && ClientsOk(w) && op in w.issued && Executed(w, w', gid, op)
    ensures CopiesOk(w')
  {
    forall g | g in w'.groups ensures CopyOk(w', w'.groups[g]) && Known(w', w'.groups[g].prevReq) {
      assert CopyOk(w, w.groups[g]) && Known(w, w.groups[g].prevReq);
      ExecutedCopy(w, w', w.groups[g], op);
      ExecutedEntry(w, w', gid, op, w.groups[g].prevReq);
    }
  }

  lemma ExecutedHolders(w: World, a: Seats, hit: set<nat>, w': World, gid: nat, op: Op)
    requires Placed(w, a, hit) && gid in w.groups && Executes(w, gid, op) && Executed(w, w', gid, op) && ConfigsOk(w')
    ensures HoldersOk(w', a, hit)
  {
    forall sid | 0 <= sid < NSHARDS ensures HolderOk(w', sid, a[sid], hit) {
      ExecutedHolder(w, a, hit, w', gid, op, sid);
    }
  }

  lemma ExecutedDrafts(w: World, a: Seats, hit: set<nat>, w': World, gid: nat, op: Op)
    requires Placed(w, a, hit) && gid in w.groups && Executes(w, gid, op) && Executed(w, w', gid, op)
    ensures DraftsOk(w', hit)
  {
    forall dr | dr in w'.drafts ensures DraftOk(w', dr, hit) {
      ExecutedDraft(w, a, hit, w', gid, op, dr);
    }
  }

  lemma ExecutedFrame(w: World, a: Seats, w': World, gid: nat, op: Op)
    requires ConfigsOk(w) && GroupsOk(w) && SeatsOk(w, a) && DeletionsOk(w, a) && Executed(w, w', gid, op)
    ensures ConfigsOk(w') && GroupsOk(w') && SeatsOk(w', a) && DeletionsOk(w', a)
  {
    SameSeats(w, a, w');
  }

  lemma ExecuteStep(w: World, a: Seats, hit: set<nat>, gid: nat, op: Op, w': World)
    requires Inv(w, a, hit) && gid in w.groups && op in w.issued && Executes(w, gid, op) && Executed(w, w', gid, op)
    requires w'.waiting != w.waiting ==> op.id == Last(w.lastId, op.client)
    ensures Inv(w', a, hit)
  {
    ExecutedFrame(w, a, w', gid, op);
    ExecutedCopies(w, w', gid, op);
    ExecutedClients(w, a, hit, w', gid, op);
    ExecutedHolders(w, a, hit, w', gid, op);
    ExecutedDrafts(w, a, hit, w', gid, op);
  }

  /** Only the set of waiting clients changes: one has learnt that its request was executed. */
  lemma HeardStep(w: World, a: Seats, hit: set<nat>, w': World, op: Op)
    requires Inv(w, a, hit) && op in w.issued
    requires w' == w.(waiting := w'.waiting)
    requires w'.waiting == w.waiting || (w'.waiting == w.waiting - {op.client} && op in w.history
                                         && op.id == Last(w.lastId, op.client))
    ensures Inv(w', a, hit)
  {
    SameSeats(w, a, w');
    forall sid | 0 <= sid < NSHARDS ensures HolderOk(w', sid, a[sid], hit) {
      assert HolderOk(w, sid, a[sid], hit);
    }
    forall g | g in w'.groups ensures CopyOk(w', w'.groups[g]) && Known(w', w'.groups[g].prevReq) {
      assert CopyOk(w, w.groups[g]) && Known(w, w.groups[g].prevReq);
    }
    forall dr | dr in w'.drafts ensures DraftOk(w', dr, hit) {
      assert DraftOk(w, dr, hit);
    }
  }

  lemma HandleStep(w: World, a: Seats, hit: set<nat>, gid: nat, op: Op, heard: bool)
    requires Inv(w, a, hit) && Enabled(w, Handle(gid, op, heard))
    ensures Inv(Apply(w, Handle(gid, op, heard)), a, hit)
  {
    var w' := Apply(w, Handle(gid, op, heard));
    if Executes(w, gid, op) {
      ExecuteStep(w, a, hit, gid, op, w');
    } else {
      if Owns(w.groups[gid], Key2Shard(op.key)) {
        RepeatedIsExecuted(w, a, hit, gid, op);
      }
      assert w'.groups == w.groups;
      HeardStep(w, a, hit, w', op);
    }
  }
}
