/** Moving shards between groups keeps the invariant. */
module ShardMoves {
  import opened ShardGroup
  import opened Deployment
  import opened Ownership
  import opened ShardInvariant

  lemma KnownMerge(w: World, p: Table, q: Table)
    requires Known(w, p) && Known(w, q)
    ensures Known(w, MergeTables(p, q))
  {
  }

  lemma RemembersMerge(p: Table, q: Table, h: seq<Op>, sid: nat)
    requires Remembers(p, h, sid) || Remembers(q, h, sid)
    ensures Remembers(MergeTables(p, q), h, sid)
  {
  }

  // ---------- building a change ----------

  /** Only drafts are added. */
  lemma DraftStep(w: World, a: Seats, hit: set<nat>, dr: Draft)
    requires Placed(w, a, hit) && DraftOk(w, dr, hit)
    ensures Placed(w.(drafts := w.drafts + {dr}), a, hit)
  {
    var w' := w.(drafts := w.drafts + {dr});
    SameSeats(w, a, w');
    forall sid | 0 <= sid < NSHARDS ensures HolderOk(w', sid, a[sid], hit) {
      assert HolderOk(w, sid, a[sid], hit);
    }
    forall g | g in w'.groups ensures CopyOk(w', w'.groups[g]) && Known(w', w'.groups[g].prevReq) {
      assert CopyOk(w, w.groups[g]) && Known(w, w.groups[g].prevReq);
    }
    forall x | x in w'.drafts ensures DraftOk(w', x, hit) {
      assert DraftOk(w, x, hit);
    }
  }

  lemma BeginStep(w: World, a: Seats, hit: set<nat>, gid: nat)
    requires Placed(w, a, hit) && Enabled(w, Begin(gid))
    ensures Placed(Apply(w, Begin(gid)), a, hit)
  {
    var g := w.groups[gid];
    var dr := Draft(gid, g.config, EmptyChange(w.configs(g.config.num + 1)), {});
    assert GroupOk(w, gid);
    assert DraftOk(w, dr, hit);
    DraftStep(w, a, hit, dr);
  }

  /** What a donor that has moved on hands over for a shard is the current copy. */
  lemma DonorIsCurrent(w: World, a: Seats, hit: set<nat>, dr: Draft, d: nat, sid: nat)
    requires Placed(w, a, hit) && DraftShape(w, dr) && Num(w, dr.gid) == dr.cur.num && sid < NSHARDS
    requires Gains(dr.gid, dr.cur, dr.ch.config, sid) && dr.cur.shards[sid] == d && d in w.groups
    requires Num(w, d) > dr.cur.num
    ensures sid !in hit ==> w.groups[d].store[sid] == Part(w.history, sid)
    ensures Remembers(w.groups[d].prevReq, w.history, sid)
  {
    assert Owner(w, Num(w, dr.gid), sid) == d;
    SeatBeforeMove(w, a, dr.gid, sid);
    assert HolderOk(w, sid, a[sid], hit);
  }

  function Pulled(dr: Draft, d: nat, x: Group): Draft {
    dr.(ch := WithAnswer(dr.gid, dr.cur, dr.ch, d, x.store, x.prevReq), pulled := dr.pulled + {d})
  }

  lemma PulledShard(w: World, dr: Draft, d: nat, sid: nat)
    requires DraftShape(w, dr) && d in w.groups && CopyOk(w, w.groups[d]) && sid < NSHARDS
    ensures var dr' := Pulled(dr, d, w.groups[d]);
      && (!Fetched(dr', sid) ==> dr'.ch.store[sid] == map[])
      && dr'.ch.store[sid].Keys <= Part(w.history, sid).Keys
  {
    assert dr.ch.store[sid].Keys <= Part(w.history, sid).Keys;
    assert w.groups[d].store[sid].Keys <= Part(w.history, sid).Keys;
  }

  lemma PulledShape(w: World, dr: Draft, d: nat)
    requires DraftShape(w, dr) && d in w.groups && Num(w, d) > dr.cur.num
    requires CopyOk(w, w.groups[d]) && Known(w, w.groups[d].prevReq)
    ensures DraftShape(w, Pulled(dr, d, w.groups[d]))
  {
    var dr' := Pulled(dr, d, w.groups[d]);
    KnownMerge(w, dr.ch.prevReq, w.groups[d].prevReq);
    forall sid | 0 <= sid < NSHARDS
      ensures !Fetched(dr', sid) ==> dr'.ch.store[sid] == map[]
      ensures dr'.ch.store[sid].Keys <= Part(w.history, sid).Keys
    {
      PulledShard(w, dr, d, sid);
    }
  }

  lemma PulledFresh(w: World, a: Seats, hit: set<nat>, dr: Draft, d: nat)
    requires Placed(w, a, hit) && DraftOk(w, dr, hit) && d in w.groups && Num(w, d) > dr.cur.num
    ensures DraftFresh(w, Pulled(dr, d, w.groups[d]), hit)
  {
    var dr' := Pulled(dr, d, w.groups[d]);
    if Num(w, dr.gid) == dr.cur.num {
      forall sid | 0 <= sid < NSHARDS && Fetched(dr', sid)
        ensures sid !in hit ==> dr'.ch.store[sid] == Part(w.history, sid)
        ensures Remembers(dr'.ch.prevReq, w.history, sid)
      {
        if dr.cur.shards[sid] == d {
          DonorIsCurrent(w, a, hit, dr, d, sid);
        }
        RemembersMerge(dr.ch.prevReq, w.groups[d].prevReq, w.history, sid);
      }
    }
  }

  lemma PullStep(w: World, a: Seats, hit: set<nat>, dr: Draft, d: nat)
    requires Placed(w, a, hit) && Enabled(w, Pull(dr, d))
    ensures Placed(Apply(w, Pull(dr, d)), a, hit)
  {
    assert DraftOk(w, dr, hit);
    assert CopyOk(w, w.groups[d]) && Known(w, w.groups[d].prevReq);
    PulledShape(w, dr, d);
    PulledFresh(w, a, hit, dr, d);
    DraftStep(w, a, hit, Pulled(dr, d, w.groups[d]));
  }

  // ---------- installing a change ----------

  /** Copying a shard over a stale copy gives exactly the shard: the stale copy has no key
      of its own. */
  lemma OverlayIsReplacement(stale: Shard, current: Shard)
    requires stale.Keys <= current.Keys
    ensures stale + current == current
  {
  }

  /** Draft `dr` can be installed at its group: it leaves the group's configuration and all
      donors have answered. */
  ghost predicate Installable(w: World, a: Seats, hit: set<nat>, dr: Draft) {
    && Placed(w, a, hit) && DraftOk(w, dr, hit) && Num(w, dr.gid) == dr.cur.num
    && Donors(dr.gid, dr.cur, dr.ch.config) <= dr.pulled
  }

  /** `w'` is `w` with `dr` installed. */
  ghost predicate Installed(w: World, w': World, dr: Draft)
    requires dr.gid in w.groups
  {
    w' == w.(groups := w.groups[dr.gid := ApplyChange(w.groups[dr.gid], dr.ch)],
             deletions := w.deletions + Deletions(w.groups[dr.gid], dr.ch))
  }

  /** A shard the group will own is at rest where the group is, and fetched if it has to be. */
  lemma GainedIsReady(w: World, a: Seats, hit: set<nat>, dr: Draft, sid: nat)
    requires Installable(w, a, hit, dr) && sid < NSHARDS && Owner(w, dr.cur.num + 1, sid) == dr.gid
    ensures a[sid] == dr.cur.num
    ensures var d := dr.cur.shards[sid];
      || (d == 0 && dr.cur.num == 0)
      || (d == dr.gid && dr.cur.num > 0)
      || (Fetched(dr, sid) && d in w.groups && Num(w, d) > dr.cur.num)
  {
    var d := Owner(w, dr.cur.num, sid);
    if d != 0 && d != dr.gid {
      assert Gains(dr.gid, dr.cur, dr.ch.config, sid);
      assert d in Donors(dr.gid, dr.cur, dr.ch.config);
    }
    SeatBeforeMove(w, a, dr.gid, sid);
  }

  lemma InstalledGroups(w: World, dr: Draft, w': World)
    requires ConfigsOk(w) && GroupsOk(w) && DraftShape(w, dr) && Num(w, dr.gid) == dr.cur.num && Installed(w, w', dr)
    ensures GroupsOk(w') && OnlyGroup(w, w', dr.gid) && w'.groups[dr.gid].config == w.configs(dr.cur.num + 1)
  {
    forall x | x in w'.groups ensures GroupOk(w', x) {
      assert GroupOk(w, x);
    }
  }

  lemma InstalledSeats(w: World, a: Seats, hit: set<nat>, dr: Draft, w': World)
    requires Installable(w, a, hit, dr) && Installed(w, w', dr)
    ensures ConfigsOk(w') && GroupsOk(w') && SeatsOk(w', Moved(w, a, dr.gid, dr.cur.num))
  {
    InstalledGroups(w, dr, w');
    forall sid | 0 <= sid < NSHARDS && Owner(w, dr.cur.num + 1, sid) == dr.gid
      ensures a[sid] == dr.cur.num
      ensures dr.cur.num > 0 ==>
        Owner(w, dr.cur.num, sid) == dr.gid || Num(w, Owner(w, dr.cur.num, sid)) > dr.cur.num
    {
      GainedIsReady(w, a, hit, dr, sid);
    }
    MoveKeepsSeats(w, a, w', dr.gid);
  }

  /** The gaining group's copy, once the change is installed, is the current one. */
  lemma GainedCopy(w: World, a: Seats, hit: set<nat>, dr: Draft, sid: nat)
    requires Installable(w, a, hit, dr) && sid < NSHARDS && Owner(w, dr.cur.num + 1, sid) == dr.gid
    ensures sid !in hit ==> w.groups[dr.gid].store[sid] + dr.ch.store[sid] == Part(w.history, sid)
    ensures Remembers(w.groups[dr.gid].prevReq, w.history, sid) || Remembers(dr.ch.prevReq, w.history, sid)
  {
    GainedIsReady(w, a, hit, dr, sid);
    assert HolderOk(w, sid, a[sid], hit);
    assert CopyOk(w, w.groups[dr.gid]);
    OverlayIsReplacement(w.groups[dr.gid].store[sid], Part(w.history, sid));
  }

  lemma InstalledShard(w: World, dr: Draft, w': World, sid: nat)
    requires DraftShape(w, dr) && ConfigsOk(w) && Num(w, dr.gid) == dr.cur.num && Installed(w, w', dr) && sid < NSHARDS
    ensures w'.groups[dr.gid].store[sid] == w.groups[dr.gid].store[sid] + dr.ch.store[sid]
    ensures w'.groups[dr.gid].prevReq == MergeTables(w.groups[dr.gid].prevReq, dr.ch.prevReq)
  {
  }

  lemma GainedHolder(w: World, a: Seats, hit: set<nat>, dr: Draft, w': World, sid: nat)
    requires Installable(w, a, hit, dr) && Installed(w, w', dr) && ConfigsOk(w')
    requires sid < NSHARDS && Owner(w, dr.cur.num + 1, sid) == dr.gid
    ensures HolderOk(w', sid, dr.cur.num + 1, hit)
  {
    InstalledShard(w, dr, w', sid);
    GainedCopy(w, a, hit, dr, sid);
    RemembersMerge(w.groups[dr.gid].prevReq, dr.ch.prevReq, w.history, sid);
  }

  lemma KeptHolder(w: World, a: Seats, hit: set<nat>, dr: Draft, w': World, sid: nat)
    requires Installable(w, a, hit, dr) && Installed(w, w', dr) && ConfigsOk(w')
    requires sid < NSHARDS && Owner(w, dr.cur.num + 1, sid) != dr.gid
    ensures HolderOk(w', sid, a[sid], hit)
  {
    assert HolderOk(w, sid, a[sid], hit);
    InstalledShard(w, dr, w', sid);
    assert !Fetched(dr, sid);
    if a[sid] > 0 && Owner(w, a[sid], sid) == dr.gid {
      RemembersMerge(w.groups[dr.gid].prevReq, dr.ch.prevReq, w.history, sid);
    }
  }

  lemma InstalledHolders(w: World, a: Seats, hit: set<nat>, dr: Draft, w': World)
    requires Installable(w, a, hit, dr) && Installed(w, w', dr) && ConfigsOk(w')
    ensures HoldersOk(w', Moved(w, a, dr.gid, dr.cur.num), hit)
  {
    forall sid | 0 <= sid < NSHARDS ensures HolderOk(w', sid, Moved(w, a, dr.gid, dr.cur.num)[sid], hit) {
      if Owner(w, dr.cur.num + 1, sid) == dr.gid {
        GainedHolder(w, a, hit, dr, w', sid);
      } else {
        KeptHolder(w, a, hit, dr, w', sid);
      }
    }
  }

  lemma InstalledCopies(w: World, a: Seats, hit: set<nat>, dr: Draft, w': World)
    requires Installable(w, a, hit, dr) && Installed(w, w', dr)
    ensures CopiesOk(w')
  {
    var g := w.groups[dr.gid];
    assert CopyOk(w, g) && Known(w, g.prevReq);
    KnownMerge(w, g.prevReq, dr.ch.prevReq);
    assert CopyOk(w', w'.groups[dr.gid]);
    forall x | x in w'.groups && x != dr.gid ensures CopyOk(w', w'.groups[x]) && Known(w', w'.groups[x].prevReq) {
      assert CopyOk(w, w.groups[x]) && Known(w, w.groups[x].prevReq);
    }
  }

  lemma InstalledDrafts(w: World, a: Seats, hit: set<nat>, dr: Draft, w': World)
    requires Installable(w, a, hit, dr) && Installed(w, w', dr)
    ensures DraftsOk(w', hit)
  {
    assert Num(w', dr.gid) == Num(w, dr.gid) + 1;
    forall x | x in w'.drafts ensures DraftOk(w', x, hit) {
      assert DraftOk(w, x, hit);
    }
  }

  lemma NewDeletion(w: World, dr: Draft, d: Deletion)
    requires DraftShape(w, dr) && GroupsOk(w) && Num(w, dr.gid) == dr.cur.num
    requires d in Deletions(w.groups[dr.gid], dr.ch)
    ensures d.sid < NSHARDS && d.at == dr.cur.num && Owner(w, dr.cur.num + 1, d.sid) == dr.gid
  {
    assert Fetched(dr, d.sid);
  }

  lemma SeatsAdvance(w: World, a: Seats, hit: set<nat>, dr: Draft, sid: nat)
    requires Installable(w, a, hit, dr) && sid < NSHARDS
    ensures Moved(w, a, dr.gid, dr.cur.num)[sid] >= a[sid]
  {
    if Owner(w, dr.cur.num + 1, sid) == dr.gid {
      GainedIsReady(w, a, hit, dr, sid);
    }
  }

  lemma InstalledDeletion(w: World, a: Seats, hit: set<nat>, dr: Draft, d: Deletion)
    requires Installable(w, a, hit, dr)
    requires d in w.deletions || d in Deletions(w.groups[dr.gid], dr.ch)
    ensures d.sid < NSHARDS && Moved(w, a, dr.gid, dr.cur.num)[d.sid] > d.at
  {
    if d in w.deletions {
      SeatsAdvance(w, a, hit, dr, d.sid);
    } else {
      NewDeletion(w, dr, d);
    }
  }

  lemma InstalledDeletions(w: World, a: Seats, hit: set<nat>, dr: Draft, w': World)
    requires Installable(w, a, hit, dr) && Installed(w, w', dr)
    ensures DeletionsOk(w', Moved(w, a, dr.gid, dr.cur.num))
  {
    forall d | d in w'.deletions ensures d.sid < NSHARDS && Moved(w, a, dr.gid, dr.cur.num)[d.sid] > d.at {
      InstalledDeletion(w, a, hit, dr, d);
    }
  }

  lemma InstallStep(w: World, a: Seats, hit: set<nat>, dr: Draft) returns (a': Seats)
    requires Placed(w, a, hit) && Enabled(w, Install(dr))
    ensures Placed(Apply(w, Install(dr)), a', hit)
  {
    var w' := Apply(w, Install(dr));
    assert DraftOk(w, dr, hit);
    if Num(w, dr.gid) == dr.cur.num {
      a' := Moved(w, a, dr.gid, dr.cur.num);
      InstalledSeats(w, a, hit, dr, w');
      InstalledHolders(w, a, hit, dr, w');
      InstalledCopies(w, a, hit, dr, w');
      InstalledDrafts(w, a, hit, dr, w');
      InstalledDeletions(w, a, hit, dr, w');
    } else {
      a' := a;
      assert w'.groups == w.groups && w'.deletions == w.deletions;
      assert w' == w;
    }
  }

  // ---------- dropping a donor's copy ----------

  /** A deletion that arrives in time does not meet the current copy. */
  lemma TimelyMissesHolder(w: World, a: Seats, hit: set<nat>, d: Deletion)
    requires Placed(w, a, hit) && d in w.deletions && d.donor in w.groups && d.sid < NSHARDS && Timely(w, d)
    ensures a[d.sid] > 0 && Owner(w, a[d.sid], d.sid) != d.donor
  {
    assert IsSeat(w, d.sid, a[d.sid]);
  }

  /** The shards whose current copies were dropped, after the step. */
  ghost function HitBy(w: World, hit: set<nat>, st: Step): set<nat>
    requires Enabled(w, st)
  {
    if Harmful(w, st) then hit + {st.d.sid} else hit
  }

  lemma DroppedHolders(w: World, a: Seats, hit: set<nat>, d: Deletion, w': World, hit': set<nat>)
    requires Placed(w, a, hit) && d.donor in w.groups && d.sid < NSHARDS && ConfigsOk(w') && d in w.deletions
    requires hit <= hit' && (Owner(w, a[d.sid], d.sid) == d.donor ==> d.sid in hit') && a[d.sid] > 0
    requires w' == w.(groups := w.groups[d.donor := w.groups[d.donor].(store := w.groups[d.donor].store[d.sid := map[]])])
    ensures HoldersOk(w', a, hit')
  {
    forall sid | 0 <= sid < NSHARDS ensures HolderOk(w', sid, a[sid], hit') {
      assert HolderOk(w, sid, a[sid], hit);
    }
  }

  lemma DroppedCopies(w: World, d: Deletion, w': World)
    requires CopiesOk(w) && d.donor in w.groups && d.sid < NSHARDS
    requires w' == w.(groups := w.groups[d.donor := w.groups[d.donor].(store := w.groups[d.donor].store[d.sid := map[]])])
    ensures CopiesOk(w')
  {
    forall g | g in w'.groups ensures CopyOk(w', w'.groups[g]) && Known(w', w'.groups[g].prevReq) {
      assert CopyOk(w, w.groups[g]) && Known(w, w.groups[g].prevReq);
    }
  }

  lemma SameDrafts(w: World, hit: set<nat>, w': World, hit': set<nat>)
    requires DraftsOk(w, hit) && hit <= hit' && w' == w.(groups := w'.groups) && w'.groups.Keys == w.groups.Keys
    requires forall g :: g in w.groups ==> w'.groups[g].config == w.groups[g].config
    ensures DraftsOk(w', hit')
  {
    forall dr | dr in w'.drafts ensures DraftOk(w', dr, hit') {
      assert DraftOk(w, dr, hit);
    }
  }

  lemma DropStep(w: World, a: Seats, hit: set<nat>, d: Deletion, num: nat)
    requires Placed(w, a, hit) && Enabled(w, Drop(d, num))
    ensures d.sid < NSHARDS && Placed(Apply(w, Drop(d, num)), a, HitBy(w, hit, Drop(d, num)))
  {
    var w' := Apply(w, Drop(d, num));
    var hit' := HitBy(w, hit, Drop(d, num));
    var x := w.groups[d.donor];
    SameSeats(w, a, w');
    SameDrafts(w, hit, w', hit');
    if ApplyDelete(x, num, d.sid) != x {
      assert IsSeat(w, d.sid, a[d.sid]);
      DroppedHolders(w, a, hit, d, w', hit');
      DroppedCopies(w, d, w');
    } else {
      assert w'.groups == w.groups;
      assert w' == w;
      forall sid | 0 <= sid < NSHARDS ensures HolderOk(w', sid, a[sid], hit') {
        assert HolderOk(w, sid, a[sid], hit);
      }
    }
  }
}
