/** The sharded store as a whole: groups at different configuration numbers, change
    operations under construction, deletions in flight, and clients with one request
    outstanding each, any of whose requests may be delivered again at any time. */
module Deployment {
  import opened ShardGroup

  /** A change operation that group `gid` is building while at configuration `cur`; the
      donors in `pulled` have answered. */
  datatype Draft = Draft(gid: nat, cur: Config, ch: Change, pulled: set<nat>)

  /** A request to `donor` to drop shard `sid`, due to group `gainer` leaving configuration `at`. */
  datatype Deletion = Deletion(donor: nat, sid: nat, at: nat, gainer: nat)

  datatype World = World(
    configs: nat -> Config,
    groups: map<nat, Group>,
    drafts: set<Draft>,
    deletions: set<Deletion>,
    issued: set<Op>,
    lastId: Table,
    waiting: set<Client>,
    /** The operations executed so far, by whichever group, in order. */
    history: seq<Op>)

  datatype Step =
    | Issue(op: Op)
    | Handle(gid: nat, op: Op, heard: bool)
    | Begin(gid: nat)
    | Pull(draft: Draft, donor: nat)
    | Install(draft: Draft)
    | Drop(d: Deletion, num: nat)

  predicate Enabled(w: World, st: Step) {
    match st
    case Issue(op) => op.client !in w.waiting && op.id == Last(w.lastId, op.client) + 1
    case Handle(gid, op, _) => gid in w.groups && op in w.issued
    case Begin(gid) => gid in w.groups
    case Pull(draft, donor) =>
      && draft in w.drafts && donor in w.groups
      && donor in Donors(draft.gid, draft.cur, draft.ch.config)
      && Transfer(w.groups[donor], draft.ch.config.num).Handed?
    case Install(draft) =>
      && draft in w.drafts && draft.gid in w.groups
      && Donors(draft.gid, draft.cur, draft.ch.config) <= draft.pulled
    case Drop(d, num) =>
      && d in w.deletions && d.donor in w.groups && d.gainer in w.groups
      && d.at <= num <= w.groups[d.gainer].config.num
  }

  function ServedBy(w: World, gid: nat, op: Op): Served
    requires gid in w.groups
  {
    Serve(w.groups[gid], op)
  }

  /** The request is executed by this step, and not a repetition of one executed before. */
  predicate Executes(w: World, gid: nat, op: Op)
    requires gid in w.groups
  {
    Owns(w.groups[gid], Key2Shard(op.key)) && IsNew(w.groups[gid], op)
  }

  function Deletions(g: Group, ch: Change): set<Deletion> {
    set sid | sid in ToDelete(g, ch) && sid < NSHARDS :: Deletion(g.config.shards[sid], sid, g.config.num, g.gid)
  }

  function Apply(w: World, st: Step): World
    requires Enabled(w, st)
  {
    match st
    case Issue(op) =>
      w.(issued := w.issued + {op}, lastId := w.lastId[op.client := op.id], waiting := w.waiting + {op.client})
    case Handle(gid, op, heard) =>
      var s := ServedBy(w, gid, op);
      w.(groups := w.groups[gid := s.g],
         history := if Executes(w, gid, op) then w.history + [op] else w.history,
         waiting := if heard && s.reply.err != ErrWrongGroup && op.id == Last(w.lastId, op.client)
                    then w.waiting - {op.client} else w.waiting)
    case Begin(gid) =>
      var g := w.groups[gid];
      w.(drafts := w.drafts + {Draft(gid, g.config, EmptyChange(w.configs(g.config.num + 1)), {})})
    case Pull(draft, donor) =>
      var t := Transfer(w.groups[donor], draft.ch.config.num);
      w.(drafts := w.drafts +
           {draft.(ch := WithAnswer(draft.gid, draft.cur, draft.ch, donor, t.store, t.prevReq),
                   pulled := draft.pulled + {donor})})
    case Install(draft) =>
      var g := w.groups[draft.gid];
      w.(groups := w.groups[draft.gid := ApplyChange(g, draft.ch)],
         deletions := w.deletions + Deletions(g, draft.ch))
    case Drop(d, num) =>
      w.(groups := w.groups[d.donor := ApplyDelete(w.groups[d.donor], num, d.sid)])
  }

  /** The deletion arrives before its donor is given the shard again. */
  predicate Timely(w: World, d: Deletion)
    requires d.donor in w.groups && d.sid < NSHARDS
  {
    forall c :: d.at < c <= w.groups[d.donor].config.num ==> w.configs(c).shards[d.sid] != d.donor
  }

  // ---------- the initial state ----------

  function NewGroup(gid: nat, first: Config): Group {
    Group(gid, first, EmptyStore(), map[])
  }

  /** Configuration 0 gives every shard to no group, every later one each shard to a group. */
  ghost predicate ConfigsOk(w: World) {
    && 0 !in w.groups
    && (forall c :: w.configs(c).num == c)
    && (forall sid :: 0 <= sid < NSHARDS ==> w.configs(0).shards[sid] == 0)
    && (forall c, sid :: c > 0 && 0 <= sid < NSHARDS ==> w.configs(c).shards[sid] in w.groups)
  }

  ghost predicate Init(w: World) {
    && ConfigsOk(w)
    && (forall g :: g in w.groups ==> w.groups[g] == NewGroup(g, w.configs(0)))
    && w.drafts == {} && w.deletions == {} && w.issued == {} && w.lastId == map[] && w.waiting == {}
    && w.history == []
  }

  ghost predicate IsRun(ws: seq<World>, sts: seq<Step>) {
    && |ws| == |sts| + 1
    && Init(ws[0])
    && forall i {:trigger sts[i]} :: 0 <= i < |sts| ==> Enabled(ws[i], sts[i]) && ws[i + 1] == Apply(ws[i], sts[i])
  }

  /** A run in which every deletion arrives before its donor is given the shard again. */
  ghost predicate IsTimelyRun(ws: seq<World>, sts: seq<Step>) {
    && IsRun(ws, sts)
    && forall i {:trigger sts[i]} :: 0 <= i < |sts| && sts[i].Drop? ==>
         sts[i].d.sid < NSHARDS && Timely(ws[i], sts[i].d)
  }

  // ---------- the one map all groups stand for ----------

  function Replay(h: seq<Op>): Shard {
    if h == [] then map[] else Effect(Replay(h[..|h| - 1]), h[|h| - 1])
  }

  /** The part of the map in shard `sid`. */
  function Part(h: seq<Op>, sid: nat): Shard {
    map k | k in Replay(h) && Key2Shard(k) == sid :: Replay(h)[k]
  }
}
