/** The shard controller: its list of configurations, and what each command appends to it.
    The number of shards is that of the first configuration, whatever it is. */
module Controller {
  import opened Counting
  import opened Rebalance

  type Servers = map<int, seq<string>>

  datatype Config = Config(num: nat, shards: seq<int>, groups: Servers)

  // ---------- joining ----------

  /** The shards of `g` among the first `n`, in increasing order. */
  function Indices(s: seq<int>, g: int, n: nat): (r: seq<nat>)
    requires n <= |s|
    ensures forall j :: 0 <= j < |r| ==> r[j] < n && s[r[j]] == g
    ensures forall j, k :: 0 <= j < k < |r| ==> r[j] < r[k]
  {
    if n == 0 then []
    else if s[n - 1] == g then Indices(s, g, n - 1) + [n - 1]
    else Indices(s, g, n - 1)
  }

  lemma {:induction false} IndicesCount(s: seq<int>, g: int, n: nat)
    requires n <= |s|
    ensures |Indices(s, g, n)| == Count(s[..n], g)
  {
    if n > 0 {
      IndicesCount(s, g, n - 1);
      assert s[..n][..n - 1] == s[..n - 1];
    }
  }

  lemma IndicesOk(s: seq<int>, g: int)
    ensures ListOk(Indices(s, g, |s|), s, g)
  {
    IndicesCount(s, g, |s|);
    assert s[..|s|] == s;
  }

  function Owners(s: seq<int>): (r: set<int>)
    ensures forall g :: g in r <==> g in s
  {
    set i | 0 <= i < |s| :: s[i]
  }

  /** The joining groups and those that own shards, with their shards. */
  function JoinLists(s: seq<int>, servers: Servers): Lists {
    map g | g in servers.Keys + Owners(s) :: Indices(s, g, |s|)
  }

  lemma JoinListsConsistent(s: seq<int>, servers: Servers)
    ensures Consistent(JoinLists(s, servers), s)
  {
    var all := JoinLists(s, servers);
    forall g | g in all ensures ListOk(all[g], s, g) {
      IndicesOk(s, g);
    }
    forall i | 0 <= i < |s| ensures s[i] in all {
      assert s[i] in Owners(s);
    }
  }

  /** There is a shard to place and a group to take it; without a group the code would never
      come to an end (`Rebalance.NoGroupNeverSettles`). */
  ghost predicate CanJoin(c: Config, servers: Servers) {
    c.shards != [] && GroupList(JoinLists(c.shards, servers)) != []
  }

  ghost function JoinOutcome(c: Config, servers: Servers): Outcome
    requires CanJoin(c, servers)
  {
    var all := JoinLists(c.shards, servers);
    JoinListsConsistent(c.shards, servers);
    Balance(all, c.shards, GroupList(all))
  }

  ghost function Join(c: Config, servers: Servers): Config
    requires CanJoin(c, servers)
  {
    Config(c.num + 1, JoinOutcome(c, servers).s, c.groups + servers)
  }

  /** After a join the groups that joined and those that owned shards have sizes within one of
      each other and own everything, with fewer owners changed than, or as few as, in any
      other such assignment, and no shard moved twice. */
  lemma JoinIsBestBalanced(c: Config, servers: Servers)
    requires CanJoin(c, servers)
    ensures var gs := GroupList(JoinLists(c.shards, servers));
      var s := Join(c, servers).shards;
      && |s| == |c.shards| && IsBalanced(gs, s)
      && (forall t :: |t| == |s| && IsBalanced(gs, t) ==> Changed(c.shards, s) <= Changed(c.shards, t))
    ensures var moves := JoinOutcome(c, servers).moves;
      forall j, k :: 0 <= j < k < |moves| ==> moves[j] != moves[k]
  {
    var all := JoinLists(c.shards, servers);
    var gs := GroupList(all);
    var s := Join(c, servers).shards;
    JoinListsConsistent(c.shards, servers);
    BalanceResult(all, c.shards, gs);
    NoShardMovesTwice(all, c.shards, gs);
    forall t | |t| == |s| && IsBalanced(gs, t) ensures Changed(c.shards, s) <= Changed(c.shards, t) {
      FewestMoves(all, c.shards, gs, t);
    }
  }

  lemma {:induction false} IndicesAll(s: seq<int>, g: int, n: nat, i: nat)
    requires n <= |s| && i < n && s[i] == g
    ensures i in Indices(s, g, n)
  {
    if i < n - 1 {
      IndicesAll(s, g, n - 1, i);
    }
  }

  /** A group that gives up shards in a join gives up its lowest ones. */
  lemma JoinMovesLowest(c: Config, servers: Servers)
    requires CanJoin(c, servers)
    ensures var s := Join(c, servers).shards;
      && |s| == |c.shards|
      && forall i: nat, j: nat :: i < j < |s| && c.shards[i] == c.shards[j] && s[j] != c.shards[j] ==> s[i] != c.shards[i]
  {
    var all := JoinLists(c.shards, servers);
    var gs := GroupList(all);
    JoinListsConsistent(c.shards, servers);
    forall g | g in all
      ensures forall i: nat :: i < |c.shards| && c.shards[i] == g ==> i in all[g]
    {
      forall i: nat | i < |c.shards| && c.shards[i] == g ensures i in all[g] {
        IndicesAll(c.shards, g, |c.shards|, i);
      }
    }
    LowestShardsMove(all, c.shards, gs);
    MovedIsChanged(all, c.shards, gs);
  }

  // ---------- leaving ----------

  function Without(groups: Servers, gids: seq<int>): (r: Servers)
    ensures forall g :: g in r <==> g in groups && g !in gids
    ensures forall g :: g in r ==> r[g] == groups[g]
  {
    map g | g in groups && g !in gids :: groups[g]
  }

  function LeaveLists(groups: Servers, s: seq<int>): Lists {
    map g | g in groups :: Indices(s, g, |s|)
  }

  /** From shard `i` on, each shard of a leaving group goes to the smallest remaining one. */
  ghost function AssignToMin(all: Lists, s: seq<int>, gids: seq<int>, i: nat): (r: seq<int>)
    requires i <= |s|
    ensures |r| == |s|
    decreases |s| - i
  {
    if i == |s| then s
    else if s[i] !in gids then AssignToMin(all, s, gids, i + 1)
    else
      var m := MinGroup(all);
      AssignToMin(if m != 0 then all[m := all[m] + [i]] else all, s[i := m], gids, i + 1)
  }

  ghost function Leave(c: Config, gids: seq<int>): Config {
    var groups := Without(c.groups, gids);
    Config(c.num + 1, AssignToMin(LeaveLists(groups, c.shards), c.shards, gids, 0), groups)
  }

  /** The lists have the sizes of the groups, none of which is leaving. */
  ghost predicate SizesOk(all: Lists, s: seq<int>, gids: seq<int>) {
    forall g :: g in all ==> g !in gids && (g != 0 ==> |all[g]| == Count(s, g))
  }

  /** There is a group among the identities. */
  predicate Any(ks: set<int>) {
    exists g :: g in ks && g != 0
  }

  /** The sizes of the groups differ by at most one. */
  predicate WithinOne(ks: set<int>, s: seq<int>) {
    forall g, h :: g in ks && h in ks && g != 0 && h != 0 ==> Count(s, g) <= Count(s, h) + 1
  }

  lemma AssignOne(all: Lists, s: seq<int>, gids: seq<int>, i: nat)
    requires SizesOk(all, s, gids) && i < |s| && s[i] in gids
    ensures var m := MinGroup(all);
      && SizesOk(if m != 0 then all[m := all[m] + [i]] else all, s[i := m], gids)
      && (WithinOne(all.Keys, s) ==> WithinOne(all.Keys, s[i := m]))
  {
    var m := MinGroup(all);
    forall g ensures Count(s[i := m], g) == Count(s, g) - (if s[i] == g then 1 else 0) + (if m == g then 1 else 0) {
      CountUpdate(s, i, m, g);
    }
  }

  lemma {:induction false} AssignResult(all: Lists, s: seq<int>, gids: seq<int>, i: nat)
    requires SizesOk(all, s, gids) && i <= |s|
    ensures var r := AssignToMin(all, s, gids, i);
      && (forall j :: 0 <= j < |s| && (j < i || s[j] !in gids) ==> r[j] == s[j])
      && (forall j :: i <= j < |s| && s[j] in gids ==> if Any(all.Keys) then r[j] in all && r[j] != 0 else r[j] == 0)
      && (WithinOne(all.Keys, s) ==> WithinOne(all.Keys, r))
    decreases |s| - i
  {
    if i < |s| {
      if s[i] !in gids {
        AssignResult(all, s, gids, i + 1);
      } else {
        var m := MinGroup(all);
        var all' := if m != 0 then all[m := all[m] + [i]] else all;
        AssignOne(all, s, gids, i);
        assert all'.Keys == all.Keys;
        assert m != 0 <==> Any(all.Keys);
        AssignResult(all', s[i := m], gids, i + 1);
      }
    }
  }

  lemma LeaveListsOk(groups: Servers, s: seq<int>, gids: seq<int>)
    requires forall g :: g in groups ==> g !in gids
    ensures SizesOk(LeaveLists(groups, s), s, gids)
  {
    forall g | g in groups ensures |Indices(s, g, |s|)| == Count(s, g) {
      IndicesOk(s, g);
    }
  }

  /** A leave moves exactly the shards of departing groups, to remaining groups if there are
      any, and keeps sizes within one of each other. */
  lemma LeaveMovesDeparting(c: Config, gids: seq<int>)
    ensures var r := Leave(c, gids);
      && r.groups.Keys == (set g | g in c.groups && g !in gids) && |r.shards| == |c.shards|
      && (forall i :: 0 <= i < |c.shards| && c.shards[i] !in gids ==> r.shards[i] == c.shards[i])
      && (forall i :: 0 <= i < |c.shards| && c.shards[i] in gids ==>
            if Any(r.groups.Keys) then r.shards[i] in r.groups && r.shards[i] != 0 else r.shards[i] == 0)
      && (WithinOne(c.groups.Keys, c.shards) ==> WithinOne(r.groups.Keys, r.shards))
  {
    var groups := Without(c.groups, gids);
    var all := LeaveLists(groups, c.shards);
    assert all.Keys == groups.Keys;
    LeaveListsOk(groups, c.shards, gids);
    AssignResult(all, c.shards, gids, 0);
  }

  // ---------- what joins and leaves keep ----------

  /** Every shard is owned by a current group, or by none exactly if there are no groups; the
      sizes of all current groups, also those with no shard, are within one of each other. */
  predicate Good(c: Config) {
    && 0 !in c.groups
    && (forall i :: 0 <= i < |c.shards| ==> if Any(c.groups.Keys) then c.shards[i] in c.groups else c.shards[i] == 0)
    && WithinOne(c.groups.Keys, c.shards)
  }

  lemma LeaveGood(c: Config, gids: seq<int>)
    requires Good(c)
    ensures Good(Leave(c, gids)) && |Leave(c, gids).shards| == |c.shards|
  {
    LeaveMovesDeparting(c, gids);
    var r := Leave(c, gids);
    forall i | 0 <= i < |r.shards|
      ensures if Any(r.groups.Keys) then r.shards[i] in r.groups else r.shards[i] == 0
    {
      assert Any(r.groups.Keys) ==> Any(c.groups.Keys);
      if c.shards[i] !in gids && Any(c.groups.Keys) {
        assert c.shards[i] in r.groups;
      }
    }
  }

  /** A group without shards means that no group has more than one, and that nothing moves. */
  lemma IdleGroupNothingMoves(c: Config, servers: Servers, h: int)
    requires Good(c) && CanJoin(c, servers) && h in c.groups && h !in c.shards
    ensures Join(c, servers).shards == c.shards
    ensures forall g :: g in c.groups || g in servers ==> Count(c.shards, g) <= 1
  {
    var s := c.shards;
    var all := JoinLists(s, servers);
    var gs := GroupList(all);
    JoinListsConsistent(s, servers);
    OwnersListed(all, s, gs);
    CountZero(s, h);
    CountZero(s, 0);
    assert h in c.groups.Keys;
    forall g | g in c.groups || g in servers || g in all ensures Count(s, g) <= 1 {
      if g !in c.groups {
        CountZero(s, g);
      }
    }
    assert s[0] in all && Size(all, s[0]) > 0 by {
      CountPositive(s, 0);
    }
    assert Settled(all, MaxGroup(all), MinGroup(all));
  }

  lemma JoinCan(c: Config, servers: Servers)
    requires c.shards != [] && Any(servers.Keys) && 0 !in servers
    ensures CanJoin(c, servers)
  {
    var all := JoinLists(c.shards, servers);
    var g :| g in servers.Keys;
    assert g in all;
    assert g in GroupList(all);
  }

  lemma JoinGood(c: Config, servers: Servers)
    requires Good(c) && c.shards != [] && Any(servers.Keys) && 0 !in servers
    ensures CanJoin(c, servers) && Good(Join(c, servers)) && |Join(c, servers).shards| == |c.shards|
  {
    JoinCan(c, servers);
    JoinIsBestBalanced(c, servers);
    var r := Join(c, servers);
    var gs := GroupList(JoinLists(c.shards, servers));
    forall g | g in gs ensures g in r.groups {}
    if h :| h in c.groups && h !in c.shards {
      IdleGroupNothingMoves(c, servers, h);
    } else {
      assert forall g :: g in r.groups ==> g in gs;
    }
  }

  // ---------- commands ----------

  datatype Command =
    | JoinCommand(client: nat, req: nat, servers: Servers)
    | LeaveCommand(client: nat, req: nat, gids: seq<int>)
    | MoveCommand(client: nat, req: nat, shard: nat, gid: int)
    | QueryCommand(client: nat, req: nat, num: int)

  /** All configurations so far, and the last request of every client. */
  datatype State = State(confs: seq<Config>, prevReq: map<nat, nat>)

  datatype Reply = Old | Answer(config: Config)

  const LATEST := -1

  predicate Started(st: State) {
    st.confs != []
  }

  function Current(st: State): Config
    requires Started(st)
  {
    st.confs[|st.confs| - 1]
  }

  function PrevReq(st: State, client: nat): nat {
    if client in st.prevReq then st.prevReq[client] else 0
  }

  predicate IsFresh(st: State, cmd: Command) {
    PrevReq(st, cmd.client) < cmd.req
  }

  function Move(c: Config, shard: nat, gid: int): Config
    requires shard < |c.shards|
  {
    Config(c.num + 1, c.shards[shard := gid], c.groups)
  }

  /** The configuration a query asks for. */
  function Asked(st: State, num: int): Config
    requires Started(st) && num >= LATEST
  {
    if num == LATEST || num > |st.confs| - 1 then Current(st) else st.confs[num]
  }

  /** The command can be carried out: a join has a group to balance over, a move names a
      shard, a query names a configuration or asks for the latest. */
  ghost predicate Applicable(st: State, cmd: Command) {
    && Started(st)
    && (IsFresh(st, cmd) ==>
          match cmd
          case JoinCommand(_, _, servers) => CanJoin(Current(st), servers)
          case LeaveCommand(_, _, _) => true
          case MoveCommand(_, _, shard, _) => shard < |Current(st).shards|
          case QueryCommand(_, _, num) => num >= LATEST)
  }

  /** What a fresh command appends. */
  ghost function Appended(st: State, cmd: Command): seq<Config>
    requires Applicable(st, cmd) && IsFresh(st, cmd)
  {
    match cmd
    case JoinCommand(_, _, servers) => [Join(Current(st), servers)]
    case LeaveCommand(_, _, gids) => [Leave(Current(st), gids)]
    case MoveCommand(_, _, shard, gid) => [Move(Current(st), shard, gid)]
    case QueryCommand(_, _, _) => []
  }

  ghost function Apply(st: State, cmd: Command): State
    requires Applicable(st, cmd)
  {
    if !IsFresh(st, cmd) then st
    else State(st.confs + Appended(st, cmd), st.prevReq[cmd.client := cmd.req])
  }

  ghost function ReplyTo(st: State, cmd: Command): Reply
    requires Applicable(st, cmd)
  {
    if !IsFresh(st, cmd) then Old
    else if cmd.QueryCommand? then Answer(Asked(st, cmd.num))
    else Answer(Current(Apply(st, cmd)))
  }

  /** Every command of the log can be carried out when its turn comes. */
  ghost predicate AllApplicable(st: State, log: seq<Command>)
    decreases |log|
  {
    log == [] || (Applicable(st, log[0]) && AllApplicable(Apply(st, log[0]), log[1..]))
  }

  /** The state after a log of commands. */
  ghost function Fold(st: State, log: seq<Command>): State
    requires AllApplicable(st, log)
    decreases |log|
  {
    if log == [] then st else Fold(Apply(st, log[0]), log[1..])
  }

  // ---------- runs ----------

  /** Configuration 0: no groups. */
  function Initial(shards: nat): State {
    State([Config(0, seq(shards, _ => 0), map[])], map[])
  }

  ghost predicate IsRun(sts: seq<State>, cmds: seq<Command>, shards: nat) {
    && |sts| == |cmds| + 1 && shards > 0 && sts[0] == Initial(shards)
    && forall i {:trigger cmds[i]} :: 0 <= i < |cmds| ==> Applicable(sts[i], cmds[i]) && sts[i + 1] == Apply(sts[i], cmds[i])
  }

  /** Joins of some groups with proper identities, leaves and queries. */
  predicate Regular(cmd: Command) {
    match cmd
    case JoinCommand(_, _, servers) => Any(servers.Keys) && 0 !in servers
    case LeaveCommand(_, _, _) => true
    case MoveCommand(_, _, _, _) => false
    case QueryCommand(_, _, num) => num >= LATEST
  }

  ghost predicate Numbered(st: State) {
    Started(st) && forall i :: 0 <= i < |st.confs| ==> st.confs[i].num == i
  }

  ghost predicate AllGood(st: State, shards: nat) {
    Started(st) && forall i :: 0 <= i < |st.confs| ==> Good(st.confs[i]) && |st.confs[i].shards| == shards
  }

  /** Whatever the commands, configuration `i` has number `i`, and a configuration once made
      is never changed. */
  lemma {:induction false} RunsNumber(sts: seq<State>, cmds: seq<Command>, shards: nat, i: nat, j: nat)
    requires IsRun(sts, cmds, shards) && i <= j < |sts|
    ensures Numbered(sts[j]) && sts[i].confs <= sts[j].confs
  {
    if j > 0 {
      RunsNumber(sts, cmds, shards, if i == j then i - 1 else i, j - 1);
      assert sts[j] == Apply(sts[j - 1], cmds[j - 1]);
    }
  }

  lemma StepGood(st: State, cmd: Command, shards: nat)
    requires AllGood(st, shards) && Applicable(st, cmd) && Regular(cmd) && shards > 0
    ensures AllGood(Apply(st, cmd), shards)
  {
    if IsFresh(st, cmd) {
      match cmd
      case JoinCommand(_, _, servers) => JoinGood(Current(st), servers);
      case LeaveCommand(_, _, gids) => LeaveGood(Current(st), gids);
      case QueryCommand(_, _, _) =>
    }
  }

  /** In every run of joins, leaves and queries, repeated requests included, every
      configuration is owned by its current groups in equal shares up to one. */
  lemma {:induction false} RunsStayGood(sts: seq<State>, cmds: seq<Command>, shards: nat, i: nat)
    requires IsRun(sts, cmds, shards) && i < |sts| && forall k :: 0 <= k < |cmds| ==> Regular(cmds[k])
    ensures AllGood(sts[i], shards)
  {
    if i > 0 {
      RunsStayGood(sts, cmds, shards, i - 1);
      StepGood(sts[i - 1], cmds[i - 1], shards);
    }
  }

  /** No regular command ever gets stuck. */
  lemma RegularIsApplicable(st: State, cmd: Command, shards: nat)
    requires AllGood(st, shards) && Regular(cmd) && shards > 0
    ensures Applicable(st, cmd)
  {
    if cmd.JoinCommand? {
      JoinCan(Current(st), cmd.servers);
    }
  }

  // ---------- which commands are carried out ----------

  /** Command `i` of the run is not a repetition. */
  ghost predicate FreshAt(sts: seq<State>, cmds: seq<Command>, shards: nat, i: nat)
    requires IsRun(sts, cmds, shards) && i < |cmds|
  {
    IsFresh(sts[i], cmds[i])
  }

  /** The table holds the greatest request number of every client. */
  lemma {:induction false} TableIsGreatest(sts: seq<State>, cmds: seq<Command>, shards: nat, i: nat, c: nat)
    requires IsRun(sts, cmds, shards) && i < |sts|
    ensures forall j :: 0 <= j < i && cmds[j].client == c ==> cmds[j].req <= PrevReq(sts[i], c)
    ensures PrevReq(sts[i], c) > 0 ==>
      exists j :: 0 <= j < i && cmds[j].client == c && cmds[j].req == PrevReq(sts[i], c)
  {
    if i > 0 {
      TableIsGreatest(sts, cmds, shards, i - 1, c);
      assert sts[i] == Apply(sts[i - 1], cmds[i - 1]);
      if cmds[i - 1].client == c && IsFresh(sts[i - 1], cmds[i - 1]) {
        assert cmds[i - 1].req == PrevReq(sts[i], c);
      } else {
        assert PrevReq(sts[i], c) == PrevReq(sts[i - 1], c);
      }
    }
  }

  /** A command is carried out exactly if its number is positive and above all earlier ones of
      its client; so each request is carried out at most once. */
  lemma FreshIff(sts: seq<State>, cmds: seq<Command>, shards: nat, i: nat)
    requires IsRun(sts, cmds, shards) && i < |cmds|
    ensures FreshAt(sts, cmds, shards, i) <==>
      cmds[i].req > 0 && forall j :: 0 <= j < i && cmds[j].client == cmds[i].client ==> cmds[j].req < cmds[i].req
  {
    TableIsGreatest(sts, cmds, shards, i, cmds[i].client);
  }

  /** A repetition changes nothing. */
  lemma RepetitionChangesNothing(sts: seq<State>, cmds: seq<Command>, shards: nat, i: nat)
    requires IsRun(sts, cmds, shards) && i < |cmds| && !FreshAt(sts, cmds, shards, i)
    ensures sts[i + 1] == sts[i] && ReplyTo(sts[i], cmds[i]) == Old
  {
  }

  // ---------- queries and moves ----------

  /** A fresh query that asks for the latest configuration, or for one not yet made, is answered
      with the one of greatest number made so far; any other with the one it asks for. */
  lemma QueryAnswers(sts: seq<State>, cmds: seq<Command>, shards: nat, i: nat)
    requires IsRun(sts, cmds, shards) && i < |cmds| && cmds[i].QueryCommand? && FreshAt(sts, cmds, shards, i)
    ensures ReplyTo(sts[i], cmds[i]).Answer? && sts[i + 1].confs == sts[i].confs
    ensures var c, num := ReplyTo(sts[i], cmds[i]).config, cmds[i].num;
      && c in sts[i].confs
      && (num == LATEST || num >= |sts[i].confs| ==> forall d :: d in sts[i].confs ==> d.num <= c.num)
      && (0 <= num < |sts[i].confs| ==> c.num == num)
  {
    RunsNumber(sts, cmds, shards, i, i);
    assert sts[i + 1].confs == sts[i].confs + [];
    var c := ReplyTo(sts[i], cmds[i]).config;
    forall d | d in sts[i].confs ensures d.num < |sts[i].confs| {
      var k :| 0 <= k < |sts[i].confs| && sts[i].confs[k] == d;
    }
  }

  /** Every fresh command but a query makes one configuration, the next, and answers with it. */
  lemma CommandsMakeNext(sts: seq<State>, cmds: seq<Command>, shards: nat, i: nat)
    requires IsRun(sts, cmds, shards) && i < |cmds| && !cmds[i].QueryCommand? && FreshAt(sts, cmds, shards, i)
    ensures |sts[i + 1].confs| == |sts[i].confs| + 1 && sts[i].confs <= sts[i + 1].confs
    ensures Started(sts[i]) && Started(sts[i + 1])
    ensures Current(sts[i + 1]).num == Current(sts[i]).num + 1
    ensures ReplyTo(sts[i], cmds[i]) == Answer(Current(sts[i + 1]))
  {
  }

  /** A fresh move gives the shard to the group and changes no other owner and no group. */
  lemma MoveMoves(sts: seq<State>, cmds: seq<Command>, shards: nat, i: nat)
    requires IsRun(sts, cmds, shards) && i < |cmds| && cmds[i].MoveCommand? && FreshAt(sts, cmds, shards, i)
    ensures Started(sts[i]) && Started(sts[i + 1])
    ensures var c, c' := Current(sts[i]), Current(sts[i + 1]);
      && |c'.shards| == |c.shards| && cmds[i].shard < |c.shards|
      && c'.shards[cmds[i].shard] == cmds[i].gid
      && (forall j :: 0 <= j < |c.shards| && j != cmds[i].shard ==> c'.shards[j] == c.shards[j])
      && c'.groups == c.groups
  {
  }

  // ---------- groups and their servers ----------

  /** What a command means for one group. */
  datatype Event = Joined(servers: seq<string>) | Left | Neither

  datatype Membership = Absent | Present(servers: seq<string>)

  /** Event `p` is the last join before `i`, and no leave came since. */
  predicate IsLastJoin(es: seq<Event>, i: nat, p: nat)
    requires i <= |es|
  {
    p < i && es[p].Joined? && forall k :: p < k < i ==> es[k].Neither?
  }

  function After(m: Membership, e: Event): Membership {
    match e
    case Joined(servers) => Present(servers)
    case Left => Absent
    case Neither => m
  }

  lemma {:induction false} LastJoinRules(es: seq<Event>, ms: seq<Membership>, i: nat)
    requires |ms| == |es| + 1 && i <= |es| && ms[0] == Absent
    requires forall k :: 0 <= k < |es| ==> ms[k + 1] == After(ms[k], es[k])
    ensures ms[i].Present? <==> exists p: nat :: IsLastJoin(es, i, p)
    ensures forall p: nat :: IsLastJoin(es, i, p) ==> ms[i] == Present(es[p].servers)
  {
    if i > 0 {
      LastJoinRules(es, ms, i - 1);
      assert ms[i - 1 + 1] == After(ms[i - 1], es[i - 1]);
      forall p: nat ensures IsLastJoin(es, i, p) <==>
        if es[i - 1].Joined? then p == i - 1 else IsLastJoin(es, i - 1, p) && es[i - 1].Neither?
      {
      }
      if es[i - 1].Joined? {
        assert IsLastJoin(es, i, i - 1);
      } else if es[i - 1].Neither? && ms[i].Present? {
        var p: nat :| IsLastJoin(es, i - 1, p);
        assert IsLastJoin(es, i, p);
      }
    }
  }

  /** What command `k` means for group `g`; a repetition means nothing. */
  ghost function EventAt(sts: seq<State>, cmds: seq<Command>, shards: nat, k: nat, g: int): Event
    requires IsRun(sts, cmds, shards) && k < |cmds|
  {
    if !FreshAt(sts, cmds, shards, k) then Neither
    else if cmds[k].JoinCommand? && g in cmds[k].servers then Joined(cmds[k].servers[g])
    else if cmds[k].LeaveCommand? && g in cmds[k].gids then Left
    else Neither
  }

  ghost function EventsOf(sts: seq<State>, cmds: seq<Command>, shards: nat, g: int): (es: seq<Event>)
    requires IsRun(sts, cmds, shards)
    ensures |es| == |cmds| && forall k :: 0 <= k < |cmds| ==> es[k] == EventAt(sts, cmds, shards, k, g)
  {
    seq(|cmds|, k requires 0 <= k < |cmds| => EventAt(sts, cmds, shards, k, g))
  }

  function MembershipIn(c: Config, g: int): Membership {
    if g in c.groups then Present(c.groups[g]) else Absent
  }

  lemma MembershipNext(sts: seq<State>, cmds: seq<Command>, shards: nat, i: nat, g: int)
    requires IsRun(sts, cmds, shards) && i < |cmds|
    ensures Started(sts[i]) && Started(sts[i + 1])
    ensures MembershipIn(Current(sts[i + 1]), g) ==
      After(MembershipIn(Current(sts[i]), g), EventAt(sts, cmds, shards, i, g))
  {
    assert sts[i + 1] == Apply(sts[i], cmds[i]);
  }

  lemma AllStarted(sts: seq<State>, cmds: seq<Command>, shards: nat)
    requires IsRun(sts, cmds, shards)
    ensures forall i :: 0 <= i < |sts| ==> Started(sts[i])
  {
    forall i | 0 <= i < |sts| ensures Started(sts[i]) {
      RunsNumber(sts, cmds, shards, i, i);
    }
  }

  /** After any commands, `g` is a group exactly if some join named it and no later leave did;
      its servers are those of the last join that named it. */
  lemma GroupsByCommands(sts: seq<State>, cmds: seq<Command>, shards: nat, i: nat, g: int)
    requires IsRun(sts, cmds, shards) && i < |sts|
    ensures Started(sts[i])
    ensures g in Current(sts[i]).groups <==>
      exists p: nat :: IsLastJoin(EventsOf(sts, cmds, shards, g), i, p)
    ensures forall p: nat :: IsLastJoin(EventsOf(sts, cmds, shards, g), i, p) ==>
      g in Current(sts[i]).groups && Current(sts[i]).groups[g] == EventAt(sts, cmds, shards, p, g).servers
  {
    AllStarted(sts, cmds, shards);
    var es := EventsOf(sts, cmds, shards, g);
    var ms := seq(|sts|, k requires 0 <= k < |sts| => MembershipIn(Current(sts[k]), g));
    forall k | 0 <= k < |es| ensures ms[k + 1] == After(ms[k], es[k]) {
      MembershipNext(sts, cmds, shards, k, g);
    }
    LastJoinRules(es, ms, i);
  }
}
