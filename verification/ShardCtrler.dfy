/** The controller as the object it is: scans and loops over Go maps in any order, shards
    reassigned in place.  Every method is proved to compute the corresponding function of
    `Rebalance` and `Controller`, so replicas that apply the same commands agree. */
module ControllerServer {
  import opened Counting
  import opened Rebalance
  import opened Controller

  const MAX_UINT32 := 0xFFFF_FFFF

  predicate Ascending(s: seq<int>) {
    forall i, j :: 0 <= i < j < |s| ==> s[i] <= s[j]
  }

  /** One step of sorting. */
  method Insert(keys: seq<int>, k: int) returns (r: seq<int>)
    requires Ascending(keys)
    ensures Ascending(r) && multiset(r) == multiset(keys) + multiset{k}
  {
    var i := 0;
    while i < |keys| && keys[i] < k
      invariant i <= |keys|
      invariant forall j :: 0 <= j < i ==> keys[j] < k
    {
      i := i + 1;
    }
    r := keys[..i] + [k] + keys[i..];
    Inserted(keys, k, i);
    InsertedAscends(keys, k, i);
  }

  lemma Inserted(keys: seq<int>, k: int, i: nat)
    requires i <= |keys|
    ensures multiset(keys[..i] + [k] + keys[i..]) == multiset(keys) + multiset{k}
  {
    assert keys == keys[..i] + keys[i..];
  }

  lemma InsertedAscends(keys: seq<int>, k: int, i: nat)
    requires Ascending(keys) && i <= |keys| && (forall j :: 0 <= j < i ==> keys[j] < k)
    requires i < |keys| ==> k <= keys[i]
    ensures Ascending(keys[..i] + [k] + keys[i..])
  {
    var r := keys[..i] + [k] + keys[i..];
    forall a, b | 0 <= a < b < |r| ensures r[a] <= r[b] {
      assert r[a] == if a < i then keys[a] else if a == i then k else keys[a - 1];
      assert r[b] == if b < i then keys[b] else if b == i then k else keys[b - 1];
    }
  }

  /** How often `k` is in the padded list: once if it is a key, and as padding. */
  function Occurrences(all: Lists, k: int): nat {
    (if k in all then 1 else 0) + (if k == 0 then |all| else 0)
  }

  lemma {:induction false} Padding(n: nat, k: int)
    ensures multiset(seq(n, _ => 0))[k] == if k == 0 then n else 0
  {
    if n > 0 {
      Padding(n - 1, k);
      assert seq(n, _ => 0) == seq(n - 1, _ => 0) + [0];
    }
  }

  /** The keys and as many zeros as there are keys, in increasing order. */
  method SortedKeys(all: Lists) returns (keys: seq<int>)
    ensures Ascending(keys)
    ensures forall k :: multiset(keys)[k] == Occurrences(all, k)
  {
    keys := seq(|all|, _ => 0);
    forall k ensures multiset(keys)[k] == if k == 0 then |all| else 0 {
      Padding(|all|, k);
    }
    var rest := all.Keys;
    while exists k :: k in rest
      invariant rest <= all.Keys && Ascending(keys)
      invariant forall k :: multiset(keys)[k] == Occurrences(all, k) - if k in rest then 1 else 0
      decreases |rest|
    {
      var k :| k in rest;
      rest := rest - {k};
      keys := Insert(keys, k);
    }
  }

  lemma KeysListed(all: Lists, keys: seq<int>)
    requires forall k :: multiset(keys)[k] == Occurrences(all, k)
    ensures forall k :: k in all ==> k in keys
    ensures forall i :: 0 <= i < |keys| && keys[i] != 0 ==> keys[i] in all
  {
    forall k | k in all ensures k in keys {
      assert k in multiset(keys);
    }
    forall i | 0 <= i < |keys| && keys[i] != 0 ensures keys[i] in all {
      assert keys[i] in multiset(keys);
    }
  }

  method MaxGroupOf(all: Lists) returns (gid: int)
    ensures gid == MaxGroup(all)
  {
    if 0 in all && |all[0]| > 0 {
      ScansUnique(all, 0, MaxGroup(all));
      return 0;
    }
    var keys := SortedKeys(all);
    KeysListed(all, keys);
    var max := 0;
    gid := 0;
    var i := 0;
    while i < |keys|
      invariant i <= |keys| && max == Size(all, gid) && (gid == 0 ==> max == 0)
      invariant gid != 0 ==> gid in all && max > 0
      invariant forall j :: 0 <= j < i ==> Size(all, keys[j]) <= max && (keys[j] < gid && gid != 0 ==> Size(all, keys[j]) < max)
      invariant gid != 0 ==> exists j :: 0 <= j < i && keys[j] == gid
    {
      var k := keys[i];
      var size := if k in all then |all[k]| else 0;
      if max < size {
        max := size;
        gid := k;
      }
      i := i + 1;
    }
    forall g | g in all ensures Size(all, g) <= max && (gid != 0 && g < gid ==> Size(all, g) < max) {
      assert g in keys;
    }
    assert IsMaxGroup(all, gid);
    ScansUnique(all, gid, MaxGroup(all));
  }

  /** The smallest group, if the scan's starting value exceeds its size; otherwise none. */
  method MinGroupOf(all: Lists) returns (gid: int)
    ensures gid == if Size(all, MinGroup(all)) < MAX_UINT32 then MinGroup(all) else 0
  {
    var min := MAX_UINT32;
    gid := 0;
    var keys := SortedKeys(all);
    KeysListed(all, keys);
    var i := 0;
    while i < |keys|
      invariant i <= |keys|
      invariant if gid == 0 then min == MAX_UINT32 else gid in all && min == |all[gid]| < MAX_UINT32
      invariant forall j :: 0 <= j < i && keys[j] != 0 ==>
                  min <= Size(all, keys[j]) && (keys[j] < gid && gid != 0 ==> min < Size(all, keys[j]))
      invariant gid != 0 ==> exists j :: 0 <= j < i && keys[j] == gid
    {
      var k := keys[i];
      var size := if k in all then |all[k]| else 0;
      if min > size && k != 0 {
        min := size;
        gid := k;
      }
      i := i + 1;
    }
    forall g | g in all && g != 0
      ensures min <= Size(all, g) && (g < gid && gid != 0 ==> min < Size(all, g))
    {
      assert g in keys;
    }
    if gid != 0 {
      assert IsMinGroup(all, gid);
      ScansUnique(all, gid, MinGroup(all));
    }
  }

  // ---------- rebalancing ----------

  lemma SmallestFits(all: Lists, s: seq<int>)
    requires Consistent(all, s) && |s| < MAX_UINT32
    ensures Size(all, MinGroup(all)) < MAX_UINT32
  {
    var m := MinGroup(all);
    if m in all {
      assert ListOk(all[m], s, m);
      CountAtMost(s, m);
    }
  }

  lemma SmallestRemains(all: Lists, s: seq<int>, gids: seq<int>)
    requires SizesOk(all, s, gids) && |s| < MAX_UINT32
    ensures MinGroup(all) != 0 ==> Size(all, MinGroup(all)) < MAX_UINT32
  {
    CountAtMost(s, MinGroup(all));
  }

  method RebalanceShards(all: Lists, shards: array<int>, ghost gs: seq<int>) returns (all': Lists)
    requires Consistent(all, shards[..]) && ListsGroups(gs, all) && gs != [] && 0 < shards.Length < MAX_UINT32
    modifies shards
    ensures shards[..] == Balance(all, old(shards[..]), gs).s
    ensures Consistent(all', shards[..]) && ListsGroups(gs, all')
    decreases Distance(gs, shards[..])
  {
    ghost var s := shards[..];
    SmallestFits(all, s);
    var max := MaxGroupOf(all);
    var min := MinGroupOf(all);
    if Settled(all, max, min) {
      return all;
    }
    MoveHelps(all, s, gs);
    var first := all[max][0];
    shards[first] := min;
    assert shards[..] == s[first := min];
    DistanceNonNegative(gs, shards[..]);
    all' := RebalanceShards(MoveLists(all, max, min), shards, gs);
  }

  /** The lists of the joining groups and of the owners of the first `i` shards. */
  ghost predicate ListedUpTo(all: Lists, servers: Servers, s: seq<int>, i: nat)
    requires i <= |s|
  {
    && (forall g :: g in all <==> g in servers || g in s[..i])
    && (forall g :: g in all ==> all[g] == Indices(s, g, i))
  }

  lemma {:induction false} NoIndices(s: seq<int>, g: int, i: nat)
    requires i <= |s| && g !in s[..i]
    ensures Indices(s, g, i) == []
  {
    if i > 0 {
      assert s[i - 1] == s[..i][i - 1];
      NoIndices(s, g, i - 1);
    }
  }

  lemma ListNext(all: Lists, servers: Servers, s: seq<int>, i: nat)
    requires i < |s| && ListedUpTo(all, servers, s, i)
    ensures ListedUpTo(all[s[i] := (if s[i] in all then all[s[i]] else []) + [i]], servers, s, i + 1)
  {
    assert s[..i + 1] == s[..i] + [s[i]];
    if s[i] !in all {
      NoIndices(s, s[i], i);
    }
  }

  lemma ListedAll(all: Lists, servers: Servers, s: seq<int>)
    requires ListedUpTo(all, servers, s, |s|)
    ensures all == JoinLists(s, servers)
  {
    assert s[..|s|] == s;
    var lists := JoinLists(s, servers);
    assert forall g :: g in all <==> g in lists;
  }

  // ---------- the server ----------

  class ShardCtrler {
    var allConfs: seq<Config>
    var curNum: nat
    var prevReq: map<nat, nat>

    ghost predicate Valid()
      reads this
    {
      && |allConfs| == curNum + 1
      && forall i :: 0 <= i < |allConfs| ==> allConfs[i].num == i && 0 < |allConfs[i].shards| < MAX_UINT32
    }

    ghost function View(): State
      reads this
    {
      State(allConfs, prevReq)
    }

    constructor (shards: nat)
      requires 0 < shards < MAX_UINT32
      ensures Valid() && View() == Initial(shards)
    {
      allConfs := [Config(0, seq(shards, _ => 0), map[])];
      curNum := 0;
      prevReq := map[];
    }

    /** The shards of every joining group and of every owner. */
    method ListShards(servers: Servers, shards: array<int>) returns (all: Lists)
      ensures all == JoinLists(shards[..], servers)
    {
      all := map g | g in servers :: [];
      var i := 0;
      while i < shards.Length
        invariant i <= shards.Length && ListedUpTo(all, servers, shards[..], i)
      {
        ListNext(all, servers, shards[..], i);
        var g := shards[i];
        all := all[g := (if g in all then all[g] else []) + [i]];
        i := i + 1;
      }
      ListedAll(all, servers, shards[..]);
    }

    /** Balances a copy of the current assignment. */
    method JoinShards(last: Config, servers: Servers) returns (s: seq<int>)
      requires CanJoin(last, servers) && |last.shards| < MAX_UINT32
      ensures s == JoinOutcome(last, servers).s && |s| == |last.shards|
    {
      var shards := new int[|last.shards|](i requires 0 <= i < |last.shards| => last.shards[i]);
      assert shards[..] == last.shards;
      var all := ListShards(servers, shards);
      JoinListsConsistent(last.shards, servers);
      BalanceResult(all, last.shards, GroupList(all));
      var _ := RebalanceShards(all, shards, GroupList(all));
      return shards[..];
    }

    method ApplyJoin(servers: Servers) returns (c: Config)
      requires Valid() && CanJoin(Current(View()), servers)
      modifies this
      ensures Valid() && prevReq == old(prevReq)
      ensures c == Join(Current(old(View())), servers) && allConfs == old(allConfs) + [c]
    {
      var last := allConfs[curNum];
      curNum := curNum + 1;
      var s := JoinShards(last, servers);
      c := Config(last.num + 1, s, last.groups + servers);
      allConfs := allConfs + [c];
    }

    /** Takes the leaving groups out. */
    method RemoveGroups(groups: Servers, gids: seq<int>) returns (left: Servers)
      ensures left == Without(groups, gids)
    {
      left := groups;
      var i := 0;
      while i < |gids|
        invariant i <= |gids|
        invariant left == map g | g in groups && g !in gids[..i] :: groups[g]
      {
        assert gids[..i + 1] == gids[..i] + [gids[i]];
        left := left - {gids[i]};
        i := i + 1;
      }
      assert gids[..i] == gids;
    }

    /** Lists the shards of the groups, visited in some order. */
    method ListGroups(groups: Servers, shards: array<int>) returns (all: Lists)
      ensures all == LeaveLists(groups, shards[..])
    {
      all := map[];
      var rest := groups.Keys;
      while exists g :: g in rest
        invariant rest <= groups.Keys && all.Keys == groups.Keys - rest
        invariant forall g :: g in all ==> all[g] == Indices(shards[..], g, shards.Length)
        decreases |rest|
      {
        var g :| g in rest;
        rest := rest - {g};
        var list := ListOne(shards, g);
        all := all[g := list];
      }
      assert all.Keys == groups.Keys;
    }

    /** The groups that remain, and their shards. */
    method Remove(groups: Servers, gids: seq<int>, shards: array<int>) returns (left: Servers, all: Lists)
      ensures left == Without(groups, gids) && all == LeaveLists(left, shards[..])
    {
      left := RemoveGroups(groups, gids);
      all := ListGroups(left, shards);
    }

    method ListOne(shards: array<int>, g: int) returns (list: seq<nat>)
      ensures list == Indices(shards[..], g, shards.Length)
    {
      list := [];
      var i := 0;
      while i < shards.Length
        invariant i <= shards.Length && list == Indices(shards[..], g, i)
      {
        if g == shards[i] {
          list := list + [i];
        }
        i := i + 1;
      }
    }

    /** One shard: its owner is compared with every leaving group in turn. */
    method AssignShard(all: Lists, shards: array<int>, gids: seq<int>, i: nat) returns (all': Lists)
      requires i < shards.Length && (MinGroup(all) != 0 ==> Size(all, MinGroup(all)) < MAX_UINT32) && forall g :: g in all ==> g !in gids
      modifies shards
      ensures (var m := MinGroup(all);
               if old(shards[i]) in gids then
                 shards[..] == old(shards[..])[i := m] && all' == if m != 0 then all[m := all[m] + [i]] else all
               else shards[..] == old(shards[..]) && all' == all)
    {
      all' := all;
      var min := MinGroupOf(all);
      var found := false;
      var k := 0;
      while k < |gids|
        invariant k <= |gids| && found == (old(shards[i]) in gids[..k])
        invariant shards[..] == if found then old(shards[..])[i := min] else old(shards[..])
        invariant all' == if found && min != 0 then all[min := all[min] + [i]] else all
      {
        assert gids[..k + 1] == gids[..k] + [gids[k]];
        assert gids[k] in gids;
        if gids[k] == shards[i] {
          shards[i] := min;
          if min != 0 {
            all' := all'[min := all'[min] + [i]];
          }
          found := true;
        }
        k := k + 1;
      }
      assert gids[..k] == gids;
    }

    method AssignLeft(all: Lists, shards: array<int>, gids: seq<int>)
      requires SizesOk(all, shards[..], gids) && shards.Length < MAX_UINT32
      modifies shards
      ensures shards[..] == AssignToMin(all, old(shards[..]), gids, 0)
    {
      var all' := all;
      var i := 0;
      while i < shards.Length
        invariant i <= shards.Length && SizesOk(all', shards[..], gids)
        invariant AssignToMin(all', shards[..], gids, i) == AssignToMin(all, old(shards[..]), gids, 0)
      {
        ghost var s := shards[..];
        SmallestRemains(all', s, gids);
        if s[i] in gids {
          AssignOne(all', s, gids, i);
        }
        all' := AssignShard(all', shards, gids, i);
        i := i + 1;
      }
    }

    method ApplyLeave(gids: seq<int>) returns (c: Config)
      requires Valid()
      modifies this
      ensures Valid() && prevReq == old(prevReq)
      ensures c == Leave(Current(old(View())), gids) && allConfs == old(allConfs) + [c]
    {
      var last := allConfs[curNum];
      curNum := curNum + 1;
      var shards := new int[|last.shards|](i requires 0 <= i < |last.shards| => last.shards[i]);
      assert shards[..] == last.shards;
      var groups, all := Remove(last.groups, gids, shards);
      LeaveListsOk(groups, last.shards, gids);
      AssignLeft(all, shards, gids);
      c := Config(last.num + 1, shards[..], groups);
      allConfs := allConfs + [c];
    }

    method ApplyMove(shard: nat, gid: int) returns (c: Config)
      requires Valid() && shard < |Current(View()).shards|
      modifies this
      ensures Valid() && prevReq == old(prevReq)
      ensures c == Move(Current(old(View())), shard, gid) && allConfs == old(allConfs) + [c]
    {
      var last := allConfs[curNum];
      curNum := curNum + 1;
      c := Config(last.num + 1, last.shards[shard := gid], last.groups);
      allConfs := allConfs + [c];
    }

    method ApplyQuery(num: int) returns (c: Config)
      requires Valid() && num >= LATEST
      ensures c == Asked(View(), num)
      ensures 0 <= num <= curNum ==> c.num == num
    {
      var n := num;
      if num == LATEST || num > curNum {
        n := curNum;
      }
      return allConfs[n];
    }

    method ApplyCommand(cmd: Command) returns (reply: Reply)
      requires Valid() && Applicable(View(), cmd)
      modifies this
      ensures Valid() && View() == Apply(old(View()), cmd) && reply == ReplyTo(old(View()), cmd)
    {
      var prev := if cmd.client in prevReq then prevReq[cmd.client] else 0;
      if prev < cmd.req {
        prevReq := prevReq[cmd.client := cmd.req];
        match cmd
        case LeaveCommand(_, _, gids) =>
          var c := ApplyLeave(gids);
          reply := Answer(c);
        case JoinCommand(_, _, servers) =>
          var c := ApplyJoin(servers);
          reply := Answer(c);
        case QueryCommand(_, _, num) =>
          var c := ApplyQuery(num);
          reply := Answer(c);
        case MoveCommand(_, _, shard, gid) =>
          var c := ApplyMove(shard, gid);
          reply := Answer(c);
      } else {
        reply := Old;
      }
    }

    /** Applies a whole log. */
    method ApplyLog(log: seq<Command>)
      requires Valid() && AllApplicable(View(), log)
      modifies this
      ensures Valid() && View() == Fold(old(View()), log)
    {
      var i := 0;
      while i < |log|
        invariant i <= |log| && Valid() && AllApplicable(View(), log[i..])
        invariant Fold(View(), log[i..]) == Fold(old(View()), log)
      {
        assert log[i..][0] == log[i] && log[i..][1..] == log[i + 1..];
        var _ := ApplyCommand(log[i]);
        i := i + 1;
      }
    }
  }

  /** Replicas agree: two controllers that start alike and apply the same log have the same
      configurations in the end, whatever orders their maps were enumerated in. */
  method Replicate(a: ShardCtrler, b: ShardCtrler, log: seq<Command>)
    requires a != b && a.Valid() && b.Valid() && a.View() == b.View() && AllApplicable(a.View(), log)
    modifies a, b
    ensures a.allConfs == b.allConfs && a.curNum == b.curNum && a.prevReq == b.prevReq
  {
    a.ApplyLog(log);
    b.ApplyLog(log);
  }
}
