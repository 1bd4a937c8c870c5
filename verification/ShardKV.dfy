/** The sharded server as the object it is.  Every method is proved to take the abstract group
    through the corresponding function of `ShardGroup`; loops over Go maps run in any order. */
module ShardServer {
  import opened ShardGroup

  /** `r` is `dst` with the entries of `src` outside `rest` copied over it. */
  ghost predicate CopiedBut(src: Shard, dst: Shard, rest: set<Key>, r: Shard) {
    && r.Keys == dst.Keys + (src.Keys - rest)
    && forall k :: k in r ==> r[k] == if k in src && k !in rest then src[k] else dst[k]
  }

  /** Copies `src` over `dst`, entry by entry. */
  method CopyMap(src: Shard, dst: Shard) returns (r: Shard)
    ensures r == dst + src
  {
    r := dst;
    var rest := src.Keys;
    while rest != {}
      invariant rest <= src.Keys && CopiedBut(src, dst, rest, r)
      decreases |rest|
    {
      var k :| k in rest;
      rest := rest - {k};
      r := r[k := src[k]];
    }
  }

  /** `r` is `prev` with the entries of `more` outside `rest` merged into it. */
  ghost predicate MergedBut(prev: Table, more: Table, rest: set<Client>, r: Table) {
    && r.Keys == prev.Keys + (more.Keys - rest)
    && forall c :: c in r ==> r[c] == if c in rest then Last(prev, c) else Max(Last(prev, c), Last(more, c))
  }

  lemma MergeStep(prev: Table, more: Table, rest: set<Client>, r: Table, c: Client)
    requires rest <= more.Keys && MergedBut(prev, more, rest, r) && c in rest
    ensures MergedBut(prev, more, rest - {c}, r[c := Max(Last(r, c), more[c])])
  {
    assert Last(r, c) == Last(prev, c);
  }

  lemma MergeDone(prev: Table, more: Table, r: Table)
    requires MergedBut(prev, more, {}, r)
    ensures r == MergeTables(prev, more)
  {
    var m := MergeTables(prev, more);
    assert r.Keys == m.Keys;
    forall c | c in r ensures r[c] == m[c] {
      assert Last(m, c) == Max(Last(prev, c), Last(more, c));
    }
  }

  /** Raises the entries of `prev` to those of `more`. */
  method MergePrev(prev: Table, more: Table) returns (r: Table)
    ensures r == MergeTables(prev, more)
  {
    r := prev;
    var rest := more.Keys;
    while rest != {}
      invariant rest <= more.Keys && MergedBut(prev, more, rest, r)
      decreases |rest|
    {
      var c :| c in rest;
      MergeStep(prev, more, rest, r, c);
      r := r[c := Max(Last(r, c), more[c])];
      rest := rest - {c};
    }
    MergeDone(prev, more, r);
  }

  /** Putting in the answers of the donors in `order`; a donor that gave none adds nothing. */
  function FoldAnswers(gid: nat, cur: Config, next: Config, answers: map<nat, Transferred>, order: seq<nat>): Change {
    if order == [] then EmptyChange(next)
    else
      var ch := FoldAnswers(gid, cur, next, answers, order[..|order| - 1]);
      var d := order[|order| - 1];
      if d in answers && answers[d].Handed? then
        WithAnswer(gid, cur, ch, d, answers[d].store, answers[d].prevReq)
      else ch
  }

  lemma FoldMore(gid: nat, cur: Config, next: Config, answers: map<nat, Transferred>, order: seq<nat>, d: nat)
    ensures FoldAnswers(gid, cur, next, answers, order + [d]) ==
      var ch := FoldAnswers(gid, cur, next, answers, order);
      if d in answers && answers[d].Handed? then
        WithAnswer(gid, cur, ch, d, answers[d].store, answers[d].prevReq)
      else ch
  {
    assert (order + [d])[..|order|] == order;
  }

  /** The shards to fetch, among the first `n`, listed by donor. */
  ghost predicate FetchUpTo(gid: nat, cur: Config, next: Config, m: map<nat, seq<nat>>, n: nat)
    requires n <= NSHARDS
  {
    && (forall d :: d in m ==> m[d] != [] && m[d] == ToFetch(gid, cur, next, d, n))
    && (forall d :: d !in m ==> ToFetch(gid, cur, next, d, n) == [])
  }

  lemma FetchNext(gid: nat, cur: Config, next: Config, m: map<nat, seq<nat>>, n: nat)
    requires n < NSHARDS && FetchUpTo(gid, cur, next, m, n)
    ensures var d := cur.shards[n];
      FetchUpTo(gid, cur, next,
        if Gains(gid, cur, next, n) then m[d := (if d in m then m[d] else []) + [n]] else m, n + 1)
  {
  }

  lemma FetchAll(gid: nat, cur: Config, next: Config, m: map<nat, seq<nat>>)
    requires FetchUpTo(gid, cur, next, m, NSHARDS)
    ensures m.Keys == Donors(gid, cur, next)
  {
    forall d: nat ensures d in m <==> d in Donors(gid, cur, next) {
      var r := ToFetch(gid, cur, next, d, NSHARDS);
      if d in m {
        assert r[0] in r;
      }
    }
  }

  class ShardKV {
    const gid: nat
    var config: Config
    var store: Store
    var prevReq: Table

    ghost function State(): Group
      reads this
    {
      Group(gid, config, store, prevReq)
    }

    constructor (gid: nat, first: Config)
      ensures State() == Group(gid, first, EmptyStore(), map[])
    {
      this.gid := gid;
      config := first;
      store := EmptyStore();
      prevReq := map[];
    }

    // ---------- client operations ----------

    method CheckNew(op: Op) returns (yes: bool)
      ensures yes == IsNew(State(), op)
    {
      if op.client in prevReq {
        return op.id > prevReq[op.client];
      }
      return true;
    }

    method IsWrongGroup(key: Key) returns (yes: bool)
      ensures yes == !Owns(State(), Key2Shard(key))
    {
      return config.shards[Key2Shard(key)] != gid;
    }

    method ApplyPut(op: Op) returns (reply: Reply)
      requires op.kind == Put
      modifies this
      ensures (var s := Serve(old(State()), op); State() == s.g && reply == s.reply)
    {
      var wrong := IsWrongGroup(op.key);
      if wrong {
        return Reply(ErrWrongGroup, []);
      }
      reply := Reply(OK, []);
      var isNew := CheckNew(op);
      if !isNew {
        return;
      }
      var sid := Key2Shard(op.key);
      store := store[sid := store[sid][op.key := op.value]];
      prevReq := prevReq[op.client := op.id];
    }

    method ApplyAppend(op: Op) returns (reply: Reply)
      requires op.kind == Append
      modifies this
      ensures (var s := Serve(old(State()), op); State() == s.g && reply == s.reply)
    {
      var wrong := IsWrongGroup(op.key);
      if wrong {
        return Reply(ErrWrongGroup, []);
      }
      reply := Reply(OK, []);
      var isNew := CheckNew(op);
      if !isNew {
        return;
      }
      var sid := Key2Shard(op.key);
      store := store[sid := store[sid][op.key := Lookup(store[sid], op.key) + op.value]];
      prevReq := prevReq[op.client := op.id];
    }

    method ApplyGet(op: Op) returns (reply: Reply)
      requires op.kind == Get
      modifies this
      ensures (var s := Serve(old(State()), op); State() == s.g && reply == s.reply)
    {
      var wrong := IsWrongGroup(op.key);
      if wrong {
        return Reply(ErrWrongGroup, []);
      }
      var isNew := CheckNew(op);
      if isNew {
        prevReq := prevReq[op.client := op.id];
      }
      var sid := Key2Shard(op.key);
      assert store[sid := store[sid]] == store;
      if op.key !in store[sid] {
        return Reply(ErrNoKey, []);
      }
      return Reply(OK, store[sid][op.key]);
    }

    // ---------- moving to the next configuration ----------

    /** Lays `incoming` over the store; reports the shards that brought data. */
    method CopyStore(incoming: Store) returns (moved: set<nat>)
      modifies this`store
      ensures store == OverlayAll(old(store), incoming)
      ensures moved == set sid | 0 <= sid < NSHARDS && incoming[sid] != map[]
    {
      moved := {};
      var sid := 0;
      while sid < NSHARDS
        invariant sid <= NSHARDS
        invariant forall k :: 0 <= k < NSHARDS ==>
                    store[k] == if k < sid then old(store)[k] + incoming[k] else old(store)[k]
        invariant forall k :: k in moved <==> 0 <= k < sid && incoming[k] != map[]
      {
        var merged := CopyMap(incoming[sid], store[sid]);
        store := store[sid := merged];
        if incoming[sid] != map[] {
          moved := moved + {sid};
        }
        sid := sid + 1;
      }
    }

    /** `deletes` are the shards whose previous owners are asked to drop their copies. */
    method Reconfigure(ch: Change) returns (deletes: set<nat>)
      modifies this
      ensures State() == ApplyChange(old(State()), ch)
      ensures deletes == ToDelete(old(State()), ch)
    {
      deletes := {};
      if ch.config.num - config.num != 1 {
        return;
      }
      prevReq := MergePrev(prevReq, ch.prevReq);
      deletes := CopyStore(ch.store);
      config := ch.config;
    }

    method DropShard(num: nat, sid: nat)
      requires sid < NSHARDS
      modifies this
      ensures State() == ApplyDelete(old(State()), num, sid)
    {
      if num <= config.num && gid != config.shards[sid] {
        store := store[sid := map[]];
      }
    }

    /** The reply to a request for shards: the whole store, copied, unless the server is behind. */
    method HandOver(num: nat) returns (reply: Transferred)
      ensures reply == Transfer(State(), num)
    {
      if config.num < num {
        return TryAgain;
      }
      var prev := MergePrev(map[], prevReq);
      assert prev == prevReq;
      var copy: Store := EmptyStore();
      var i := 0;
      while i < NSHARDS
        invariant i <= NSHARDS
        invariant forall k :: 0 <= k < NSHARDS ==> copy[k] == if k < i then store[k] else map[]
      {
        var shard := CopyMap(store[i], copy[i]);
        assert map[] + store[i] == store[i];
        copy := copy[i := shard];
        i := i + 1;
      }
      assert copy == store;
      return Handed(copy, prev);
    }

    /** For each donor the shards to fetch from it, in increasing order. */
    method ShardsToTransfer(next: Config) returns (m: map<nat, seq<nat>>)
      ensures m.Keys == Donors(gid, config, next)
      ensures forall d :: d in m ==> m[d] == ToFetch(gid, config, next, d, NSHARDS)
    {
      m := map[];
      var i := 0;
      while i < NSHARDS
        invariant i <= NSHARDS && FetchUpTo(gid, config, next, m, i)
      {
        FetchNext(gid, config, next, m, i);
        if config.shards[i] == gid || next.shards[i] != gid || config.shards[i] == 0 {
          assert !Gains(gid, config, next, i);
        } else {
          var d := config.shards[i];
          if d !in m {
            m := m[d := []];
          }
          m := m[d := m[d] + [i]];
        }
        i := i + 1;
      }
      FetchAll(gid, config, next, m);
    }

    /** The change to `next`, given the answers of the donors, taken in some order.  It is
        complete exactly if every donor answered. */
    method GetChangeOp(next: Config, answers: map<nat, Transferred>) returns (ch: Change, ok: bool, ghost order: seq<nat>)
      ensures ch == FoldAnswers(gid, config, next, answers, order)
      ensures forall d :: d in order <==> d in Donors(gid, config, next)
      ensures ok <==> forall d :: d in Donors(gid, config, next) ==> d in answers && answers[d].Handed?
    {
      ch, ok, order := EmptyChange(next), true, [];
      var all := ShardsToTransfer(next);
      var rest := all.Keys;
      while rest != {}
        invariant rest <= all.Keys
        invariant ch == FoldAnswers(gid, config, next, answers, order)
        invariant ch.config == next
        invariant forall d :: d in order <==> d in all.Keys && d !in rest
        invariant ok <==> forall d :: d in order ==> d in answers && answers[d].Handed?
        decreases |rest|
      {
        var d :| d in rest;
        rest := rest - {d};
        FoldMore(gid, config, next, answers, order, d);
        var answered := d in answers && answers[d].Handed?;
        if answered {
          ch := TakeAnswer(ch, d, all[d], answers[d].store, answers[d].prevReq);
        }
        ok := ok && answered;
        order := order + [d];
      }
    }

    method TakeAnswer(ch: Change, d: nat, sids: seq<nat>, from: Store, prev: Table) returns (r: Change)
      requires sids == ToFetch(gid, config, ch.config, d, NSHARDS)
      ensures r == WithAnswer(gid, config, ch, d, from, prev)
    {
      var merged := CopyShards(ch.store, from, sids);
      assert merged == Overlay(ch.store, from, GainedFrom(gid, config, ch.config, d));
      var table := MergePrev(ch.prevReq, prev);
      return ch.(store := merged, prevReq := table);
    }

    /** Copies the listed shards. */
    method CopyShards(into: Store, from: Store, sids: seq<nat>) returns (r: Store)
      requires forall sid :: sid in sids ==> sid < NSHARDS
      ensures forall sid :: 0 <= sid < NSHARDS ==>
                r[sid] == if sid in sids then into[sid] + from[sid] else into[sid]
    {
      r := into;
      var i := 0;
      while i < |sids|
        invariant i <= |sids|
        invariant forall sid :: 0 <= sid < NSHARDS ==>
                    r[sid] == if sid in sids[..i] then into[sid] + from[sid] else into[sid]
      {
        var sid := sids[i];
        assert sid in sids;
        var shard := CopyMap(from[sid], r[sid]);
        assert sids[..i + 1] == sids[..i] + [sid];
        assert into[sid] + from[sid] + from[sid] == into[sid] + from[sid];
        r := r[sid := shard];
        i := i + 1;
      }
      assert sids[..i] == sids;
    }
  }

  /** The part of a client that numbers its requests. */
  class Clerk {
    const clientId: Client
    var requestId: nat

    constructor (clientId: Client)
      ensures this.clientId == clientId && requestId == 0
    {
      this.clientId := clientId;
      requestId := 0;
    }

    /** A number above all it gave out before. */
    method NewRequestId() returns (x: nat)
      modifies this
      ensures x == old(requestId) + 1 == requestId
    {
      requestId := requestId + 1;
      x := requestId;
    }
  }
}
