/** One replica group of the sharded store, seen as the single state machine its log makes
    it: which shards it owns under its configuration, what it stores, and what each
    operation taken from the log does. */
module ShardGroup {

  const NSHARDS: nat := 10

  type byte = b: int | 0 <= b < 256
  type Key = seq<byte>
  type Value = seq<byte>
  type Client = nat
  type Shard = map<Key, Value>
  type Store = s: seq<Shard> | |s| == NSHARDS witness seq(NSHARDS, _ => map[])
  type Owners = s: seq<nat> | |s| == NSHARDS witness seq(NSHARDS, _ => 0)
  type Table = map<Client, nat>

  /** A configuration: the owner of every shard; group 0 is no group. */
  datatype Config = Config(num: nat, shards: Owners)

  datatype Group = Group(gid: nat, config: Config, store: Store, prevReq: Table)

  datatype Kind = Put | Append | Get
  datatype Op = Op(kind: Kind, client: Client, id: nat, key: Key, value: Value)

  datatype Err = OK | ErrNoKey | ErrWrongGroup
  datatype Reply = Reply(err: Err, value: Value)
  datatype Served = Served(g: Group, reply: Reply)

  /** The operation that moves a group to its next configuration. */
  datatype Change = Change(config: Config, store: Store, prevReq: Table)

  /** What a donor hands over. */
  datatype Transferred = TryAgain | Handed(store: Store, prevReq: Table)

  function EmptyStore(): (r: Store)
    ensures forall sid :: 0 <= sid < NSHARDS ==> r[sid] == map[]
  {
    seq(NSHARDS, sid => map[])
  }

  /** The shard of a key: its first byte modulo the number of shards. */
  function Key2Shard(key: Key): (sid: nat)
    ensures sid < NSHARDS
    ensures sid == if key == [] then 0 else key[0] % NSHARDS
  {
    if |key| > 0 then key[0] % NSHARDS else 0
  }

  /** The shard is what remains of the first byte when all multiples of the number of shards
      are taken off; it alone does. */
  lemma Key2ShardRemains(key: Key, q: nat, sid: nat)
    requires key != [] && sid < NSHARDS
    ensures key[0] == q * NSHARDS + sid ==> Key2Shard(key) == sid
    ensures key[0] == (key[0] / NSHARDS) * NSHARDS + Key2Shard(key)
  {
  }

  // ---------- the table of completed requests ----------

  /** A missing entry reads as zero. */
  function Last(prev: Table, c: Client): nat {
    if c in prev then prev[c] else 0
  }

  function Max(x: nat, y: nat): nat {
    if x < y then y else x
  }

  function MergeTables(a: Table, b: Table): (r: Table)
    ensures forall c :: Last(r, c) == Max(Last(a, c), Last(b, c))
    ensures r.Keys == a.Keys + b.Keys
  {
    map c | c in a.Keys + b.Keys :: Max(Last(a, c), Last(b, c))
  }

  // ---------- client operations ----------

  predicate IsNew(g: Group, op: Op) {
    op.client in g.prevReq ==> op.id > g.prevReq[op.client]
  }

  predicate Owns(g: Group, sid: nat) {
    sid < NSHARDS && g.config.shards[sid] == g.gid
  }

  function Lookup(m: Shard, k: Key): Value {
    if k in m then m[k] else []
  }

  /** The effect of an operation on the map it addresses. */
  function Effect(m: Shard, op: Op): Shard {
    match op.kind
    case Put => m[op.key := op.value]
    case Append => m[op.key := Lookup(m, op.key) + op.value]
    case Get => m
  }

  function Read(m: Shard, k: Key): Reply {
    if k in m then Reply(OK, m[k]) else Reply(ErrNoKey, [])
  }

  /** The group once it has executed a new operation. */
  function Execute(g: Group, op: Op): Group {
    var sid := Key2Shard(op.key);
    g.(store := g.store[sid := Effect(g.store[sid], op)], prevReq := g.prevReq[op.client := op.id])
  }

  function Serve(g: Group, op: Op): Served {
    var sid := Key2Shard(op.key);
    if !Owns(g, sid) then Served(g, Reply(ErrWrongGroup, []))
    else
      var g' := if IsNew(g, op) then Execute(g, op) else g;
      Served(g', if op.kind == Get then Read(g.store[sid], op.key) else Reply(OK, []))
  }

  // ---------- moving to the next configuration ----------

  /** Under `next` the group `gid` gains shard `sid`, which another group owned under `cur`. */
  predicate Gains(gid: nat, cur: Config, next: Config, sid: nat) {
    sid < NSHARDS && cur.shards[sid] != gid && next.shards[sid] == gid && cur.shards[sid] != 0
  }

  /** The shards to fetch from donor `d`, in increasing order, looking at shards below `n`. */
  function ToFetch(gid: nat, cur: Config, next: Config, d: nat, n: nat): (r: seq<nat>)
    requires n <= NSHARDS
    ensures forall sid: nat :: sid in r <==> sid < n && Gains(gid, cur, next, sid) && cur.shards[sid] == d
    ensures forall i, j :: 0 <= i < j < |r| ==> r[i] < r[j]
  {
    if n == 0 then []
    else
      var r := ToFetch(gid, cur, next, d, n - 1);
      assert forall i :: 0 <= i < |r| ==> r[i] in r;
      if Gains(gid, cur, next, n - 1) && cur.shards[n - 1] == d then r + [n - 1] else r
  }

  function Donors(gid: nat, cur: Config, next: Config): (r: set<nat>)
    ensures forall d :: d in r <==> exists sid: nat :: Gains(gid, cur, next, sid) && cur.shards[sid] == d
  {
    set sid | 0 <= sid < NSHARDS && Gains(gid, cur, next, sid) :: cur.shards[sid]
  }

  function Transfer(g: Group, num: nat): Transferred {
    if g.config.num < num then TryAgain else Handed(g.store, g.prevReq)
  }

  function EmptyChange(next: Config): Change {
    Change(next, EmptyStore(), map[])
  }

  /** A store with shard `sid` overlaid by `b[sid]` wherever `chosen` says so. */
  function Overlay(a: Store, b: Store, chosen: set<nat>): (r: Store)
    ensures forall sid :: 0 <= sid < NSHARDS ==> r[sid] == if sid in chosen then a[sid] + b[sid] else a[sid]
  {
    seq(NSHARDS, sid requires 0 <= sid < NSHARDS => if sid in chosen then a[sid] + b[sid] else a[sid])
  }

  function OverlayAll(a: Store, b: Store): (r: Store)
    ensures forall sid :: 0 <= sid < NSHARDS ==> r[sid] == a[sid] + b[sid]
  {
    seq(NSHARDS, sid requires 0 <= sid < NSHARDS => a[sid] + b[sid])
  }

  /** The shards gained from donor `d`. */
  function GainedFrom(gid: nat, cur: Config, next: Config, d: nat): set<nat> {
    set sid | 0 <= sid < NSHARDS && Gains(gid, cur, next, sid) && cur.shards[sid] == d
  }

  /** The change with the answer of donor `d` put in. */
  function WithAnswer(gid: nat, cur: Config, ch: Change, d: nat, store: Store, prev: Table): Change {
    ch.(store := Overlay(ch.store, store, GainedFrom(gid, cur, ch.config, d)),
        prevReq := MergeTables(ch.prevReq, prev))
  }

  predicate IsNext(g: Group, ch: Change) {
    ch.config.num == g.config.num + 1
  }

  function ApplyChange(g: Group, ch: Change): Group {
    if !IsNext(g, ch) then g
    else
      Group(g.gid, ch.config, OverlayAll(g.store, ch.store), MergeTables(g.prevReq, ch.prevReq))
  }

  /** The shards whose donors are asked to delete their copy. */
  function ToDelete(g: Group, ch: Change): (r: set<nat>) {
    if !IsNext(g, ch) then {} else set sid | 0 <= sid < NSHARDS && ch.store[sid] != map[]
  }

  function ApplyDelete(g: Group, num: nat, sid: nat): Group {
    if sid < NSHARDS && num <= g.config.num && g.gid != g.config.shards[sid] then
      g.(store := g.store[sid := map[]])
    else g
  }
}
