/** The key/value service on top of the replicated log: a fold over the decided commands that
    skips writes it has already made. */
module KeyValue {
  import opened RequestIds
  import W = Writes

  datatype Args =
    | GetArgs(key: string, id: string)
    | PutAppendArgs(key: string, value: string, op: string, id: string)

  /** A command of the log, with the server that proposed it. */
  datatype KVCommand = KVCommand(server: nat, args: Args)

  datatype Response = Response(command: KVCommand, value: string)

  datatype KV = KV(m: map<string, string>, last: map<int, int>, response: seq<Response>)

  const EMPTY := KV(map[], map[], [])

  /** Every client prints identities that can be read. */
  predicate Readable(log: seq<KVCommand>) {
    forall i :: 0 <= i < |log| ==> ParseId(log[i].args.id).Id?
  }

  function Client(c: KVCommand): int
    requires ParseId(c.args.id).Id?
  {
    ParseId(c.args.id).client
  }

  function Number(c: KVCommand): int
    requires ParseId(c.args.id).Id?
  {
    ParseId(c.args.id).number
  }

  /** A missing entry reads as zero. */
  function LastOf(last: map<int, int>, client: int): int {
    if client in last then last[client] else 0
  }

  function Lookup(m: map<string, string>, k: string): string {
    if k in m then m[k] else ""
  }

  /** The effect of a write; any operation but `Put` appends. */
  function Update(m: map<string, string>, a: Args): map<string, string> {
    match a
    case GetArgs(_, _) => m
    case PutAppendArgs(key, value, op, _) =>
      if op == "Put" then m[key := value] else m[key := Lookup(m, key) + value]
  }

  function Answer(m: map<string, string>, a: Args): string {
    if a.GetArgs? then Lookup(m, a.key) else ""
  }

  predicate IsNew(kv: KV, c: KVCommand)
    requires ParseId(c.args.id).Id?
  {
    LastOf(kv.last, Client(c)) < Number(c)
  }

  function Apply(kv: KV, c: KVCommand): KV
    requires ParseId(c.args.id).Id?
  {
    KV(if IsNew(kv, c) then Update(kv.m, c.args) else kv.m,
       if IsNew(kv, c) then kv.last[Client(c) := Number(c)] else kv.last,
       kv.response + [Response(c, Answer(kv.m, c.args))])
  }

  /** The state after the whole log. */
  function Fold(log: seq<KVCommand>): KV
    requires Readable(log)
  {
    if log == [] then EMPTY else Apply(Fold(log[..|log| - 1]), log[|log| - 1])
  }

  lemma FoldNext(log: seq<KVCommand>, i: nat)
    requires Readable(log) && i < |log|
    ensures Readable(log[..i]) && Readable(log[..i + 1])
    ensures Fold(log[..i + 1]) == Apply(Fold(log[..i]), log[i])
  {
    assert log[..i + 1][..i] == log[..i];
  }

  // ---------- responses ----------

  /** The state after the first `n` entries. */
  function After(log: seq<KVCommand>, n: nat): KV
    requires Readable(log) && n <= |log|
  {
    assert Readable(log[..n]);
    Fold(log[..n])
  }

  /** What entry `i` is answered with. */
  function ResponseTo(log: seq<KVCommand>, i: nat): Response
    requires Readable(log) && i < |log|
  {
    Response(log[i], Answer(After(log, i).m, log[i].args))
  }

  lemma RespondsNext(log: seq<KVCommand>, i: nat)
    requires Readable(log) && i < |log|
    ensures After(log, i + 1).response == After(log, i).response + [ResponseTo(log, i)]
  {
    FoldNext(log, i);
  }

  /** Lists that grow by one given element at a time. */
  lemma {:induction false} Accumulates(rs: seq<seq<Response>>, xs: seq<Response>, n: nat)
    requires |rs| == |xs| + 1 && n <= |xs| && rs[0] == []
    requires forall k :: 0 <= k < |xs| ==> rs[k + 1] == rs[k] + [xs[k]]
    ensures rs[n] == xs[..n]
  {
    if n > 0 {
      Accumulates(rs, xs, n - 1);
      assert rs[n - 1 + 1] == rs[n - 1] + [xs[n - 1]];
    }
  }

  /** Response `i` belongs to entry `i`: it names that command and, for a read, has the value
      at that point of the log. */
  lemma ResponsesAlign(log: seq<KVCommand>)
    requires Readable(log)
    ensures var r := Fold(log).response;
      |r| == |log| && forall i :: 0 <= i < |log| ==> r[i] == ResponseTo(log, i)
  {
    var xs := seq(|log|, i requires 0 <= i < |log| => ResponseTo(log, i));
    var rs := seq(|log| + 1, i requires 0 <= i <= |log| => After(log, i).response);
    forall k | 0 <= k < |xs| ensures rs[k + 1] == rs[k] + [xs[k]] {
      RespondsNext(log, k);
    }
    Accumulates(rs, xs, |log|);
    assert log[..|log|] == log;
  }

  // ---------- at most once ----------

  /** Entry `i` takes effect when the log is applied. */
  predicate Effective(log: seq<KVCommand>, i: nat)
    requires Readable(log) && i < |log|
  {
    assert Readable(log[..i]);
    IsNew(Fold(log[..i]), log[i])
  }

  predicate SameRequest(c: KVCommand, d: KVCommand)
    requires ParseId(c.args.id).Id? && ParseId(d.args.id).Id?
  {
    Client(c) == Client(d) && Number(c) == Number(d)
  }

  /** The requests the entries belong to. */
  function Requests(log: seq<KVCommand>): (r: seq<(int, int)>)
    requires Readable(log)
    ensures |r| == |log| && forall j :: 0 <= j < |log| ==> r[j] == (Client(log[j]), Number(log[j]))
  {
    seq(|log|, j requires 0 <= j < |log| => (Client(log[j]), Number(log[j])))
  }

  /** `x` is the greatest number of the client in the first `n` requests, and not below zero. */
  predicate IsGreatest(r: seq<(int, int)>, n: nat, client: int, x: int)
    requires n <= |r|
  {
    && x >= 0
    && (forall j :: 0 <= j < n && r[j].0 == client ==> r[j].1 <= x)
    && (x > 0 ==> exists j :: 0 <= j < n && r[j] == (client, x))
  }

  lemma GreatestNext(r: seq<(int, int)>, n: nat, client: int, x: int)
    requires n < |r| && IsGreatest(r, n, client, x)
    ensures IsGreatest(r, n + 1, client, if r[n].0 == client && x < r[n].1 then r[n].1 else x)
  {
  }

  lemma ApplyRaises(kv: KV, c: KVCommand, client: int)
    requires ParseId(c.args.id).Id?
    ensures var x := LastOf(kv.last, client);
      LastOf(Apply(kv, c).last, client) == if Client(c) == client && x < Number(c) then Number(c) else x
  {
  }

  /** The table holds, for every client, the greatest number seen. */
  lemma {:induction false} TableIsGreatest(log: seq<KVCommand>, n: nat, client: int)
    requires Readable(log) && n <= |log|
    ensures Readable(log[..n]) && IsGreatest(Requests(log), n, client, LastOf(Fold(log[..n]).last, client))
  {
    if n > 0 {
      TableIsGreatest(log, n - 1, client);
      FoldNext(log, n - 1);
      ApplyRaises(Fold(log[..n - 1]), log[n - 1], client);
      GreatestNext(Requests(log), n - 1, client, LastOf(Fold(log[..n - 1]).last, client));
    }
  }

  /** A request takes effect at most once, however often it is in the log. */
  lemma AtMostOnce(log: seq<KVCommand>, i: nat, j: nat)
    requires Readable(log) && i < |log| && j < |log| && SameRequest(log[i], log[j])
    requires Effective(log, i) && Effective(log, j)
    ensures i == j
  {
    TableIsGreatest(log, i, Client(log[i]));
    TableIsGreatest(log, j, Client(log[j]));
  }

  /** Where an entry has no effect the map stays as it is. */
  lemma OnlyEffectiveWrites(log: seq<KVCommand>, i: nat)
    requires Readable(log) && i < |log|
    ensures Readable(log[..i]) && Readable(log[..i + 1])
    ensures Fold(log[..i + 1]).m ==
      if Effective(log, i) then Update(Fold(log[..i]).m, log[i].args) else Fold(log[..i]).m
  {
    FoldNext(log, i);
  }

  // ---------- first occurrences ----------

  predicate IsFirst(log: seq<KVCommand>, i: nat)
    requires Readable(log) && i < |log|
  {
    forall j :: 0 <= j < i ==> !SameRequest(log[j], log[i])
  }

  /** The map after applying first occurrences only, among the first `n` entries. */
  function FirstFold(log: seq<KVCommand>, n: nat): map<string, string>
    requires Readable(log) && n <= |log|
  {
    if n == 0 then map[]
    else
      var m := FirstFold(log, n - 1);
      if IsFirst(log, n - 1) then Update(m, log[n - 1].args) else m
  }

  /** A number that appears for the first time is positive and above all its client's earlier
      ones. */
  predicate FirstSeenInOrder(log: seq<KVCommand>)
    requires Readable(log)
  {
    forall i :: 0 <= i < |log| && IsFirst(log, i) ==>
      Number(log[i]) > 0 &&
      forall j :: 0 <= j < i && Client(log[j]) == Client(log[i]) ==> Number(log[j]) < Number(log[i])
  }

  lemma EffectiveIsFirst(log: seq<KVCommand>, i: nat)
    requires Readable(log) && i < |log| && Effective(log, i)
    ensures IsFirst(log, i)
    ensures Number(log[i]) > 0
    ensures forall j :: 0 <= j < i && Client(log[j]) == Client(log[i]) ==> Number(log[j]) < Number(log[i])
  {
    TableIsGreatest(log, i, Client(log[i]));
  }

  /** The filter lets through exactly the first occurrences if and only if every client's
      numbers first appear in increasing order. */
  lemma FilterIsFirstOccurrence(log: seq<KVCommand>)
    requires Readable(log)
    ensures (forall i :: 0 <= i < |log| ==> (Effective(log, i) <==> IsFirst(log, i))) <==> FirstSeenInOrder(log)
  {
    forall i | 0 <= i < |log| && Effective(log, i)
      ensures IsFirst(log, i) && Number(log[i]) > 0
      ensures forall j :: 0 <= j < i && Client(log[j]) == Client(log[i]) ==> Number(log[j]) < Number(log[i])
    {
      EffectiveIsFirst(log, i);
    }
    if FirstSeenInOrder(log) {
      forall i | 0 <= i < |log| && IsFirst(log, i) ensures Effective(log, i) {
        TableIsGreatest(log, i, Client(log[i]));
      }
    }
  }

  lemma {:induction false} FoldIsFirstFold(log: seq<KVCommand>, n: nat)
    requires Readable(log) && n <= |log|
    requires forall i :: 0 <= i < |log| ==> (Effective(log, i) <==> IsFirst(log, i))
    ensures Readable(log[..n]) && Fold(log[..n]).m == FirstFold(log, n)
  {
    if n > 0 {
      FoldIsFirstFold(log, n - 1);
      OnlyEffectiveWrites(log, n - 1);
    }
  }

  /** Then the service holds what applying each request once, where it first appears, gives. */
  lemma DuplicatesDoNotMatter(log: seq<KVCommand>)
    requires Readable(log) && FirstSeenInOrder(log)
    ensures Fold(log).m == FirstFold(log, |log|)
  {
    FilterIsFirstOccurrence(log);
    FoldIsFirstFold(log, |log|);
    assert log[..|log|] == log;
  }

  // ---------- what the answers mean ----------

  /** The number of entry `i` is positive and above all its client's earlier ones. */
  predicate Counts(log: seq<KVCommand>, i: nat)
    requires Readable(log) && i < |log|
  {
    var r := Requests(log);
    r[i].1 > 0 && forall j :: 0 <= j < i && r[j].0 == r[i].0 ==> r[j].1 < r[i].1
  }

  lemma EffectiveIffCounts(log: seq<KVCommand>, i: nat)
    requires Readable(log) && i < |log|
    ensures Effective(log, i) <==> Counts(log, i)
  {
    TableIsGreatest(log, i, Client(log[i]));
  }

  /** The write that entry `c` makes, if it counts. */
  function WriteOf(c: KVCommand, counts: bool): W.Write<string, char> {
    if !counts || c.args.GetArgs? then W.Nothing
    else if c.args.op == "Put" then W.Put(c.args.key, c.args.value)
    else W.Append(c.args.key, c.args.value)
  }

  /** The writes of the log, entry by entry; an entry that does not count writes nothing. */
  function CountedWrites(log: seq<KVCommand>): (ws: seq<W.Write<string, char>>)
    requires Readable(log)
    ensures |ws| == |log| && forall i :: 0 <= i < |log| ==> ws[i] == WriteOf(log[i], Counts(log, i))
  {
    seq(|log|, i requires 0 <= i < |log| => WriteOf(log[i], Counts(log, i)))
  }

  /** The same with first occurrences. */
  function FirstWrites(log: seq<KVCommand>): (ws: seq<W.Write<string, char>>)
    requires Readable(log)
    ensures |ws| == |log| && forall i :: 0 <= i < |log| ==> ws[i] == WriteOf(log[i], IsFirst(log, i))
  {
    seq(|log|, i requires 0 <= i < |log| => WriteOf(log[i], IsFirst(log, i)))
  }

  /** A map holds at `k` what writes left there. */
  predicate Holds(m: map<string, string>, k: string, written: bool, value: string) {
    (k in m <==> written) && Lookup(m, k) == value
  }

  lemma UpdateHolds(m: map<string, string>, c: KVCommand, counts: bool, ws: seq<W.Write<string, char>>, n: nat, k: string)
    requires n < |ws| && ws[n] == WriteOf(c, counts)
    requires Holds(m, k, W.Written(ws, k, n), W.Value(ws, k, n))
    ensures Holds(if counts then Update(m, c.args) else m, k, W.Written(ws, k, n + 1), W.Value(ws, k, n + 1))
  {
    W.WrittenNext(ws, k, n);
    W.ValueNext(ws, k, n);
  }

  lemma MapNext(log: seq<KVCommand>, n: nat)
    requires Readable(log) && n < |log|
    ensures After(log, n + 1).m == if Counts(log, n) then Update(After(log, n).m, log[n].args) else After(log, n).m
  {
    OnlyEffectiveWrites(log, n);
    EffectiveIffCounts(log, n);
  }

  /** Maps that follow each other by the entries that count. */
  lemma {:induction false} MapsHold(ms: seq<map<string, string>>, log: seq<KVCommand>, on: seq<bool>,
                                    ws: seq<W.Write<string, char>>, n: nat, k: string)
    requires |log| == |on| == |ws| && |ms| == |log| + 1 && n <= |log| && ms[0] == map[]
    requires forall i :: 0 <= i < |ws| ==> ws[i] == WriteOf(log[i], on[i])
    requires forall i :: 0 <= i < |log| ==> ms[i + 1] == if on[i] then Update(ms[i], log[i].args) else ms[i]
    ensures Holds(ms[n], k, W.Written(ws, k, n), W.Value(ws, k, n))
  {
    if n == 0 {
      W.ValueUnwritten(ws, k, 0);
    } else {
      MapsHold(ms, log, on, ws, n - 1, k);
      UpdateHolds(ms[n - 1], log[n - 1], on[n - 1], ws, n - 1, k);
      assert ms[n - 1 + 1] == if on[n - 1] then Update(ms[n - 1], log[n - 1].args) else ms[n - 1];
    }
  }

  /** After `n` entries a key is there exactly if a counted write touched it, with the last
      counted value put there and what was appended since. */
  lemma MapHoldsWrites(log: seq<KVCommand>, n: nat, k: string)
    requires Readable(log) && n <= |log|
    ensures Holds(After(log, n).m, k, W.Written(CountedWrites(log), k, n), W.Value(CountedWrites(log), k, n))
  {
    var ms := seq(|log| + 1, i requires 0 <= i <= |log| => After(log, i).m);
    var on := seq(|log|, i requires 0 <= i < |log| => Counts(log, i));
    forall i | 0 <= i < |log| ensures ms[i + 1] == if on[i] then Update(ms[i], log[i].args) else ms[i] {
      MapNext(log, i);
    }
    MapsHold(ms, log, on, CountedWrites(log), n, k);
  }

  /** For every log: the response to a read is the last counted value put at its key before it,
      followed by what counted entries appended there since, in log order; the response to a
      write is empty. */
  lemma ReadsSeeWrites(log: seq<KVCommand>, i: nat)
    requires Readable(log) && i < |log|
    ensures var r := Fold(log).response;
      && |r| == |log| && r[i].command == log[i]
      && r[i].value == if log[i].args.GetArgs? then W.Value(CountedWrites(log), log[i].args.key, i) else ""
  {
    ResponsesAlign(log);
    MapHoldsWrites(log, i, log[i].args.key);
  }

  /** If every client's numbers first appear in increasing order, the same holds of first
      occurrences. */
  lemma ReadsSeeFirstWrites(log: seq<KVCommand>, i: nat)
    requires Readable(log) && FirstSeenInOrder(log) && i < |log|
    ensures var r := Fold(log).response;
      && |r| == |log| && r[i].command == log[i]
      && r[i].value == if log[i].args.GetArgs? then W.Value(FirstWrites(log), log[i].args.key, i) else ""
  {
    FilterIsFirstOccurrence(log);
    forall j | 0 <= j < |log| ensures CountedWrites(log)[j] == FirstWrites(log)[j] {
      EffectiveIffCounts(log, j);
    }
    assert CountedWrites(log) == FirstWrites(log);
    ReadsSeeWrites(log, i);
  }

  // ---------- the server ----------

  class KVServer {
    var m: map<string, string>
    var last: map<int, int>
    var response: seq<Response>

    ghost function State(): KV
      reads this
    {
      KV(m, last, response)
    }

    constructor ()
      ensures State() == EMPTY
    {
      m := map[];
      last := map[];
      response := [];
    }

    /** One message from the apply channel. */
    method ApplyOne(c: KVCommand)
      requires ParseId(c.args.id).Id?
      modifies this
      ensures State() == Apply(old(State()), c)
    {
      var id := ParseId(c.args.id);
      match c.args
      case GetArgs(key, _) =>
        if LastOf(last, id.client) < id.number {
          last := last[id.client := id.number];
        }
        response := response + [Response(c, Lookup(m, key))];
      case PutAppendArgs(key, value, op, _) =>
        if LastOf(last, id.client) < id.number {
          if op == "Put" {
            m := m[key := value];
          } else {
            m := m[key := Lookup(m, key) + value];
          }
          last := last[id.client := id.number];
        }
        response := response + [Response(c, "")];
    }

    /** The apply loop over all that has arrived. */
    method ReadApply(log: seq<KVCommand>)
      requires Readable(log) && State() == EMPTY
      modifies this
      ensures State() == Fold(log)
    {
      var i := 0;
      while i < |log|
        invariant i <= |log| && Readable(log[..i]) && State() == Fold(log[..i])
      {
        FoldNext(log, i);
        ApplyOne(log[i]);
        i := i + 1;
      }
      assert log[..i] == log;
    }
  }
}
