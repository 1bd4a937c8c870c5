/** The service on the replicated log: what agreement of the logs means for the key/value
    servers that apply them. */
module Service {
  import R = Replica
  import C = Cluster
  import A = Agreement
  import opened KeyValue

  /** The commands handed to a server, as the service reads them. */
  function Commands(msgs: seq<R.ApplyMsg>, decode: R.Command -> KVCommand): (log: seq<KVCommand>)
    ensures |log| == |msgs| && forall i :: 0 <= i < |msgs| ==> log[i] == decode(msgs[i].command)
  {
    seq(|msgs|, i requires 0 <= i < |msgs| => decode(msgs[i].command))
  }

  lemma {:induction false} FoldPrefix(log: seq<KVCommand>, n: nat)
    requires Readable(log) && n <= |log|
    ensures Readable(log[..n]) && Fold(log[..n]).response <= Fold(log).response
    decreases |log| - n
  {
    if n == |log| {
      assert log[..n] == log;
    } else {
      FoldNext(log, n);
      FoldPrefix(log, n + 1);
    }
  }

  /** In every state of every guarded run of the cluster, the answers any two servers have
      given, entry by entry of the log, are the same as far as both have got; servers that
      have got equally far hold the same map. */
  lemma ServersAnswerAlike(ws: seq<C.World>, sts: seq<C.Step>, i: nat, s: nat, t: nat, decode: R.Command -> KVCommand)
    requires C.IsGuardedRun(ws, sts) && i < |ws| && s < |ws[i].servers| && t < |ws[i].servers|
    requires Readable(Commands(ws[i].servers[s].applied, decode))
    requires Readable(Commands(ws[i].servers[t].applied, decode))
    ensures var x := Commands(ws[i].servers[s].applied, decode);
      var y := Commands(ws[i].servers[t].applied, decode);
      && (|x| <= |y| ==> Fold(x).response <= Fold(y).response)
      && (|x| == |y| ==> Fold(x) == Fold(y))
  {
    var x := Commands(ws[i].servers[s].applied, decode);
    var y := Commands(ws[i].servers[t].applied, decode);
    A.ApplyStream(ws, sts, i, s);
    A.ApplyStream(ws, sts, i, t);
    A.RunsAgree(ws, sts, i);
    assert C.Comparable(C.DecidedLog(ws[i].servers[s]), C.DecidedLog(ws[i].servers[t]));
    if |x| <= |y| {
      SameCommands(ws[i].servers[s], ws[i].servers[t], decode);
      FoldPrefix(y, |x|);
    }
    if |x| == |y| {
      assert y[..|x|] == y;
    }
  }

  lemma SameCommands(p: R.Server, q: R.Server, decode: R.Command -> KVCommand)
    requires A.HandedDecided(p) && A.HandedDecided(q) && |p.applied| <= |q.applied|
    requires C.Comparable(C.DecidedLog(p), C.DecidedLog(q))
    ensures Commands(q.applied, decode)[..|p.applied|] == Commands(p.applied, decode)
  {
    forall k | 0 <= k < |p.applied| ensures q.applied[k].command == p.applied[k].command {
      assert p.applied[k].command == C.DecidedLog(p)[k];
      assert q.applied[k].command == C.DecidedLog(q)[k];
    }
  }
}
