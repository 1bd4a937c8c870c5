/** A run in which two servers decide different commands at the same position.  Its one
    departure from a guarded run is a `Reconnected` that finds the follower regarding
    another server as elected, so that it goes on accepting after a gap (step 7). */
module ReconnectRun {
  import opened Ballots
  import opened Replica
  import opened Cluster
  import opened Runs

  ghost predicate At0(w: World) {
    && |w.servers| == 3
    && V(w.servers[0]) == View(Follower, Preparing, ZERO, ZERO, [], 0)
    && V(w.servers[1]) == View(Follower, Preparing, ZERO, ZERO, [], 0)
    && Candidate(w.servers[0], 0)
    && Candidate(w.servers[1], 1)
    && w.net(0, 1) == [] && w.net(1, 0) == []
  }

  lemma Step0(w: World) returns (v: World)
    requires Reached(OnPromises, w) && At0(w)
    ensures Reached(OnPromises, v) && At1(v)
  {
    v := Elect(OnPromises, w, 1);
  }

  ghost predicate At1(w: World) {
    && |w.servers| == 3
    && V(w.servers[0]) == View(Follower, Preparing, ZERO, ZERO, [], 0)
    && V(w.servers[1]) == View(Leader, Preparing, R1, ZERO, [], 0)
    && Lead(w.servers[1], R1, map[1 := ZERO_PROMISE], ZERO_PROMISE, [0, 0, 0])
    && Candidate(w.servers[0], 0)
    && w.net(0, 1) == [] && w.net(1, 0) == [Prepare(R1, ZERO, 0, 0)]
  }

  lemma Step1(w: World) returns (v: World)
    requires Reached(OnPromises, w) && At1(w)
    ensures Reached(OnPromises, v) && At2(v)
  {
    v := Next(OnPromises, w, Deliver(1, 0, ZERO_PROMISE));
  }

  ghost predicate At2(w: World) {
    && |w.servers| == 3
    && V(w.servers[0]) == View(Follower, Preparing, R1, ZERO, [], 0)
    && V(w.servers[1]) == View(Leader, Preparing, R1, ZERO, [], 0)
    && Lead(w.servers[1], R1, map[1 := ZERO_PROMISE], ZERO_PROMISE, [0, 0, 0])
    && Candidate(w.servers[0], 0)
    && w.net(0, 1) == [Promise(R1, ZERO, 0, 0, [])] && w.net(1, 0) == []
  }

  lemma Step2(w: World) returns (v: World)
    requires Reached(OnPromises, w) && At2(w)
    ensures Reached(OnPromises, v) && At3(v)
  {
    var ps := map[0 := ZERO_PROMISE, 1 := ZERO_PROMISE];
    assert ps[1] == ZERO_PROMISE && ps.Keys == {0, 1} && |ps| == |ps.Keys|;
    assert w.servers[1].promises[0 := ZERO_PROMISE] == ps;
    v := Next(OnPromises, w, Deliver(0, 1, ZERO_PROMISE));
  }

  ghost predicate At3(w: World) {
    && |w.servers| == 3
    && V(w.servers[0]) == View(Follower, Preparing, R1, ZERO, [], 0)
    && V(w.servers[1]) == View(Leader, Accepting, R1, R1, [], 0)
    && Lead(w.servers[1], R1, map[0 := ZERO_PROMISE, 1 := ZERO_PROMISE], ZERO_PROMISE, [0, 0, 0])
    && Candidate(w.servers[0], 0)
    && w.net(1, 0) == [AcceptSync(R1, [], 0)]
  }

  lemma Step3(w: World) returns (v: World)
    requires Reached(OnPromises, w) && At3(w)
    ensures Reached(OnPromises, v) && At4(v)
  {
    v := Next(OnPromises, w, Deliver(1, 0, ZERO_PROMISE));
  }

  ghost predicate At4(w: World) {
    && |w.servers| == 3
    && V(w.servers[0]) == View(Follower, Accepting, R1, R1, [], 0)
    && V(w.servers[1]) == View(Leader, Accepting, R1, R1, [], 0)
    && Lead(w.servers[1], R1, map[0 := ZERO_PROMISE, 1 := ZERO_PROMISE], ZERO_PROMISE, [0, 0, 0])
    && Candidate(w.servers[0], 0)
  }

  lemma Step4(w: World) returns (v: World)
    requires Reached(OnPromises, w) && At4(w)
    ensures Reached(OnPromises, v) && At5(v)
  {
    v := Next(OnPromises, w, Propose(1, A));
  }

  ghost predicate At5(w: World) {
    && |w.servers| == 3
    && V(w.servers[0]) == View(Follower, Accepting, R1, R1, [], 0)
    && V(w.servers[1]) == View(Leader, Accepting, R1, R1, [A], 0)
    && Lead(w.servers[1], R1, map[0 := ZERO_PROMISE, 1 := ZERO_PROMISE], ZERO_PROMISE, [0, 1, 0])
    && Candidate(w.servers[0], 0)
  }

  lemma Step5(w: World) returns (v: World)
    requires Reached(OnPromises, w) && At5(w)
    ensures Reached(OnPromises, v) && At6(v)
  {
    ElectionEnabled(w, 0, R2, R2);
    v := Next(OnPromises, w, Election(0, R2, R2));
  }

  ghost predicate At6(w: World) {
    && |w.servers| == 3
    && V(w.servers[0]) == View(Follower, Accepting, R1, R1, [], 0)
    && V(w.servers[1]) == View(Leader, Accepting, R1, R1, [A], 0)
    && Lead(w.servers[1], R1, map[0 := ZERO_PROMISE, 1 := ZERO_PROMISE], ZERO_PROMISE, [0, 1, 0])
    && w.servers[0].os.l == R2
  }

  lemma Step6(w: World) returns (v: World)
    requires Reached(OnPromises, w) && At6(w)
    ensures Reached(OnPromises, v) && At7(v)
  {
    v := Next(OnPromises, w, DropSession(1, 0, 0));
  }

  ghost predicate At7(w: World) {
    && |w.servers| == 3
    && V(w.servers[0]) == View(Follower, Accepting, R1, R1, [], 0)
    && V(w.servers[1]) == View(Leader, Accepting, R1, R1, [A], 0)
    && Lead(w.servers[1], R1, map[0 := ZERO_PROMISE, 1 := ZERO_PROMISE], ZERO_PROMISE, [0, 1, 0])
    && w.servers[0].os.l == R2
    && w.net(1, 0) == [Reconnected]
  }

  lemma Step7(w: World) returns (v: World)
    requires Reached(OnPromises, w) && At7(w)
    ensures Reached(OnPromises, v) && At8(v)
  {
    v := Next(OnPromises, w, Deliver(1, 0, ZERO_PROMISE));
  }

  ghost predicate At8(w: World) {
    && |w.servers| == 3
    && V(w.servers[0]) == View(Follower, Accepting, R1, R1, [], 0)
    && V(w.servers[1]) == View(Leader, Accepting, R1, R1, [A], 0)
    && Lead(w.servers[1], R1, map[0 := ZERO_PROMISE, 1 := ZERO_PROMISE], ZERO_PROMISE, [0, 1, 0])
    && w.net(1, 0) == []
  }

  lemma Step8(w: World) returns (v: World)
    requires Reached(OnPromises, w) && At8(w)
    ensures Reached(OnPromises, v) && At9(v)
  {
    v := Next(OnPromises, w, DropSession(0, 1, 0));
  }

  ghost predicate At9(w: World) {
    && |w.servers| == 3
    && V(w.servers[0]) == View(Follower, Accepting, R1, R1, [], 0)
    && V(w.servers[1]) == View(Leader, Accepting, R1, R1, [A], 0)
    && Lead(w.servers[1], R1, map[0 := ZERO_PROMISE, 1 := ZERO_PROMISE], ZERO_PROMISE, [0, 1, 0])
    && w.net(0, 1) == [] && w.net(1, 0) == []
  }

  lemma Step9(w: World) returns (v: World)
    requires Reached(OnPromises, w) && At9(w)
    ensures Reached(OnPromises, v) && At10(v)
  {
    v := Next(OnPromises, w, Propose(1, B));
  }

  ghost predicate At10(w: World) {
    && |w.servers| == 3
    && V(w.servers[0]) == View(Follower, Accepting, R1, R1, [], 0)
    && V(w.servers[1]) == View(Leader, Accepting, R1, R1, [A, B], 0)
    && Lead(w.servers[1], R1, map[0 := ZERO_PROMISE, 1 := ZERO_PROMISE], ZERO_PROMISE, [0, 2, 0])
    && w.net(0, 1) == [] && w.net(1, 0) == [Accept(R1, 2, B)]
  }

  lemma Step10(w: World) returns (v: World)
    requires Reached(OnPromises, w) && At10(w)
    ensures Reached(OnPromises, v) && At11(v)
  {
    v := Next(OnPromises, w, Deliver(1, 0, ZERO_PROMISE));
  }

  ghost predicate At11(w: World) {
    && |w.servers| == 3
    && V(w.servers[0]) == View(Follower, Accepting, R1, R1, [B], 0)
    && V(w.servers[1]) == View(Leader, Accepting, R1, R1, [A, B], 0)
    && Lead(w.servers[1], R1, map[0 := ZERO_PROMISE, 1 := ZERO_PROMISE], ZERO_PROMISE, [0, 2, 0])
    && w.net(0, 1) == [Accepted(R1, 1)] && w.net(1, 0) == []
  }

  lemma Step11(w: World) returns (v: World)
    requires Reached(OnPromises, w) && At11(w)
    ensures Reached(OnPromises, v) && At12(v)
  {
    assert SetAt(w.servers[1].acceptedIdx, 0, 1) == [1, 2, 0];
    Decides(1, w.servers[1], 0, 1, 1, 2, 0);
    v := Next(OnPromises, w, Deliver(0, 1, ZERO_PROMISE));
  }

  ghost predicate At12(w: World) {
    && |w.servers| == 3
    && V(w.servers[0]) == View(Follower, Accepting, R1, R1, [B], 0)
    && V(w.servers[1]) == View(Leader, Accepting, R1, R1, [A, B], 1)
    && w.net(1, 0) == [Decide(R1, 1)]
  }

  lemma Step12(w: World) returns (v: World)
    requires Reached(OnPromises, w) && At12(w)
    ensures Reached(OnPromises, v) && At13(v)
  {
    v := Next(OnPromises, w, Deliver(1, 0, ZERO_PROMISE));
  }

  ghost predicate At13(w: World) {
    && |w.servers| == 3
    && V(w.servers[0]) == View(Follower, Accepting, R1, R1, [B], 1)
    && V(w.servers[1]) == View(Leader, Accepting, R1, R1, [A, B], 1)
  }

  lemma Run0To5(w: World) returns (v: World)
    requires Reached(OnPromises, w) && At0(w)
    ensures Reached(OnPromises, v) && At5(v)
  {
    v := w;
    v := Step0(v);
    v := Step1(v);
    v := Step2(v);
    v := Step3(v);
    v := Step4(v);
  }

  lemma Run5To10(w: World) returns (v: World)
    requires Reached(OnPromises, w) && At5(w)
    ensures Reached(OnPromises, v) && At10(v)
  {
    v := w;
    v := Step5(v);
    v := Step6(v);
    v := Step7(v);
    v := Step8(v);
    v := Step9(v);
  }

  lemma Run10To13(w: World) returns (v: World)
    requires Reached(OnPromises, w) && At10(w)
    ensures Reached(OnPromises, v) && At13(v)
  {
    v := w;
    v := Step10(v);
    v := Step11(v);
    v := Step12(v);
  }

  lemma Begin() returns (w: World)
    ensures Reached(OnPromises, w) && At0(w)
  {
    w := StartExists();
  }

  lemma End(w: World)
    requires At13(w)
    ensures !Agree(w)
  {
    var x, y := w.servers[0], w.servers[1];
    assert DecidedLog(x)[0] == B && DecidedLog(y)[0] == A;
    assert !Comparable(DecidedLog(x), DecidedLog(y));
  }

  /** Without the condition on reconnections agreement fails. */
  lemma ReconnectBreaksAgreement() returns (ws: seq<World>, sts: seq<Step>)
    ensures IsRunKeeping(OnPromises, ws, sts) && !Agree(ws[|sts|])
  {
    var w := Begin();
    w := Run0To5(w);
    w := Run5To10(w);
    w := Run10To13(w);
    End(w);
    ws, sts :| IsRunKeeping(OnPromises, ws, sts) && ws[|sts|] == w;
  }
}
