/** A run in which two servers decide different commands at the same position.  Its one
    departure from a guarded run is a promise that reaches a leader late and comes from a
    follower with a shorter log than the promise the leader adopted (step 14). */
module LatePromiseRun {
  import opened Ballots
  import opened Replica
  import opened Cluster
  import opened Runs

  ghost predicate At0(w: World) {
    && |w.servers| == 3
    && V(w.servers[0]) == View(Follower, Preparing, ZERO, ZERO, [], 0)
    && V(w.servers[1]) == View(Follower, Preparing, ZERO, ZERO, [], 0)
    && V(w.servers[2]) == View(Follower, Preparing, ZERO, ZERO, [], 0)
    && Candidate(w.servers[1], 1)
    && Candidate(w.servers[2], 2)
    && w.net(0, 1) == [] && w.net(0, 2) == [] && w.net(1, 0) == [] && w.net(1, 2) == []
    && w.net(2, 0) == [] && w.net(2, 1) == []
  }

  lemma Step0(w: World) returns (v: World)
    requires Reached(OnReconnects, w) && At0(w)
    ensures Reached(OnReconnects, v) && At1(v)
  {
    v := Elect(OnReconnects, w, 1);
  }

  ghost predicate At1(w: World) {
    && |w.servers| == 3
    && V(w.servers[0]) == View(Follower, Preparing, ZERO, ZERO, [], 0)
    && V(w.servers[1]) == View(Leader, Preparing, R1, ZERO, [], 0)
    && V(w.servers[2]) == View(Follower, Preparing, ZERO, ZERO, [], 0)
    && Lead(w.servers[1], R1, map[1 := ZERO_PROMISE], ZERO_PROMISE, [0, 0, 0])
    && Candidate(w.servers[2], 2)
    && w.net(0, 1) == [] && w.net(0, 2) == [] && w.net(1, 0) == [Prepare(R1, ZERO, 0, 0)]
    && w.net(1, 2) == [Prepare(R1, ZERO, 0, 0)] && w.net(2, 0) == [] && w.net(2, 1) == []
  }

  lemma Step1(w: World) returns (v: World)
    requires Reached(OnReconnects, w) && At1(w)
    ensures Reached(OnReconnects, v) && At2(v)
  {
    v := Next(OnReconnects, w, Deliver(1, 2, ZERO_PROMISE));
  }

  ghost predicate At2(w: World) {
    && |w.servers| == 3
    && V(w.servers[0]) == View(Follower, Preparing, ZERO, ZERO, [], 0)
    && V(w.servers[1]) == View(Leader, Preparing, R1, ZERO, [], 0)
    && V(w.servers[2]) == View(Follower, Preparing, R1, ZERO, [], 0)
    && Lead(w.servers[1], R1, map[1 := ZERO_PROMISE], ZERO_PROMISE, [0, 0, 0])
    && Candidate(w.servers[2], 2)
    && w.net(0, 1) == [] && w.net(0, 2) == [] && w.net(1, 0) == [Prepare(R1, ZERO, 0, 0)]
    && w.net(1, 2) == [] && w.net(2, 0) == [] && w.net(2, 1) == [Promise(R1, ZERO, 0, 0, [])]
  }

  lemma Step2(w: World) returns (v: World)
    requires Reached(OnReconnects, w) && At2(w)
    ensures Reached(OnReconnects, v) && At3(v)
  {
    var ps := map[1 := ZERO_PROMISE, 2 := ZERO_PROMISE];
    assert ps[1] == ZERO_PROMISE && ps.Keys == {1, 2} && |ps| == |ps.Keys|;
    assert w.servers[1].promises[2 := ZERO_PROMISE] == ps;
    v := Next(OnReconnects, w, Deliver(2, 1, ZERO_PROMISE));
  }

  ghost predicate At3(w: World) {
    && |w.servers| == 3
    && V(w.servers[0]) == View(Follower, Preparing, ZERO, ZERO, [], 0)
    && V(w.servers[1]) == View(Leader, Accepting, R1, R1, [], 0)
    && V(w.servers[2]) == View(Follower, Preparing, R1, ZERO, [], 0)
    && Lead(w.servers[1], R1, map[1 := ZERO_PROMISE, 2 := ZERO_PROMISE], ZERO_PROMISE, [0, 0, 0])
    && Candidate(w.servers[2], 2)
    && w.net(0, 1) == [] && w.net(0, 2) == [] && w.net(1, 0) == [Prepare(R1, ZERO, 0, 0)]
    && w.net(1, 2) == [AcceptSync(R1, [], 0)] && w.net(2, 0) == []
  }

  lemma Step3(w: World) returns (v: World)
    requires Reached(OnReconnects, w) && At3(w)
    ensures Reached(OnReconnects, v) && At4(v)
  {
    v := Next(OnReconnects, w, Deliver(1, 0, ZERO_PROMISE));
  }

  ghost predicate At4(w: World) {
    && |w.servers| == 3
    && V(w.servers[0]) == View(Follower, Preparing, R1, ZERO, [], 0)
    && V(w.servers[1]) == View(Leader, Accepting, R1, R1, [], 0)
    && V(w.servers[2]) == View(Follower, Preparing, R1, ZERO, [], 0)
    && Lead(w.servers[1], R1, map[1 := ZERO_PROMISE, 2 := ZERO_PROMISE], ZERO_PROMISE, [0, 0, 0])
    && Candidate(w.servers[2], 2)
    && w.net(0, 1) == [Promise(R1, ZERO, 0, 0, [])] && w.net(0, 2) == [] && w.net(1, 0) == []
    && w.net(1, 2) == [AcceptSync(R1, [], 0)] && w.net(2, 0) == []
  }

  lemma Step4(w: World) returns (v: World)
    requires Reached(OnReconnects, w) && At4(w)
    ensures Reached(OnReconnects, v) && At5(v)
  {
    var ps := map[0 := ZERO_PROMISE, 1 := ZERO_PROMISE, 2 := ZERO_PROMISE];
    assert ps[1] == ZERO_PROMISE && ps.Keys == {0, 1, 2} && |ps| == |ps.Keys|;
    assert w.servers[1].promises[0 := ZERO_PROMISE] == ps;
    v := Next(OnReconnects, w, Deliver(0, 1, ZERO_PROMISE));
  }

  ghost predicate At5(w: World) {
    && |w.servers| == 3
    && V(w.servers[0]) == View(Follower, Preparing, R1, ZERO, [], 0)
    && V(w.servers[1]) == View(Leader, Accepting, R1, R1, [], 0)
    && V(w.servers[2]) == View(Follower, Preparing, R1, ZERO, [], 0)
    && Lead(w.servers[1], R1, map[0 := ZERO_PROMISE, 1 := ZERO_PROMISE, 2 := ZERO_PROMISE], ZERO_PROMISE, [0, 0, 0])
    && Candidate(w.servers[2], 2)
    && w.net(0, 2) == [] && w.net(1, 0) == [AcceptSync(R1, [], 0)]
    && w.net(1, 2) == [AcceptSync(R1, [], 0)] && w.net(2, 0) == []
  }

  lemma Step5(w: World) returns (v: World)
    requires Reached(OnReconnects, w) && At5(w)
    ensures Reached(OnReconnects, v) && At6(v)
  {
    v := Next(OnReconnects, w, Deliver(1, 2, ZERO_PROMISE));
  }

  ghost predicate At6(w: World) {
    && |w.servers| == 3
    && V(w.servers[0]) == View(Follower, Preparing, R1, ZERO, [], 0)
    && V(w.servers[1]) == View(Leader, Accepting, R1, R1, [], 0)
    && V(w.servers[2]) == View(Follower, Accepting, R1, R1, [], 0)
    && Lead(w.servers[1], R1, map[0 := ZERO_PROMISE, 1 := ZERO_PROMISE, 2 := ZERO_PROMISE], ZERO_PROMISE, [0, 0, 0])
    && Candidate(w.servers[2], 2)
    && w.net(0, 2) == [] && w.net(1, 0) == [AcceptSync(R1, [], 0)] && w.net(1, 2) == []
    && w.net(2, 0) == []
  }

  lemma Step6(w: World) returns (v: World)
    requires Reached(OnReconnects, w) && At6(w)
    ensures Reached(OnReconnects, v) && At7(v)
  {
    v := Next(OnReconnects, w, Deliver(1, 0, ZERO_PROMISE));
  }

  ghost predicate At7(w: World) {
    && |w.servers| == 3
    && V(w.servers[0]) == View(Follower, Accepting, R1, R1, [], 0)
    && V(w.servers[1]) == View(Leader, Accepting, R1, R1, [], 0)
    && V(w.servers[2]) == View(Follower, Accepting, R1, R1, [], 0)
    && Lead(w.servers[1], R1, map[0 := ZERO_PROMISE, 1 := ZERO_PROMISE, 2 := ZERO_PROMISE], ZERO_PROMISE, [0, 0, 0])
    && Candidate(w.servers[2], 2)
    && w.net(0, 2) == [] && w.net(1, 2) == [] && w.net(2, 0) == []
  }

  lemma Step7(w: World) returns (v: World)
    requires Reached(OnReconnects, w) && At7(w)
    ensures Reached(OnReconnects, v) && At8(v)
  {
    v := Next(OnReconnects, w, Propose(1, A));
  }

  ghost predicate At8(w: World) {
    && |w.servers| == 3
    && V(w.servers[0]) == View(Follower, Accepting, R1, R1, [], 0)
    && V(w.servers[1]) == View(Leader, Accepting, R1, R1, [A], 0)
    && V(w.servers[2]) == View(Follower, Accepting, R1, R1, [], 0)
    && Candidate(w.servers[2], 2)
    && w.net(0, 2) == [] && w.net(1, 2) == [Accept(R1, 1, A)] && w.net(2, 0) == []
  }

  lemma Step8(w: World) returns (v: World)
    requires Reached(OnReconnects, w) && At8(w)
    ensures Reached(OnReconnects, v) && At9(v)
  {
    v := Next(OnReconnects, w, Deliver(1, 2, ZERO_PROMISE));
  }

  ghost predicate At9(w: World) {
    && |w.servers| == 3
    && V(w.servers[0]) == View(Follower, Accepting, R1, R1, [], 0)
    && V(w.servers[1]) == View(Leader, Accepting, R1, R1, [A], 0)
    && V(w.servers[2]) == View(Follower, Accepting, R1, R1, [A], 0)
    && Candidate(w.servers[2], 2)
    && w.net(0, 2) == [] && w.net(1, 2) == [] && w.net(2, 0) == []
  }

  lemma Step9(w: World) returns (v: World)
    requires Reached(OnReconnects, w) && At9(w)
    ensures Reached(OnReconnects, v) && At10(v)
  {
    v := Next(OnReconnects, w, DropSession(2, 1, 0));
  }

  ghost predicate At10(w: World) {
    && |w.servers| == 3
    && V(w.servers[0]) == View(Follower, Accepting, R1, R1, [], 0)
    && V(w.servers[1]) == View(Leader, Accepting, R1, R1, [A], 0)
    && V(w.servers[2]) == View(Follower, Accepting, R1, R1, [A], 0)
    && Candidate(w.servers[2], 2)
    && w.net(0, 2) == [] && w.net(1, 2) == [] && w.net(2, 0) == [] && w.net(2, 1) == []
  }

  lemma Step10(w: World) returns (v: World)
    requires Reached(OnReconnects, w) && At10(w)
    ensures Reached(OnReconnects, v) && At11(v)
  {
    assert Suffix([A], 0) == [A];
    v := Elect(OnReconnects, w, 2);
  }

  ghost predicate At11(w: World) {
    && |w.servers| == 3
    && V(w.servers[0]) == View(Follower, Accepting, R1, R1, [], 0)
    && V(w.servers[1]) == View(Leader, Accepting, R1, R1, [A], 0)
    && V(w.servers[2]) == View(Leader, Preparing, R2, R1, [A], 0)
    && Lead(w.servers[2], R2, map[2 := Promised(R1, 1, 0, [A])], ZERO_PROMISE, [0, 0, 0])
    && w.net(0, 2) == [] && w.net(1, 2) == [] && w.net(2, 0) == [Prepare(R2, R1, 1, 0)]
    && w.net(2, 1) == [Prepare(R2, R1, 1, 0)]
  }

  lemma Step11(w: World) returns (v: World)
    requires Reached(OnReconnects, w) && At11(w)
    ensures Reached(OnReconnects, v) && At12(v)
  {
    v := Next(OnReconnects, w, Deliver(2, 1, ZERO_PROMISE));
  }

  ghost predicate At12(w: World) {
    && |w.servers| == 3
    && V(w.servers[0]) == View(Follower, Accepting, R1, R1, [], 0)
    && V(w.servers[2]) == View(Leader, Preparing, R2, R1, [A], 0)
    && Lead(w.servers[2], R2, map[2 := Promised(R1, 1, 0, [A])], ZERO_PROMISE, [0, 0, 0])
    && w.net(0, 2) == [] && w.net(1, 2) == [Promise(R2, R1, 1, 0, [])]
    && w.net(2, 0) == [Prepare(R2, R1, 1, 0)]
  }

  lemma Step12(w: World) returns (v: World)
    requires Reached(OnReconnects, w) && At12(w)
    ensures Reached(OnReconnects, v) && At13(v)
  {
    var ps := map[1 := Promised(R1, 1, 0, []), 2 := Promised(R1, 1, 0, [A])];
    assert ps[1] == Promised(R1, 1, 0, []) && ps.Keys == {1, 2} && |ps| == |ps.Keys|;
    assert w.servers[2].promises[1 := Promised(R1, 1, 0, [])] == ps;
    v := Next(OnReconnects, w, Deliver(1, 2, Promised(R1, 1, 0, [])));
  }

  ghost predicate At13(w: World) {
    && |w.servers| == 3
    && V(w.servers[0]) == View(Follower, Accepting, R1, R1, [], 0)
    && V(w.servers[2]) == View(Leader, Accepting, R2, R2, [A], 0)
    && Lead(w.servers[2], R2, map[1 := Promised(R1, 1, 0, []), 2 := Promised(R1, 1, 0, [A])], Promised(R1, 1, 0, []), [0, 0, 1])
    && w.net(0, 2) == [] && w.net(2, 0) == [Prepare(R2, R1, 1, 0)]
  }

  lemma Step13(w: World) returns (v: World)
    requires Reached(OnReconnects, w) && At13(w)
    ensures Reached(OnReconnects, v) && At14(v)
  {
    v := Next(OnReconnects, w, Deliver(2, 0, ZERO_PROMISE));
  }

  ghost predicate At14(w: World) {
    && |w.servers| == 3
    && V(w.servers[0]) == View(Follower, Preparing, R2, R1, [], 0)
    && V(w.servers[2]) == View(Leader, Accepting, R2, R2, [A], 0)
    && Lead(w.servers[2], R2, map[1 := Promised(R1, 1, 0, []), 2 := Promised(R1, 1, 0, [A])], Promised(R1, 1, 0, []), [0, 0, 1])
    && w.net(0, 2) == [Promise(R2, R1, 0, 0, [])] && w.net(2, 0) == []
  }

  lemma Step14(w: World) returns (v: World)
    requires Reached(OnReconnects, w) && At14(w)
    ensures Reached(OnReconnects, v) && At15(v)
  {
    var ps := map[0 := Promised(R1, 0, 0, []), 1 := Promised(R1, 1, 0, []), 2 := Promised(R1, 1, 0, [A])];
    assert ps[1] == Promised(R1, 1, 0, []) && ps.Keys == {0, 1, 2} && |ps| == |ps.Keys|;
    assert w.servers[2].promises[0 := Promised(R1, 0, 0, [])] == ps;
    assert Suffix([A], 1) == [];
    SentLate(WithPromise(w.servers[2], 0, Promised(R1, 0, 0, [])), 0, R1, 0);
    v := Next(OnReconnects, w, Deliver(0, 2, Promised(R1, 1, 0, [])));
  }

  ghost predicate At15(w: World) {
    && |w.servers| == 3
    && V(w.servers[0]) == View(Follower, Preparing, R2, R1, [], 0)
    && V(w.servers[2]) == View(Leader, Accepting, R2, R2, [A], 0)
    && Lead(w.servers[2], R2, map[0 := Promised(R1, 0, 0, []), 1 := Promised(R1, 1, 0, []), 2 := Promised(R1, 1, 0, [A])], Promised(R1, 1, 0, []), [0, 0, 1])
    && w.net(0, 2) == [] && w.net(2, 0) == [AcceptSync(R2, [], 1)]
  }

  lemma Step15(w: World) returns (v: World)
    requires Reached(OnReconnects, w) && At15(w)
    ensures Reached(OnReconnects, v) && At16(v)
  {
    v := Next(OnReconnects, w, Deliver(2, 0, ZERO_PROMISE));
  }

  ghost predicate At16(w: World) {
    && |w.servers| == 3
    && V(w.servers[0]) == View(Follower, Accepting, R2, R2, [], 0)
    && V(w.servers[2]) == View(Leader, Accepting, R2, R2, [A], 0)
    && Lead(w.servers[2], R2, map[0 := Promised(R1, 0, 0, []), 1 := Promised(R1, 1, 0, []), 2 := Promised(R1, 1, 0, [A])], Promised(R1, 1, 0, []), [0, 0, 1])
    && w.net(0, 2) == [Accepted(R2, 0)] && w.net(2, 0) == []
  }

  lemma Step16(w: World) returns (v: World)
    requires Reached(OnReconnects, w) && At16(w)
    ensures Reached(OnReconnects, v) && At17(v)
  {
    v := Next(OnReconnects, w, Propose(2, B));
  }

  ghost predicate At17(w: World) {
    && |w.servers| == 3
    && V(w.servers[0]) == View(Follower, Accepting, R2, R2, [], 0)
    && V(w.servers[2]) == View(Leader, Accepting, R2, R2, [A, B], 0)
    && Lead(w.servers[2], R2, map[0 := Promised(R1, 0, 0, []), 1 := Promised(R1, 1, 0, []), 2 := Promised(R1, 1, 0, [A])], Promised(R1, 1, 0, []), [0, 0, 2])
    && w.net(0, 2) == [Accepted(R2, 0)] && w.net(2, 0) == [Accept(R2, 2, B)]
  }

  lemma Step17(w: World) returns (v: World)
    requires Reached(OnReconnects, w) && At17(w)
    ensures Reached(OnReconnects, v) && At18(v)
  {
    v := Next(OnReconnects, w, Deliver(2, 0, ZERO_PROMISE));
  }

  ghost predicate At18(w: World) {
    && |w.servers| == 3
    && V(w.servers[0]) == View(Follower, Accepting, R2, R2, [B], 0)
    && V(w.servers[2]) == View(Leader, Accepting, R2, R2, [A, B], 0)
    && Lead(w.servers[2], R2, map[0 := Promised(R1, 0, 0, []), 1 := Promised(R1, 1, 0, []), 2 := Promised(R1, 1, 0, [A])], Promised(R1, 1, 0, []), [0, 0, 2])
    && w.net(0, 2) == [Accepted(R2, 0), Accepted(R2, 1)] && w.net(2, 0) == []
  }

  lemma Step18(w: World) returns (v: World)
    requires Reached(OnReconnects, w) && At18(w)
    ensures Reached(OnReconnects, v) && At19(v)
  {
    assert SetAt(w.servers[2].acceptedIdx, 0, 0) == [0, 0, 2];
    v := Next(OnReconnects, w, Deliver(0, 2, ZERO_PROMISE));
  }

  ghost predicate At19(w: World) {
    && |w.servers| == 3
    && V(w.servers[0]) == View(Follower, Accepting, R2, R2, [B], 0)
    && V(w.servers[2]) == View(Leader, Accepting, R2, R2, [A, B], 0)
    && Lead(w.servers[2], R2, map[0 := Promised(R1, 0, 0, []), 1 := Promised(R1, 1, 0, []), 2 := Promised(R1, 1, 0, [A])], Promised(R1, 1, 0, []), [0, 0, 2])
    && w.net(0, 2) == [Accepted(R2, 1)] && w.net(2, 0) == []
  }

  lemma Step19(w: World) returns (v: World)
    requires Reached(OnReconnects, w) && At19(w)
    ensures Reached(OnReconnects, v) && At20(v)
  {
    assert SetAt(w.servers[2].acceptedIdx, 0, 1) == [1, 0, 2];
    Decides(2, w.servers[2], 0, 1, 1, 0, 2);
    v := Next(OnReconnects, w, Deliver(0, 2, ZERO_PROMISE));
  }

  ghost predicate At20(w: World) {
    && |w.servers| == 3
    && V(w.servers[0]) == View(Follower, Accepting, R2, R2, [B], 0)
    && V(w.servers[2]) == View(Leader, Accepting, R2, R2, [A, B], 1)
    && w.net(2, 0) == [Decide(R2, 1)]
  }

  lemma Step20(w: World) returns (v: World)
    requires Reached(OnReconnects, w) && At20(w)
    ensures Reached(OnReconnects, v) && At21(v)
  {
    v := Next(OnReconnects, w, Deliver(2, 0, ZERO_PROMISE));
  }

  ghost predicate At21(w: World) {
    && |w.servers| == 3
    && V(w.servers[0]) == View(Follower, Accepting, R2, R2, [B], 1)
    && V(w.servers[2]) == View(Leader, Accepting, R2, R2, [A, B], 1)
  }

  lemma Run0To5(w: World) returns (v: World)
    requires Reached(OnReconnects, w) && At0(w)
    ensures Reached(OnReconnects, v) && At5(v)
  {
    v := w;
    v := Step0(v);
    v := Step1(v);
    v := Step2(v);
    v := Step3(v);
    v := Step4(v);
  }

  lemma Run5To10(w: World) returns (v: World)
    requires Reached(OnReconnects, w) && At5(w)
    ensures Reached(OnReconnects, v) && At10(v)
  {
    v := w;
    v := Step5(v);
    v := Step6(v);
    v := Step7(v);
    v := Step8(v);
    v := Step9(v);
  }

  lemma Run10To15(w: World) returns (v: World)
    requires Reached(OnReconnects, w) && At10(w)
    ensures Reached(OnReconnects, v) && At15(v)
  {
    v := w;
    v := Step10(v);
    v := Step11(v);
    v := Step12(v);
    v := Step13(v);
    v := Step14(v);
  }

  lemma Run15To20(w: World) returns (v: World)
    requires Reached(OnReconnects, w) && At15(w)
    ensures Reached(OnReconnects, v) && At20(v)
  {
    v := w;
    v := Step15(v);
    v := Step16(v);
    v := Step17(v);
    v := Step18(v);
    v := Step19(v);
  }

  lemma Run20To21(w: World) returns (v: World)
    requires Reached(OnReconnects, w) && At20(w)
    ensures Reached(OnReconnects, v) && At21(v)
  {
    v := w;
    v := Step20(v);
  }

  lemma Begin() returns (w: World)
    ensures Reached(OnReconnects, w) && At0(w)
  {
    w := StartExists();
  }

  lemma End(w: World)
    requires At21(w)
    ensures !Agree(w)
  {
    var x, y := w.servers[0], w.servers[2];
    assert DecidedLog(x)[0] == B && DecidedLog(y)[0] == A;
    assert !Comparable(DecidedLog(x), DecidedLog(y));
  }

  /** Without the condition on late promises agreement fails. */
  lemma LatePromiseBreaksAgreement() returns (ws: seq<World>, sts: seq<Step>)
    ensures IsRunKeeping(OnReconnects, ws, sts) && !Agree(ws[|sts|])
  {
    var w := Begin();
    w := Run0To5(w);
    w := Run5To10(w);
    w := Run10To15(w);
    w := Run15To20(w);
    w := Run20To21(w);
    End(w);
    ws, sts :| IsRunKeeping(OnReconnects, ws, sts) && ws[|sts|] == w;
  }
}
