/** What an acyclic loop can run into: a failure read too early, an order lost in the second round,
    an abort in the third. */
module LoopRounds {
  import opened ActionGraph
  import opened ActionStatus
  import opened LoopSchedule
  import opened LoopRaces
  import opened LoopRuns

  // ---- A failure read too early -------------------------------------------------------

  lemma SinkPath(g: Graph, q: seq<nat>)
    requires Path(g, q) && IsLeaf(g, q[|q| - 1])
    ensures Path(Augmented(g), q + [|g|])
  {
    var all := q + [|g|];
    forall k | 0 <= k < |all| - 1
      ensures Edge(Augmented(g), all[k], all[k + 1])
    {
      AugmentedEdge(g, all[k], all[k + 1]);
      if k < |q| - 1 {
        assert Edge(g, q[k], q[k + 1]);
      }
    }
  }

  /** The first action of the path fails after everything its success would need has succeeded. */
  lemma FailFirst(p: LoopPlan, rank: seq<nat>, i: nat, t: nat) returns (s: State, errs: set<nat>, owing: set<nat>)
    requires Ranks(Augmented(p.graph), rank) && p.workers > 0 && i < |rank|
    requires (t == 0 && i in p.mayError) || (t == 1 && i in p.mayThrow)
    ensures Reachable(p, s) && RoundZero(p, s, Lower(rank, rank[i], 0), errs, owing)
    ensures errs + owing == {i} && |owing| <= t
  {
    hide Reachable, Augmented;
    s := RunLower(p, rank, rank[i]);
    forall d | d in s.graph[i]
      ensures d in Lower(rank, rank[i], 0)
    {
      assert Edge(s.graph, d, i);
    }
    if t == 0 {
      s := ZeroError(p, s, Lower(rank, rank[i], 0), {}, {}, i);
      errs, owing := {i}, {};
      assert {} + {i} == {i};
    } else {
      s := ZeroThrow(p, s, Lower(rank, rank[i], 0), {}, {}, i);
      errs, owing := {}, {i};
      assert {} + {i} == {i};
    }
  }

  lemma ZeroShape(p: LoopPlan, s: State, done: set<nat>, errs: set<nat>, owing: set<nat>)
    requires RoundZero(p, s, done, errs, owing)
    ensures s.graph == Augmented(p.graph)
  {
  }

  /** The failure has travelled as far as `q[k]`, and all behind the first are between their two writes. */
  ghost predicate Travelled(rank: seq<nat>, q: seq<nat>, k: nat, t: nat,
                            done: set<nat>, errs: set<nat>, owing: set<nat>)
    requires k < |q| && forall j :: 0 <= j < |q| ==> q[j] < |rank|
  {
    && (forall x :: x in done ==> x < |rank| && rank[x] < rank[q[0]])
    && (forall x :: x in errs + owing ==> x < |rank| && rank[q[0]] <= rank[x] <= rank[q[k]])
    && errs <= {q[0]} && q[0] in errs + owing && q[k] in errs + owing
    && |owing| <= k + t
    && (k > 0 ==> q[k] in owing && rank[q[0]] < rank[q[k]])
  }

  lemma TravelOn(p: LoopPlan, rank: seq<nat>, q: seq<nat>, k: nat, t: nat, s: State,
                 done: set<nat>, errs: set<nat>, owing: set<nat>)
    returns (s': State)
    requires Ranks(Augmented(p.graph), rank) && k + 1 < |q| && forall j :: 0 <= j < |q| ==> q[j] < |rank|
    requires Edge(Augmented(p.graph), q[k], q[k + 1]) && k + t < p.workers
    requires Reachable(p, s) && RoundZero(p, s, done, errs, owing) && Travelled(rank, q, k, t, done, errs, owing)
    ensures Reachable(p, s') && RoundZero(p, s', done, errs, owing + {q[k + 1]})
    ensures Travelled(rank, q, k + 1, t, done, errs, owing + {q[k + 1]})
  {
    hide Reachable, RoundZero, Augmented;
    ZeroShape(p, s, done, errs, owing);
    s' := ZeroFail(p, s, done, errs, owing, q[k + 1], q[k]);
  }

  /** The failure travels along the path, and no continuation on it gets to its second write. */
  lemma FailAlong(p: LoopPlan, rank: seq<nat>, q: seq<nat>, t: nat)
    returns (s: State, done: set<nat>, errs: set<nat>, owing: set<nat>)
    requires Ranks(Augmented(p.graph), rank) && Path(Augmented(p.graph), q) && |q| > 1
    requires (t == 0 && q[0] in p.mayError) || (t == 1 && q[0] in p.mayThrow)
    requires |q| - 2 + t < p.workers
    ensures Reachable(p, s) && RoundZero(p, s, done, errs, owing) && q[|q| - 1] in owing && q[|q| - 1] !in done + errs
    ensures q[0] in errs + owing && q[0] !in done
  {
    hide Reachable, RoundZero, Augmented;
    PathRises(Augmented(p.graph), rank, q);
    done := Lower(rank, rank[q[0]], 0);
    s, errs, owing := FailFirst(p, rank, q[0], t);
    var k := 0;
    while k + 1 < |q|
      invariant 0 <= k < |q| && Reachable(p, s) && RoundZero(p, s, done, errs, owing)
      invariant Travelled(rank, q, k, t, done, errs, owing)
    {
      assert Edge(Augmented(p.graph), q[k], q[k + 1]);
      s := TravelOn(p, rank, q, k, t, s, done, errs, owing);
      owing := owing + {q[k + 1]};
      k := k + 1;
    }
  }

  /** With a racing path there is a run in which the wait on End returns between the two writes of its
      failing continuation, so that the main thread still reads OK. */
  lemma FailureReadTooEarly(p: LoopPlan) returns (s: State)
    requires ValidLoop(p) && MayRace(p)
    ensures Reachable(p, s) && s.raced && s.main == AtTop
    ensures |s.conts| == 1 && |s.graph| == |p.graph| + 2
    ensures exists i: nat :: i < |p.graph| && i < |s.cells| && s.cells[i].status == FAILED
  {
    hide Reachable;
    var q: seq<nat> :| RacingPath(p, q);
    var rank0 :| Ranks(p.graph, rank0);
    var rank := AugmentedRanks(p.graph, rank0);
    SinkPath(p.graph, q);
    var t := if q[0] in p.mayError && |q| <= p.workers then 0 else 1;
    var s0, done, errs, owing := FailAlong(p, rank, q + [|p.graph|], t);
    s := Apply(p, s0, Wake);
    ReachableStep(p, s0, Wake, s);
    assert s.cells[q[0]] == BAD_0;
  }

  // ---- The second round, one action at a time ---------------------------------------------

  ghost predicate SucceededIn(c: Cell, r: nat) {
    c.status == SUCCEEDED && c.promises != [] && Current(c) == Value && c.okRound == r
  }

  /** The second round of the first call: the first `j` actions have been attached and have run, one
      after the other. */
  ghost predicate RoundOne(p: LoopPlan, s: State, j: nat) {
    && s.graph == Augmented(p.graph) && |s.cells| == |s.graph|
    && |s.conts| == 2 && |s.conts[0]| == |s.graph| && |s.conts[1]| == j <= |s.graph|
    && s.main == InRound && s.errors == {} && !s.raced && !s.crashed
    && (forall r, i :: 0 <= r < 2 && 0 <= i < |s.conts[r]| ==> s.conts[r][i].phase == Done)
    && (forall i: nat :: i < |s.graph| ==> SucceededIn(s.cells[i], if i < j then 1 else 0))
  }

  lemma SecondRound(p: LoopPlan) returns (s: State)
    requires ValidLoop(p)
    ensures Reachable(p, s) && RoundOne(p, s, 0)
  {
    hide Reachable, Augmented;
    var rank0 :| Ranks(p.graph, rank0);
    var rank := AugmentedRanks(p.graph, rank0);
    var bound := Bound(rank) + 1;
    var s0 := RunLower(p, rank, bound);
    assert forall i: nat :: i < |rank| ==> i in Lower(rank, bound, 0);
    var s1 := Apply(p, s0, Wake);
    ReachableStep(p, s0, Wake, s1);
    s := Apply(p, s1, Enter);
    ReachableStep(p, s1, Enter, s);
  }

  /** The next action is attached.  A dependee that is listed later still offers the value of the
      first round, so the continuation is ready at once. */
  lemma AttachSecond(p: LoopPlan, rank: seq<nat>, s: State, j: nat) returns (s': State)
    requires p.workers > 0 && Ranks(Augmented(p.graph), rank)
    requires Reachable(p, s) && RoundOne(p, s, j) && j < |s.graph|
    ensures Reachable(p, s') && Enabled(p, s', Start(1, j))
    ensures s' == s.(cells := s'.cells, conts := s'.conts) && |s'.cells| == |s'.graph|
    ensures s'.cells == s.cells[j := Reset(s.cells[j])]
    ensures |s'.conts| == 2 && s'.conts[0] == s.conts[0]
    ensures |s'.conts[1]| == j + 1 && s'.conts[1] == s.conts[1] + [Cont(s'.conts[1][j].futures, Waiting)]
    ensures s.graph[j] == [] ==> s'.conts[1][j] == Cont([], Waiting)
  {
    hide Reachable, Augmented, Working;
    s' := Apply(p, s, Register);
    ReachableStep(p, s, Register, s');
    NobodyWorks(s');
    forall f | f in s'.conts[1][j].futures
      ensures FutureValue(s', f) == Value
    {
      assert Edge(s.graph, f.dee, j);
      assert SucceededIn(s.cells[f.dee], if f.dee < j then 1 else 0);
    }
  }

  lemma RunSecond(p: LoopPlan, rank: seq<nat>, s: State, j: nat) returns (s': State)
    requires p.workers > 0 && Ranks(Augmented(p.graph), rank)
    requires Reachable(p, s) && RoundOne(p, s, j) && j < |s.graph|
    ensures Reachable(p, s') && RoundOne(p, s', j + 1)
  {
    hide Reachable, Augmented, Working;
    var s1 := AttachSecond(p, rank, s, j);
    var s2 := Apply(p, s1, Start(1, j));
    ReachableStep(p, s1, Start(1, j), s2);
    s' := Apply(p, s2, Finish(1, j, ReturnsOk));
    ReachableStep(p, s2, Finish(1, j, ReturnsOk), s');
  }

  lemma OneShape(p: LoopPlan, s: State, j: nat)
    requires RoundOne(p, s, j)
    ensures s.graph == Augmented(p.graph)
  {
  }

  lemma RunSecondUpTo(p: LoopPlan, rank: seq<nat>, n: nat) returns (s: State)
    requires ValidLoop(p) && Ranks(Augmented(p.graph), rank) && n <= |rank|
    ensures Reachable(p, s) && RoundOne(p, s, n)
  {
    hide Reachable, RoundOne, Augmented;
    s := SecondRound(p);
    for j := 0 to n
      invariant Reachable(p, s) && RoundOne(p, s, j)
    {
      OneShape(p, s, j);
      s := RunSecond(p, rank, s, j);
    }
  }

  /** An action listed before one of its dependees can start ahead of it in the second round. */
  lemma BackwardBreaksOrder(p: LoopPlan, i: nat, d: nat) returns (s: State)
    requires ValidLoop(p) && Edge(p.graph, d, i) && i <= d
    ensures Reachable(p, s) && !s.raced && Enabled(p, s, Start(1, i)) && d < |s.cells| && s.cells[d].okRound == 0
  {
    hide Reachable, Augmented, Working;
    var rank0 :| Ranks(p.graph, rank0);
    var rank := AugmentedRanks(p.graph, rank0);
    var s0 := RunSecondUpTo(p, rank, i);
    s := AttachSecond(p, rank, s0, i);
    assert rank0[d] < rank0[i];
    assert SucceededIn(s0.cells[d], 0);
  }

  // ---- The third round -------------------------------------------------------------------------

  /** The third round of the first call, with `j` actions attached, while Begin has not yet run in the
      second. */
  ghost predicate LateBegin(p: LoopPlan, s: State, j: nat) {
    var begin := |p.graph| + 1;
    && s.graph == Augmented(p.graph) && |s.cells| == |s.graph|
    && |s.conts| == 3 && |s.conts[1]| == |s.graph| && |s.conts[2]| == j <= |s.graph|
    && s.main == InRound && s.errors == {} && !s.raced && !s.crashed
    && (forall r, i :: 0 <= r < 3 && 0 <= i < |s.conts[r]| ==> !Occupies(s.conts[r][i]))
    && s.cells[begin].status == INIT
    && s.conts[1][begin] == Cont([], Waiting)
    && (begin < j ==> s.conts[2][begin] == Cont([], Waiting))
  }

  lemma BeginIsRoot(g: Graph)
    ensures Augmented(g)[|g| + 1] == []
  {
  }

  /** The second round ends although Begin, already reset, still waits for a thread: its dependers
      read the promise it fulfilled in the first round. */
  lemma ThirdRound(p: LoopPlan, rank: seq<nat>) returns (s: State)
    requires ValidLoop(p) && Ranks(Augmented(p.graph), rank)
    ensures Reachable(p, s) && LateBegin(p, s, 0)
  {
    hide Reachable, Augmented, Working;
    var begin := |p.graph| + 1;
    var s0 := RunSecondUpTo(p, rank, begin);
    BeginIsRoot(p.graph);
    var s1 := AttachSecond(p, rank, s0, begin);
    assert SucceededIn(s0.cells[Sink(s0)], 1);
    var s2 := Apply(p, s1, Wake);
    ReachableStep(p, s1, Wake, s2);
    s := Apply(p, s2, Enter);
    ReachableStep(p, s2, Enter, s);
  }

  lemma AttachThird(p: LoopPlan, s: State, j: nat) returns (s': State)
    requires Reachable(p, s) && LateBegin(p, s, j) && j < |s.graph|
    ensures Reachable(p, s') && LateBegin(p, s', j + 1)
  {
    hide Reachable, Augmented, Working;
    BeginIsRoot(p.graph);
    s' := Apply(p, s, Register);
    ReachableStep(p, s, Register, s');
  }

  lemma TwoBegins(p: LoopPlan, s: State) returns (s': State)
    requires p.workers > 0 && Reachable(p, s) && LateBegin(p, s, |p.graph| + 2)
    ensures Reachable(p, s') && s'.crashed && !s'.raced && s'.errors == {} && |s'.conts| == 3
    ensures |s'.graph| == |p.graph| + 2
  {
    hide Reachable, Augmented, Working;
    var begin := |p.graph| + 1;
    NobodyWorks(s);
    var s1 := Apply(p, s, Start(1, begin));
    ReachableStep(p, s, Start(1, begin), s1);
    var s2 := Apply(p, s1, Finish(1, begin, ReturnsOk));
    ReachableStep(p, s1, Finish(1, begin, ReturnsOk), s2);
    NobodyWorks(s2);
    s' := Apply(p, s2, Start(2, begin));
    ReachableStep(p, s2, Start(2, begin), s');
  }

  /** Begin, never reset in the third round, gets a second continuation for the same promise.  Once the
      one has run, the other finds the wrong status and the CHECK of `run()` aborts. */
  lemma LateBeginAborts(p: LoopPlan) returns (s: State)
    requires ValidLoop(p)
    ensures Reachable(p, s) && s.crashed && !s.raced && s.errors == {} && |s.conts| == 3
    ensures |s.graph| == |p.graph| + 2
  {
    hide Reachable, Augmented, Working;
    var rank0 :| Ranks(p.graph, rank0);
    var rank := AugmentedRanks(p.graph, rank0);
    s := ThirdRound(p, rank);
    for j := 0 to |p.graph| + 2
      invariant Reachable(p, s) && LateBegin(p, s, j)
    {
      s := AttachThird(p, s, j);
    }
    s := TwoBegins(p, s);
  }
}
