/** Runs of any acyclic loop, built step by step: through the first round, and one action at a time
    through the second. */
module LoopRuns {
  import opened ActionGraph
  import opened ActionStatus
  import opened LoopSchedule

  const OK_0 := Cell(SUCCEEDED, [Value], 0)

  const BAD_0 := Cell(FAILED, [Broken], -1)

  function CellZero(done: set<nat>, broken: set<nat>, i: nat): Cell {
    if i in done then OK_0 else if i in broken then BAD_0 else FRESH
  }

  function PhaseZero(through: set<nat>, owing: set<nat>, i: nat): Phase {
    if i in through then Done else if i in owing then Owing else Waiting
  }

  function FuturesZero(g: Graph, i: nat): seq<Future>
    requires i < |g|
  {
    seq(|g[i]|, k requires 0 <= k < |g[i]| => Future(g[i][k], 0))
  }

  /** The first round of the first call, everything attached: the actions in `done` have succeeded,
      those in `errs` returned errors, those in `owing` are between their two writes, and all others
      still wait. */
  ghost predicate RoundZero(p: LoopPlan, s: State, done: set<nat>, errs: set<nat>, owing: set<nat>) {
    && s.graph == Augmented(p.graph) && |s.cells| == |s.graph|
    && |s.conts| == 1 && |s.conts[0]| == |s.graph|
    && s.main == InRound && s.errors == {} && !s.raced && !s.crashed
    && (forall i: nat :: i < |s.graph| ==> s.cells[i] == CellZero(done, errs + owing, i))
    && (forall i: nat :: i < |s.graph| ==>
          s.conts[0][i] == Cont(FuturesZero(s.graph, i), PhaseZero(done + errs, owing, i)))
  }

  // ---- Registration of the first round -----------------------------------------------

  ghost predicate Attaching(p: LoopPlan, s: State) {
    && s.graph == Augmented(p.graph) && |s.cells| == |s.graph|
    && |s.conts| == 1 && |s.conts[0]| <= |s.graph|
    && s.main == InRound && s.errors == {} && !s.raced && !s.crashed
    && (forall i: nat :: i < |s.graph| ==> s.cells[i] == FRESH)
    && (forall i: nat :: i < |s.conts[0]| ==> s.conts[0][i] == Cont(FuturesZero(s.graph, i), Waiting))
  }

  lemma AttachOne(p: LoopPlan, s: State) returns (s': State)
    requires Closed(Augmented(p.graph)) && Reachable(p, s) && Attaching(p, s) && |s.conts[0]| < |s.graph|
    ensures |s.cells| == |s.graph| && Enabled(p, s, Register) && s' == Apply(p, s, Register)
    ensures Reachable(p, s') && Attaching(p, s') && |s'.conts[0]| == |s.conts[0]| + 1
  {
    hide Reachable;
    s' := Apply(p, s, Register);
    ReachableStep(p, s, Register, s');
    var i := |s.conts[0]|;
    var cells := s.cells[i := Reset(s.cells[i])];
    assert cells == s.cells;
    forall k | 0 <= k < |s.graph[i]|
      ensures FuturesOf(s.graph, cells, i)[k] == Future(s.graph[i][k], 0)
    {
      assert Edge(s.graph, s.graph[i][k], i);
    }
    assert FuturesOf(s.graph, cells, i) == FuturesZero(s.graph, i);
  }

  lemma FirstRound(p: LoopPlan) returns (s: State)
    requires Closed(Augmented(p.graph))
    ensures Reachable(p, s) && RoundZero(p, s, {}, {}, {})
  {
    hide Reachable;
    InitialReachable(p);
    var s0 := Apply(p, Initial(p), Execute);
    ReachableStep(p, Initial(p), Execute, s0);
    s := Apply(p, s0, Enter);
    ReachableStep(p, s0, Enter, s);
    while |s.conts[0]| < |s.graph|
      invariant Reachable(p, s) && Attaching(p, s)
      decreases |s.graph| - |s.conts[0]|
    {
      s := AttachOne(p, s);
    }
  }

  // ---- One continuation of the first round ----------------------------------------------

  lemma {:induction false} ImageSize(owing: set<nat>, w: set<(nat, nat)>)
    requires forall x :: x in w ==> x.0 == 0 && x.1 in owing
    ensures |w| <= |owing|
  {
    if w != {} {
      var x :| x in w;
      ImageSize(owing - {x.1}, w - {x});
    }
  }

  lemma ZeroFree(p: LoopPlan, s: State, done: set<nat>, errs: set<nat>, owing: set<nat>)
    requires RoundZero(p, s, done, errs, owing)
    ensures |Working(s)| <= |owing|
  {
    ImageSize(owing, Working(s));
  }

  lemma FutureZero(p: LoopPlan, s: State, done: set<nat>, errs: set<nat>, owing: set<nat>, i: nat, k: nat)
    requires Closed(s.graph) && RoundZero(p, s, done, errs, owing) && i < |s.graph| && k < |s.graph[i]|
    ensures s.conts[0][i].futures[k] in s.conts[0][i].futures
    ensures FutureValue(s, s.conts[0][i].futures[k]) == Current(CellZero(done, errs + owing, s.graph[i][k]))
  {
    assert Edge(s.graph, s.graph[i][k], i);
  }

  /** All dependees of `i` have succeeded, and `i` itself still waits. */
  ghost predicate ReadyZero(s: State, done: set<nat>, errs: set<nat>, owing: set<nat>, i: nat) {
    i < |s.graph| && i !in done + errs + owing && forall d :: d in s.graph[i] ==> d in done
  }

  lemma ZeroStart(p: LoopPlan, s: State, done: set<nat>, errs: set<nat>, owing: set<nat>, i: nat)
    requires Closed(s.graph) && RoundZero(p, s, done, errs, owing) && ReadyZero(s, done, errs, owing, i)
    requires |owing| < p.workers
    ensures Enabled(p, s, Start(0, i))
  {
    ZeroFree(p, s, done, errs, owing);
    forall f | f in s.conts[0][i].futures
      ensures FutureValue(s, f) == Value
    {
      var k :| 0 <= k < |s.conts[0][i].futures| && s.conts[0][i].futures[k] == f;
      FutureZero(p, s, done, errs, owing, i, k);
    }
  }

  /** The body of `i` is entered and ends with `o`. */
  lemma ZeroBody(p: LoopPlan, s: State, done: set<nat>, errs: set<nat>, owing: set<nat>, i: nat, o: Outcome)
    returns (s': State)
    requires Closed(s.graph) && Reachable(p, s)
    requires RoundZero(p, s, done, errs, owing) && ReadyZero(s, done, errs, owing, i)
    requires |owing| < p.workers && CanEnd(p, i, o)
    ensures Reachable(p, s')
    ensures s' == s.(cells := s'.cells, conts := s'.conts, entered := s'.entered)
    ensures s'.cells == s.cells[i := Ended(FRESH.(status := RUNNING), 0, o)]
    ensures s'.conts == [s.conts[0][i := s.conts[0][i].(phase := if o == Throws then Thrown else Done)]]
  {
    hide Reachable, Working, Augmented;
    ZeroStart(p, s, done, errs, owing, i);
    var s1 := Apply(p, s, Start(0, i));
    ReachableStep(p, s, Start(0, i), s1);
    s' := Apply(p, s1, Finish(0, i, o));
    ReachableStep(p, s1, Finish(0, i, o), s');
    assert s'.conts[0] == s.conts[0][i := s.conts[0][i].(phase := if o == Throws then Thrown else Done)];
  }

  lemma ZeroRun(p: LoopPlan, s: State, done: set<nat>, errs: set<nat>, owing: set<nat>, i: nat) returns (s': State)
    requires Closed(s.graph) && Reachable(p, s)
    requires RoundZero(p, s, done, errs, owing) && ReadyZero(s, done, errs, owing, i)
    requires |owing| < p.workers
    ensures Reachable(p, s') && RoundZero(p, s', done + {i}, errs, owing)
  {
    hide Reachable, Augmented;
    s' := ZeroBody(p, s, done, errs, owing, i, ReturnsOk);
  }

  lemma ZeroError(p: LoopPlan, s: State, done: set<nat>, errs: set<nat>, owing: set<nat>, i: nat) returns (s': State)
    requires Closed(s.graph) && Reachable(p, s)
    requires RoundZero(p, s, done, errs, owing) && ReadyZero(s, done, errs, owing, i)
    requires |owing| < p.workers && i in p.mayError
    ensures Reachable(p, s') && RoundZero(p, s', done, errs + {i}, owing)
  {
    hide Reachable, Augmented;
    s' := ZeroBody(p, s, done, errs, owing, i, ReturnsError);
  }

  lemma ZeroThrow(p: LoopPlan, s: State, done: set<nat>, errs: set<nat>, owing: set<nat>, i: nat) returns (s': State)
    requires Closed(s.graph) && Reachable(p, s)
    requires RoundZero(p, s, done, errs, owing) && ReadyZero(s, done, errs, owing, i)
    requires |owing| < p.workers && i in p.mayThrow
    ensures Reachable(p, s') && RoundZero(p, s', done, errs, owing + {i})
  {
    hide Reachable, Augmented;
    var s1 := ZeroBody(p, s, done, errs, owing, i, Throws);
    assert |Working(s1)| <= |owing| by {
      ImageSize(owing, Working(s1));
    }
    s' := Apply(p, s1, Handle(0, i));
    ReachableStep(p, s1, Handle(0, i), s');
  }

  lemma ZeroFail(p: LoopPlan, s: State, done: set<nat>, errs: set<nat>, owing: set<nat>, i: nat, d: nat)
    returns (s': State)
    requires Closed(s.graph) && Reachable(p, s) && RoundZero(p, s, done, errs, owing)
    requires i < |s.graph| && i !in done + errs + owing && d in s.graph[i] && d in errs + owing && d !in done
    requires |owing| < p.workers
    ensures Reachable(p, s') && RoundZero(p, s', done, errs, owing + {i})
  {
    hide Reachable, Augmented;
    ZeroFree(p, s, done, errs, owing);
    var k :| 0 <= k < |s.graph[i]| && s.graph[i][k] == d;
    FutureZero(p, s, done, errs, owing, i, k);
    s' := Apply(p, s, FailFast(0, i));
    ReachableStep(p, s, FailFast(0, i), s');
  }

  // ---- Everything below a rank --------------------------------------------------------------

  /** The actions of rank below `b`, and those of rank `b` among the first `j`. */
  function Lower(rank: seq<nat>, b: nat, j: nat): (low: set<nat>)
    ensures forall i: nat :: i in low <==> i < |rank| && (rank[i] < b || (rank[i] == b && i < j))
  {
    set i: nat | i < |rank| && (rank[i] < b || (rank[i] == b && i < j))
  }

  lemma RunRanked(p: LoopPlan, rank: seq<nat>, s: State, b: nat, j: nat) returns (s': State)
    requires Ranks(Augmented(p.graph), rank) && p.workers > 0 && j < |rank| && rank[j] == b
    requires Reachable(p, s) && RoundZero(p, s, Lower(rank, b, j), {}, {})
    ensures Reachable(p, s') && RoundZero(p, s', Lower(rank, b, j) + {j}, {}, {})
  {
    hide Reachable, Augmented;
    forall d | d in s.graph[j]
      ensures d in Lower(rank, b, j)
    {
      assert Edge(s.graph, d, j);
    }
    s' := ZeroRun(p, s, Lower(rank, b, j), {}, {}, j);
  }

  /** All actions of rank below `bound` succeed, and no other begins. */
  lemma RunLower(p: LoopPlan, rank: seq<nat>, bound: nat) returns (s: State)
    requires Ranks(Augmented(p.graph), rank) && p.workers > 0
    ensures Reachable(p, s) && RoundZero(p, s, Lower(rank, bound, 0), {}, {})
  {
    hide Reachable, RoundZero, Augmented;
    s := FirstRound(p);
    var b := 0;
    assert Lower(rank, 0, 0) == {};
    while b < bound
      invariant b <= bound && Reachable(p, s) && RoundZero(p, s, Lower(rank, b, 0), {}, {})
    {
      var j := 0;
      while j < |rank|
        invariant j <= |rank| && Reachable(p, s) && RoundZero(p, s, Lower(rank, b, j), {}, {})
      {
        if rank[j] == b {
          assert Lower(rank, b, j + 1) == Lower(rank, b, j) + {j};
          s := RunRanked(p, rank, s, b, j);
        } else {
          assert Lower(rank, b, j + 1) == Lower(rank, b, j);
        }
        j := j + 1;
      }
      assert Lower(rank, b, |rank|) == Lower(rank, b + 1, 0);
      b := b + 1;
    }
  }
}
