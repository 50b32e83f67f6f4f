/** A loop that has raced keeps none of its guarantees: the run below shows it. */
module LoopWitnesses {
  import opened ActionGraph
  import opened ActionStatus
  import opened LoopSchedule
  import opened LoopLayers
  import opened LoopRaces
  import opened LoopRuns

  /** Two actions without edges, of which the first may return an error, on two threads.  Position 2 is
      End, position 3 is Begin. */
  const TWO_ACTIONS := LoopPlan([[], []], {0}, {}, 2)

  lemma TwoActionsShape()
    ensures ValidLoop(TWO_ACTIONS) && ListedInOrder(TWO_ACTIONS.graph)
    ensures Augmented(TWO_ACTIONS.graph) == [[3], [3], [0, 1], []]
    ensures Ranks(Augmented(TWO_ACTIONS.graph), [1, 1, 2, 0])
  {
    var g: Graph := [[], []];
    assert Ranks(g, [0, 0]);
    assert LeavesUpTo(g, 0) == [] && IsLeaf(g, 0) && IsLeaf(g, 1);
    assert LeavesUpTo(g, 1) == LeavesUpTo(g, 0) + [0] == [0];
    assert LeavesUpTo(g, 2) == LeavesUpTo(g, 1) + [1] == [0, 1];
    var h := Augmented(g);
    assert h[0] == [3] && h[1] == [3] && h[2] == LeavesUpTo(g, 2) && h[3] == [];
    assert h == [[3], [3], [0, 1], []];
  }

  lemma ZeroGraph(s: State, done: set<nat>, errs: set<nat>, owing: set<nat>)
    requires RoundZero(TWO_ACTIONS, s, done, errs, owing)
    ensures s.graph == [[3], [3], [0, 1], []] && Closed(s.graph)
  {
    TwoActionsShape();
  }

  /** End has marked itself failed and not yet written `rc`. */
  lemma EndBetweenWrites() returns (s: State)
    ensures Reachable(TWO_ACTIONS, s) && RoundZero(TWO_ACTIONS, s, {3}, {0}, {2})
  {
    hide Reachable, RoundZero, Augmented, Ranks;
    var p := TWO_ACTIONS;
    TwoActionsShape();
    s := FirstRound(p);
    ZeroGraph(s, {}, {}, {});
    s := ZeroRun(p, s, {}, {}, {}, 3);
    assert {} + {3} == {3} && {} + {0} == {0} && {} + {2} == {2};
    ZeroGraph(s, {3}, {}, {});
    s := ZeroError(p, s, {3}, {}, {}, 0);
    ZeroGraph(s, {3}, {0}, {});
    s := ZeroFail(p, s, {3}, {0}, {}, 2, 0);
  }

  /** The race: the next round begins, and action 0 is reset and attached. */
  lemma RaceBegun() returns (s: State)
    ensures Reachable(TWO_ACTIONS, s) && s.raced && !s.crashed && s.main == InRound
    ensures s.graph == [[3], [3], [0, 1], []] && |s.cells| == 4
    ensures |s.conts| == 2 && |s.conts[0]| == 4 && |s.conts[1]| == 1
    ensures s.cells[1] == FRESH && s.cells[3] == OK_0 && s.conts[0][2].phase == Owing
    ensures s.conts[0][1] == Cont([Future(3, 0)], Waiting)
    ensures forall r, i :: 0 <= r < 2 && 0 <= i < |s.conts[r]| && (r, i) != (0, 2) ==> !Occupies(s.conts[r][i])
  {
    hide Reachable, Augmented, Working;
    var p := TWO_ACTIONS;
    var s0 := EndBetweenWrites();
    ZeroGraph(s0, {3}, {0}, {2});
    var s1 := Apply(p, s0, Wake);
    ReachableStep(p, s0, Wake, s1);
    var s2 := Apply(p, s1, Enter);
    ReachableStep(p, s1, Enter, s2);
    s := Apply(p, s2, Register);
    ReachableStep(p, s2, Register, s);
    assert FuturesZero(s0.graph, 1) == [Future(3, 0)];
  }

  /** Action 1, which has not run in the first round, gets a second continuation for its first promise. */
  lemma SecondContinuation() returns (s: State)
    ensures Reachable(TWO_ACTIONS, s) && s.raced && !s.crashed && s.main == InRound
    ensures s.graph == [[3], [3], [0, 1], []] && |s.cells| == 4
    ensures |s.conts| == 2 && |s.conts[0]| == 4 && |s.conts[1]| == 2
    ensures s.cells[1] == FRESH && s.cells[3] == OK_0 && s.conts[0][2].phase == Owing
    ensures s.conts[0][1] == s.conts[1][1] == Cont([Future(3, 0)], Waiting)
    ensures forall r, i :: 0 <= r < 2 && 0 <= i < |s.conts[r]| && (r, i) != (0, 2) ==> !Occupies(s.conts[r][i])
  {
    hide Reachable, Augmented, Working;
    var p := TWO_ACTIONS;
    var s0 := RaceBegun();
    s := Apply(p, s0, Register);
    ReachableStep(p, s0, Register, s);
    assert s.conts[1][1].futures == [Future(3, 0)];
  }

  /** The loop is listed in order, and yet, once it has raced, a sub-plan action meets the CHECK of
      `run()` with the wrong status: the process aborts in round two. */
  lemma RacedLoopAborts() returns (s: State)
    ensures ValidLoop(TWO_ACTIONS) && ListedInOrder(TWO_ACTIONS.graph)
    ensures Reachable(TWO_ACTIONS, s) && s.raced && |s.conts| == 2 && |s.cells| == |s.graph|
    ensures 1 < |TWO_ACTIONS.graph| && Enabled(TWO_ACTIONS, s, Start(1, 1))
    ensures s.cells[1].status == SUCCEEDED && Apply(TWO_ACTIONS, s, Start(1, 1)).crashed
  {
    hide Reachable, Augmented, Working;
    var p := TWO_ACTIONS;
    TwoActionsShape();
    var s0 := SecondContinuation();
    var s1 := Apply(p, s0, Record(0, 2));
    ReachableStep(p, s0, Record(0, 2), s1);
    NobodyWorks(s1);
    var s2 := Apply(p, s1, Start(0, 1));
    ReachableStep(p, s1, Start(0, 1), s2);
    s := Apply(p, s2, Finish(0, 1, ReturnsOk));
    ReachableStep(p, s2, Finish(0, 1, ReturnsOk), s);
    NobodyWorks(s);
  }
}
