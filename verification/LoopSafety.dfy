/** Through its first two rounds an acyclic loop meets every CHECK of `run()`, in whatever order its
    actions are listed. */
module LoopSafety {
  import opened ActionGraph
  import opened ActionStatus
  import opened LoopSchedule
  import opened LoopInvariant
  import opened LoopLayers

  predicate Matches(status: Status, phase: Phase) {
    match phase
    case Waiting => status == INIT
    case Executing => status == RUNNING
    case Thrown => status == RUNNING
    case Owing => status == FAILED
    case Done => status == SUCCEEDED || status == FAILED
  }

  /** In the first round every future was taken from the one promise its action has had. */
  ghost predicate FirstRoundOk(s: State, i: nat)
    requires |s.cells| == |s.graph| && i < |s.graph|
  {
    && |s.cells[i].promises| == 1
    && (Attached(s, i) ==>
          var fs := s.conts[|s.conts| - 1][i].futures;
          |fs| == |s.graph[i]| && forall k :: 0 <= k < |fs| ==> fs[k] == Future(s.graph[i][k], 0))
    && (s.cells[i].status == RUNNING || s.cells[i].status == SUCCEEDED ==>
          forall d :: d in s.graph[i] ==> d < |s.graph| && s.cells[d].status == SUCCEEDED)
  }

  ghost predicate NodeSafe(s: State, i: nat)
    requires |s.cells| == |s.graph| && i < |s.graph|
  {
    && CellOk(s.cells[i])
    && (forall q :: 0 <= q < Round(s) && i < |s.conts[q]| ==> s.conts[q][i].phase == Done)
    && (if Attached(s, i) then Matches(s.cells[i].status, s.conts[|s.conts| - 1][i].phase)
        else s.cells[i].status == INIT || s.cells[i].status == SUCCEEDED)
    && (|s.conts| <= 1 && !Attached(s, i) ==> s.cells[i] == FRESH)
    && (|s.conts| == 1 && Resting(s) && Attached(s, i) ==> s.cells[i].status == SUCCEEDED)
    && (|s.conts| == 1 && s.main == InRound ==> FirstRoundOk(s, i))
  }

  ghost predicate Early(s: State) {
    && |s.cells| == |s.graph| && |s.conts| <= 2 && !s.raced && !s.crashed
    && (forall r :: 0 <= r < |s.conts| ==> |s.conts[r]| <= |s.graph|)
    && (s.main == InRound ==> s.conts != [])
    && forall i: nat :: i < |s.graph| ==> NodeSafe(s, i)
  }

  // ---- The pool's steps ------------------------------------------------------------------

  lemma NodeNow(s: State, i: nat)
    requires Early(s) && i < |s.graph|
    ensures NodeSafe(s, i)
  {
  }

  lemma AliveNow(p: LoopPlan, s: State, step: Step)
    requires Early(s) && Enabled(p, s, step) && PoolStep(step)
    ensures step.r == |s.conts| - 1 && step.i < |s.graph| && step.i < |s.conts[step.r]|
    ensures Matches(s.cells[step.i].status, s.conts[step.r][step.i].phase)
    ensures Local(s, Apply(p, s, step), step.i) && !Apply(p, s, step).crashed
  {
    hide Working, FirstRoundOk;
    NodeNow(s, step.i);
  }

  lemma StartedAfterDependees(p: LoopPlan, s: State, r: nat, i: nat)
    requires Early(s) && Closed(s.graph) && Enabled(p, s, Start(r, i)) && |s.conts| == 1 && s.main == InRound
    ensures forall d :: d in s.graph[i] ==> d < |s.graph| && s.cells[d].status == SUCCEEDED
  {
    hide Working;
    AliveNow(p, s, Start(r, i));
    NodeNow(s, i);
    forall d | d in s.graph[i]
      ensures d < |s.graph| && s.cells[d].status == SUCCEEDED
    {
      assert Edge(s.graph, d, i);
      var k :| 0 <= k < |s.graph[i]| && s.graph[i][k] == d;
      var f := s.conts[r][i].futures[k];
      assert f in s.conts[r][i].futures && FutureValue(s, f) == Value;
      NodeNow(s, d);
    }
  }

  lemma PoolKeepsOther(p: LoopPlan, s: State, step: Step, i: nat)
    requires Early(s) && Enabled(p, s, step) && PoolStep(step) && i < |s.graph| && i != step.i
    ensures NodeSafe(Apply(p, s, step), i)
  {
    hide Working;
    AliveNow(p, s, step);
    NodeNow(s, i);
    var s' := Apply(p, s, step);
    assert forall d: nat :: d < |s.cells| && s.cells[d].status == SUCCEEDED ==> s'.cells[d].status == SUCCEEDED;
  }

  lemma PoolKeepsActor(p: LoopPlan, s: State, step: Step)
    requires Early(s) && Closed(s.graph) && Enabled(p, s, step) && PoolStep(step)
    ensures step.i < |s.graph| && NodeSafe(Apply(p, s, step), step.i)
  {
    hide Working;
    AliveNow(p, s, step);
    NodeNow(s, step.i);
    var s' := Apply(p, s, step);
    if |s.conts| == 1 && s.main == InRound {
      if step.Start? {
        StartedAfterDependees(p, s, step.r, step.i);
      }
      assert FirstRoundOk(s', step.i);
    }
  }

  // ---- The main thread's steps -------------------------------------------------------------

  /** When the sink succeeded in the first round, everything did. */
  lemma {:induction false} SuccessBackwards(s: State, q: seq<nat>)
    requires Early(s) && |s.conts| == 1 && s.main == InRound && Path(s.graph, q)
    requires q[|q| - 1] < |s.graph| && s.cells[q[|q| - 1]].status == SUCCEEDED
    ensures q[0] < |s.graph| && s.cells[q[0]].status == SUCCEEDED
    decreases |q|
  {
    if |q| > 1 {
      NodeNow(s, q[|q| - 1]);
      var r := PathPrefix(s.graph, q);
      SuccessBackwards(s, r);
    }
  }

  lemma WakeIsSafe(p: LoopPlan, s: State, source: nat, i: nat)
    requires Early(s) && Enabled(p, s, Wake) && !Apply(p, s, Wake).raced
    requires SingleSourceSink(s.graph, source, Sink(s)) && i < |s.graph|
    ensures NodeSafe(Apply(p, s, Wake), i)
  {
    hide Working;
    NodeNow(s, i);
    NodeNow(s, Sink(s));
    if |s.conts| == 1 && Apply(p, s, Wake).main == AtTop {
      assert Reaches(s.graph, i, Sink(s));
      var q :| Path(s.graph, q) && q[0] == i && q[|q| - 1] == Sink(s);
      SuccessBackwards(s, q);
    }
  }

  lemma RegisterIsSafe(p: LoopPlan, s: State, i: nat)
    requires Early(s) && Closed(s.graph) && Enabled(p, s, Register) && i < |s.graph|
    ensures NodeSafe(Apply(p, s, Register), i)
  {
    hide Working;
    var s' := Apply(p, s, Register);
    var j := |s.conts[|s.conts| - 1]|;
    NodeNow(s, i);
    NodeNow(s, j);
    if |s.conts| == 1 {
      assert s'.cells == s.cells;
      forall k | i == j && 0 <= k < |s.graph[i]|
        ensures s'.conts[0][i].futures[k] == Future(s.graph[i][k], 0)
      {
        assert Edge(s.graph, s.graph[i][k], i);
        NodeNow(s, s.graph[i][k]);
      }
    }
  }

  lemma OtherIsSafe(p: LoopPlan, s: State, step: Step, i: nat)
    requires Early(s) && Enabled(p, s, step) && (step.Execute? || step.Enter? || step.Leave? || step.GiveUp?)
    requires |Apply(p, s, step).conts| <= 2 && i < |Apply(p, s, step).graph|
    ensures NodeSafe(Apply(p, s, step), i)
  {
    hide Working, Augmented;
    if i < |s.graph| {
      NodeNow(s, i);
    }
  }

  // ---- Every state of the first two rounds ----------------------------------------------------

  lemma LayeredIsClosed(g: Graph, layers: nat)
    requires Acyclic(g)
    ensures Closed(Layered(g, layers))
  {
    LayeredAcyclic(g, layers);
  }

  lemma StepIsSafe(p: LoopPlan, s: State, step: Step, layers: nat) returns (layers': nat)
    requires ValidLoop(p) && Built(p, s, layers) && Early(s) && Enabled(p, s, step)
    requires var s' := Apply(p, s, step); |s'.conts| <= 2 && !s'.raced
    ensures Built(p, Apply(p, s, step), layers') && Early(Apply(p, s, step))
  {
    hide Working, NodeSafe, Augmented, SingleSourceSink;
    var s' := Apply(p, s, step);
    layers' := if step.Execute? then layers + 1 else layers;
    LayeredIsClosed(p.graph, layers);
    if PoolStep(step) {
      AliveNow(p, s, step);
    }
    if step == Wake {
      LayeredIsSingle(p.graph, layers);
    }
    forall i: nat | i < |s'.graph|
      ensures NodeSafe(s', i)
    {
      if PoolStep(step) {
        if step.i == i {
          PoolKeepsActor(p, s, step);
        } else {
          PoolKeepsOther(p, s, step, i);
        }
      } else if step == Wake {
        WakeIsSafe(p, s, |s.graph| - 1, i);
      } else if step == Register {
        RegisterIsSafe(p, s, i);
      } else {
        OtherIsSafe(p, s, step, i);
      }
    }
  }

  lemma InitialIsEarly(p: LoopPlan)
    ensures Built(p, Initial(p), 0) && Early(Initial(p))
  {
  }

  lemma {:induction false} RunIsSafe(p: LoopPlan, tr: seq<State>, k: nat) returns (layers: nat)
    requires ValidLoop(p) && Run(p, tr) && k < |tr| && |tr[k].conts| <= 2 && !tr[k].raced
    ensures Built(p, tr[k], layers) && Early(tr[k])
  {
    hide NodeSafe, Built, Working, Enabled, Apply;
    if k == 0 {
      InitialIsEarly(p);
      layers := 0;
    } else {
      assert Next(p, tr[k - 1], tr[k - 1 + 1]);
      var step :| Enabled(p, tr[k - 1], step) && tr[k] == Apply(p, tr[k - 1], step);
      StepMonotone(p, tr[k - 1], step);
      layers := RunIsSafe(p, tr, k - 1);
      layers := StepIsSafe(p, tr[k - 1], step, layers);
    }
  }

  /** Before a third round is entered no run that has not raced aborts. */
  lemma TwoRoundsNeverAbort(p: LoopPlan, s: State)
    requires ValidLoop(p) && Reachable(p, s) && !s.raced && |s.conts| <= 2
    ensures !s.crashed
  {
    var tr :| Run(p, tr) && tr[|tr| - 1] == s;
    var layers := RunIsSafe(p, tr, |tr| - 1);
  }
}
