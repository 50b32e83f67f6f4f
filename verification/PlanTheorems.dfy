/** Whole-run properties of `ChaosPlan::schedule`. */
module PlanTheorems {
  import opened ActionGraph
  import opened ActionStatus
  import opened PlanSchedule

  // ---- Fate of an action --------------------------------------------------

  /** The body of `i` and the bodies of all its ancestors return OK. */
  ghost predicate AllAncestorsOk(p: Plan, i: nat) {
    forall a: nat :: a < |p.outcomes| && Reaches(p.graph, a, i) ==> p.outcomes[a] == ReturnsOk
  }

  ghost predicate DependeesOk(p: Plan, i: nat)
    requires i < |p.graph|
  {
    forall d | d in p.graph[i] :: AllAncestorsOk(p, d)
  }

  lemma LastStep(g: Graph, a: nat, i: nat)
    requires Closed(g) && Reaches(g, a, i)
    ensures a == i || (i < |g| && exists d :: d in g[i] && Reaches(g, a, d))
  {
    var q :| Path(g, q) && q[0] == a && q[|q| - 1] == i;
    if |q| > 1 {
      var r := PathPrefix(g, q);
      assert Path(g, r) && r[0] == a && r[|r| - 1] == q[|q| - 2];
    }
  }

  lemma FateUnfolds(p: Plan, i: nat)
    requires ValidPlan(p) && i < |p.graph|
    ensures AllAncestorsOk(p, i) <==> p.outcomes[i] == ReturnsOk && DependeesOk(p, i)
  {
    ReachesSelf(p.graph, i);
    if AllAncestorsOk(p, i) {
      forall d, a: nat | d in p.graph[i] && a < |p.outcomes| && Reaches(p.graph, a, d)
        ensures p.outcomes[a] == ReturnsOk
      {
        assert Edge(p.graph, d, i);
        ReachesStep(p.graph, a, d, i);
      }
    }
    if p.outcomes[i] == ReturnsOk && DependeesOk(p, i) {
      forall a: nat | a < |p.outcomes| && Reaches(p.graph, a, i)
        ensures p.outcomes[a] == ReturnsOk
      {
        LastStep(p.graph, a, i);
      }
    }
  }

  /** A settled promise holds a value exactly when the action and all its ancestors are OK. */
  lemma {:induction false} FateDecides(p: Plan, rank: seq<nat>, s: State, i: nat)
    requires ValidPlan(p) && Ranks(p.graph, rank) && Inv(p, s) && Settled(s, i)
    ensures s.nodes[i].promise == Value <==> AllAncestorsOk(p, i)
    decreases rank[i]
  {
    assert NodeOk(p, s, i);
    forall d | d in p.graph[i]
      ensures s.nodes[d].promise == Value <==> AllAncestorsOk(p, d)
    {
      assert Edge(p.graph, d, i);
      assert Settled(s, d);
      FateDecides(p, rank, s, d);
    }
    assert DepBroken(p, s, i) <==> !DependeesOk(p, i) by {
      if DepBroken(p, s, i) {
        var d :| d in p.graph[i] && Broke(s, d);
        assert !AllAncestorsOk(p, d);
      }
      if !DependeesOk(p, i) {
        var d :| d in p.graph[i] && !AllAncestorsOk(p, d);
        assert Settled(s, d);
        assert Broke(s, d);
      }
    }
    FateUnfolds(p, i);
  }

  /** The one final record an action can end with. */
  ghost function Final(p: Plan, i: nat): Node
    requires i < |p.graph|
  {
    if AllAncestorsOk(p, i) then Node(SUCCEEDED, Value, Done, 1, 1)
    else Node(FAILED, Broken, Done, if DependeesOk(p, i) then 1 else 0, 1)
  }

  lemma DoneIsFinal(p: Plan, rank: seq<nat>, s: State, i: nat)
    requires ValidPlan(p) && Ranks(p.graph, rank) && Inv(p, s)
    requires i < |p.graph| && s.nodes[i].phase == Done
    ensures s.nodes[i] == Final(p, i)
  {
    assert NodeOk(p, s, i);
    FateDecides(p, rank, s, i);
    FateUnfolds(p, i);
    forall d | d in p.graph[i]
      ensures Settled(s, d) && (Broke(s, d) <==> !AllAncestorsOk(p, d))
    {
      assert Settled(s, d);
      FateDecides(p, rank, s, d);
    }
    if !DependeesOk(p, i) {
      var d :| d in p.graph[i] && !AllAncestorsOk(p, d);
      assert Broke(s, d);
    }
  }

  // ---- Safety at every moment of every run --------------------------------

  /** In every reachable state: a body is entered at most once, a promise is fulfilled at most once,
      a body is entered only when every dependee SUCCEEDED, `run()` always finds status INIT, and no
      more workers are used than the pool has. */
  lemma RunSafety(p: Plan, tr: seq<State>, k: nat, i: nat)
    requires ValidPlan(p) && Run(p, tr) && k < |tr| && i < |p.graph|
    ensures |tr[k].nodes| == |p.graph| && Busy(tr[k].nodes) <= p.workers
    ensures var n := tr[k].nodes[i];
            && n.runs <= 1
            && n.sets == (if n.promise == Unset then 0 else 1)
            && (n.promise == Value <==> n.status == SUCCEEDED)
            && (n.promise == Broken <==> n.status == FAILED)
            && (n.phase == Waiting ==> n.status == INIT)
            && (n.runs == 1 ==> forall d :: d in p.graph[i] ==> d < |p.graph| && tr[k].nodes[d].status == SUCCEEDED)
  {
    var s := tr[k];
    RunKeepsInv(p, tr, k);
    assert NodeOk(p, s, i);
    if s.nodes[i].runs == 1 {
      forall d | d in p.graph[i]
        ensures d < |p.graph| && s.nodes[d].status == SUCCEEDED
      {
        assert Edge(p.graph, d, i);
        assert NodeOk(p, s, d);
        assert Settled(s, d) && !Broke(s, d);
      }
    }
  }

  /** The source is registered last: no action leaves INIT before the registration loop is through. */
  lemma {:induction false} NothingStartsBeforeTheSource(p: Plan, s: State, source: nat, i: nat, q: seq<nat>)
    requires ValidPlan(p) && Inv(p, s) && source == |p.graph| - 1
    requires Path(p.graph, q) && q[0] == source && q[|q| - 1] == i
    requires i < |p.graph| && s.nodes[i].status != INIT
    ensures s.registered == |p.graph|
    decreases |q|
  {
    assert NodeOk(p, s, i);
    if |q| > 1 {
      var d := q[|q| - 2];
      assert Edge(p.graph, d, q[|q| - 2 + 1]);
      assert Settled(s, d);
      assert NodeOk(p, s, d);
      var r := PathPrefix(p.graph, q);
      NothingStartsBeforeTheSource(p, s, source, d, r);
    }
  }

  /** The plan `schedule` runs: the user's acyclic, non-empty graph with its source and sink. */
  ghost predicate Scheduled(g: Graph, p: Plan) {
    && g != [] && Acyclic(g)
    && p.graph == Augmented(g)
    && |p.outcomes| == |p.graph|
    && p.workers > 0
  }

  lemma ScheduledIsValid(g: Graph, p: Plan) returns (rank: seq<nat>)
    requires Scheduled(g, p)
    ensures ValidPlan(p) && Ranks(p.graph, rank)
    ensures SingleSourceSink(p.graph, |p.graph| - 1, Sink(p))
  {
    AugmentedAcyclic(g);
    AugmentedIsSingle(g);
    rank :| Ranks(p.graph, rank);
  }

  lemma RegistrationComesFirst(g: Graph, p: Plan, tr: seq<State>, k: nat, i: nat)
    requires Scheduled(g, p) && Run(p, tr) && k < |tr| && i < |p.graph|
    requires |tr[k].nodes| == |p.graph| && tr[k].nodes[i].status != INIT
    ensures tr[k].registered == |p.graph|
  {
    var rank := ScheduledIsValid(g, p);
    RunKeepsInv(p, tr, k);
    var source := |p.graph| - 1;
    assert Reaches(p.graph, source, i);
    var q :| Path(p.graph, q) && q[0] == source && q[|q| - 1] == i;
    NothingStartsBeforeTheSource(p, tr[k], source, i, q);
  }

  // ---- Complete at return ---------------------------------------------------

  lemma {:induction false} SettledBackwards(p: Plan, s: State, i: nat, j: nat, q: seq<nat>)
    requires ValidPlan(p) && Inv(p, s) && Settled(s, j)
    requires Path(p.graph, q) && q[0] == i && q[|q| - 1] == j
    ensures Settled(s, i)
    decreases |q|
  {
    if |q| > 1 {
      var d := q[|q| - 2];
      assert Edge(p.graph, d, q[|q| - 2 + 1]);
      assert NodeOk(p, s, j);
      assert Settled(s, d);
      var r := PathPrefix(p.graph, q);
      SettledBackwards(p, s, i, d, r);
    }
  }

  /** When the wait on the sink returns, every action is settled, whatever failed. */
  lemma CompleteAtReturn(g: Graph, p: Plan, tr: seq<State>, k: nat, i: nat)
    requires Scheduled(g, p) && Run(p, tr) && k < |tr| && i < |p.graph|
    requires tr[k].woken
    ensures Settled(tr[k], i)
    ensures tr[k].nodes[i].status == SUCCEEDED <==> AllAncestorsOk(p, i)
  {
    var rank := ScheduledIsValid(g, p);
    RunKeepsInv(p, tr, k);
    assert Reaches(p.graph, i, Sink(p));
    var q :| Path(p.graph, q) && q[0] == i && q[|q| - 1] == Sink(p);
    SettledBackwards(p, tr[k], i, Sink(p), q);
    FateDecides(p, rank, tr[k], i);
    assert NodeOk(p, tr[k], i);
  }

  // ---- Progress -------------------------------------------------------------

  /** A waiting action all of whose dependees are settled, below any waiting action. */
  lemma {:induction false} FindReady(p: Plan, rank: seq<nat>, s: State, i: nat) returns (j: nat)
    requires ValidPlan(p) && Ranks(p.graph, rank) && Inv(p, s)
    requires i < |p.graph| && s.nodes[i].phase == Waiting
    requires forall k: nat :: k < |p.graph| ==> s.nodes[k].phase == Waiting || Settled(s, k)
    ensures j < |p.graph| && s.nodes[j].phase == Waiting && DepsSettled(p, s, j)
    decreases rank[i]
  {
    if DepsSettled(p, s, i) {
      j := i;
    } else {
      var d :| d in p.graph[i] && !Settled(s, d);
      assert Edge(p.graph, d, i);
      assert NodeOk(p, s, d);
      j := FindReady(p, rank, s, d);
    }
  }

  /** Everything is over: all attached, all continuations through, the wait has returned. */
  ghost predicate Finished(p: Plan, s: State) {
    && s.registered == |p.graph|
    && s.woken
    && |s.nodes| == |p.graph|
    && forall i: nat :: i < |p.graph| ==> s.nodes[i].phase == Done
  }

  /** No deadlock: unless everything is over, some step is enabled. */
  lemma Progress(p: Plan, rank: seq<nat>, s: State) returns (step: Step)
    requires ValidPlan(p) && Ranks(p.graph, rank) && Inv(p, s)
    requires !Finished(p, s)
    ensures Enabled(p, s, step)
  {
    if s.registered < |p.graph| {
      step := Register;
    } else if i: nat :| i < |p.graph| && s.nodes[i].phase == Executing {
      step := Finish(i);
    } else if i: nat :| i < |p.graph| && s.nodes[i].phase == Owing {
      step := Record(i);
    } else {
      BusyZero(s.nodes);
      if i: nat :| i < |p.graph| && s.nodes[i].phase == Thrown {
        step := Handle(i);
      } else if i: nat :| i < |p.graph| && s.nodes[i].phase == Waiting {
        forall k: nat | k < |p.graph|
          ensures s.nodes[k].phase == Waiting || Settled(s, k)
        {
          assert NodeOk(p, s, k);
        }
        var j := FindReady(p, rank, s, i);
        step := if DepBroken(p, s, j) then Skip(j) else Start(j);
      } else {
        step := Wake;
        assert NodeOk(p, s, Sink(p));
      }
    }
  }

  lemma QuiescentIffFinished(p: Plan, s: State)
    requires ValidPlan(p) && Acyclic(p.graph) && Inv(p, s)
    ensures Quiescent(p, s) <==> Finished(p, s)
  {
    if !Finished(p, s) {
      var rank :| Ranks(p.graph, rank);
      var step := Progress(p, rank, s);
    }
  }

  // ---- Termination ------------------------------------------------------------

  function Weight(n: Node): nat {
    match n.phase
    case Waiting => 4
    case Executing => 3
    case Thrown => 2
    case Owing => 1
    case Done => 0
  }

  function Weights(nodes: seq<Node>): (w: nat) {
    if nodes == [] then 0 else Weight(nodes[0]) + Weights(nodes[1..])
  }

  lemma {:induction false} WeightsUpdate(nodes: seq<Node>, i: nat, n: Node)
    requires i < |nodes|
    ensures Weights(nodes[i := n]) == Weights(nodes) - Weight(nodes[i]) + Weight(n)
  {
    if i > 0 {
      WeightsUpdate(nodes[1..], i - 1, n);
      assert nodes[i := n][1..] == nodes[1..][i - 1 := n];
    } else {
      assert nodes[i := n][1..] == nodes[1..];
    }
  }

  function Measure(p: Plan, s: State): int {
    Weights(s.nodes) + (|p.graph| - s.registered) + (if s.woken then 0 else 1)
  }

  lemma {:induction false} FreshWeights(n: nat)
    ensures Weights(seq(n, _ => FRESH)) == 4 * n
  {
    if n > 0 {
      assert seq(n, _ => FRESH)[1..] == seq(n - 1, _ => FRESH);
      FreshWeights(n - 1);
    }
  }

  lemma StepFalls(p: Plan, s: State, step: Step)
    requires Inv(p, s) && Enabled(p, s, step)
    ensures Measure(p, Apply(p, s, step)) < Measure(p, s)
  {
    var i := Target(step);
    if i >= 0 {
      WeightsUpdate(s.nodes, i, Apply(p, s, step).nodes[i]);
    }
  }

  lemma {:induction false} RunFalls(p: Plan, tr: seq<State>, k: nat)
    requires ValidPlan(p) && Run(p, tr) && k < |tr|
    ensures 0 <= Measure(p, tr[k]) <= 5 * |p.graph| + 1 - k
  {
    RunKeepsInv(p, tr, k);
    if k == 0 {
      FreshWeights(|p.graph|);
    } else {
      RunFalls(p, tr, k - 1);
      RunKeepsInv(p, tr, k - 1);
      assert Next(p, tr[k - 1], tr[k - 1 + 1]);
      var step :| Enabled(p, tr[k - 1], step) && tr[k] == Apply(p, tr[k - 1], step);
      StepFalls(p, tr[k - 1], step);
    }
  }

  /** Every run is finite, with a bound known before it starts. */
  lemma RunsTerminate(p: Plan, tr: seq<State>)
    requires ValidPlan(p) && Run(p, tr)
    ensures |tr| <= 5 * |p.graph| + 2
  {
    RunFalls(p, tr, |tr| - 1);
  }

  lemma RunExtends(p: Plan, tr: seq<State>, step: Step) returns (tr': seq<State>)
    requires Run(p, tr)
    requires |tr[|tr| - 1].nodes| == |p.graph| == |p.outcomes| && |p.graph| >= 2 && Enabled(p, tr[|tr| - 1], step)
    ensures tr' == tr + [Apply(p, tr[|tr| - 1], step)] && Run(p, tr')
  {
    tr' := tr + [Apply(p, tr[|tr| - 1], step)];
    forall k | 0 <= k < |tr'| - 1
      ensures Next(p, tr'[k], tr'[k + 1])
    {
      if k < |tr| - 1 {
        assert Next(p, tr[k], tr[k + 1]);
      }
    }
  }

  /** A run that can go no further. */
  ghost predicate CompleteRun(p: Plan, tr: seq<State>) {
    && Run(p, tr)
    && |tr[|tr| - 1].nodes| == |p.graph| && |p.outcomes| == |p.graph| && |p.graph| >= 2
    && Quiescent(p, tr[|tr| - 1])
  }

  /** Every partial run can be carried on to a complete one: nothing ever gets stuck half way. */
  lemma {:induction false} RunsComplete(p: Plan, tr: seq<State>) returns (tr': seq<State>)
    requires ValidPlan(p) && Acyclic(p.graph) && Run(p, tr)
    ensures tr <= tr' && CompleteRun(p, tr')
    decreases Measure(p, tr[|tr| - 1])
  {
    var s := tr[|tr| - 1];
    RunKeepsInv(p, tr, |tr| - 1);
    RunFalls(p, tr, |tr| - 1);
    if Finished(p, s) {
      QuiescentIffFinished(p, s);
      tr' := tr;
    } else {
      var rank :| Ranks(p.graph, rank);
      var step := Progress(p, rank, s);
      StepFalls(p, s, step);
      tr' := RunExtends(p, tr, step);
      tr' := RunsComplete(p, tr');
    }
  }

  // ---- Confluence ---------------------------------------------------------------

  /** Every complete interleaving ends with every action in the record its ancestry fixes. */
  lemma CompleteRunsEndAlike(p: Plan, tr: seq<State>)
    requires ValidPlan(p) && Acyclic(p.graph) && CompleteRun(p, tr)
    ensures Finished(p, tr[|tr| - 1])
    ensures forall i: nat :: i < |p.graph| ==> tr[|tr| - 1].nodes[i] == Final(p, i)
  {
    var s := tr[|tr| - 1];
    RunKeepsInv(p, tr, |tr| - 1);
    QuiescentIffFinished(p, s);
    var rank :| Ranks(p.graph, rank);
    forall i: nat | i < |p.graph|
      ensures s.nodes[i] == Final(p, i)
    {
      DoneIsFinal(p, rank, s, i);
    }
  }

  lemma PlanStatusAtEnd(p: Plan, tr: seq<State>)
    requires ValidPlan(p) && Acyclic(p.graph) && CompleteRun(p, tr)
    ensures tr[|tr| - 1].failed <==>
            exists i: nat :: i < |p.graph| && !AllAncestorsOk(p, i) && (!DependeesOk(p, i) || p.outcomes[i] == Throws)
  {
    var s := tr[|tr| - 1];
    RunKeepsInv(p, tr, |tr| - 1);
    CompleteRunsEndAlike(p, tr);
    forall i: nat | i < |p.graph| && s.nodes[i].status == FAILED
      ensures Reported(p, s, i) <==> (!DependeesOk(p, i) || p.outcomes[i] == Throws)
    {
      assert NodeOk(p, s, i);
      assert s.nodes[i] == Final(p, i);
    }
    if s.failed {
      var i: nat :| i < |p.graph| && s.nodes[i].status == FAILED && Reported(p, s, i);
      assert s.nodes[i] == Final(p, i);
    }
    if i: nat :| i < |p.graph| && !AllAncestorsOk(p, i) && (!DependeesOk(p, i) || p.outcomes[i] == Throws) {
      assert s.nodes[i] == Final(p, i);
      assert NodeOk(p, s, i);
    }
  }

  /** Confluence: for fixed outcomes any two complete interleavings agree on every action and on the
      status of the plan. */
  lemma Confluence(p: Plan, tr1: seq<State>, tr2: seq<State>)
    requires ValidPlan(p) && Acyclic(p.graph) && CompleteRun(p, tr1) && CompleteRun(p, tr2)
    ensures tr1[|tr1| - 1].nodes == tr2[|tr2| - 1].nodes
    ensures tr1[|tr1| - 1].failed == tr2[|tr2| - 1].failed
  {
    CompleteRunsEndAlike(p, tr1);
    CompleteRunsEndAlike(p, tr2);
    PlanStatusAtEnd(p, tr1);
    PlanStatusAtEnd(p, tr2);
    var s1, s2 := tr1[|tr1| - 1], tr2[|tr2| - 1];
    forall i | 0 <= i < |p.graph|
      ensures s1.nodes[i] == s2.nodes[i]
    {
      assert s1.nodes[i] == Final(p, i) == s2.nodes[i];
    }
  }

  // ---- The status of the plan and its report ---------------------------------------

  /** At quiescence the plan is FAILED exactly when an action other than the sink FAILED or the body
      of the sink threw. */
  lemma PlanStatusExact(g: Graph, p: Plan, tr: seq<State>)
    requires Scheduled(g, p) && CompleteRun(p, tr)
    ensures var s := tr[|tr| - 1];
            s.failed <==> || (exists i: nat :: i < |p.graph| && i != Sink(p) && s.nodes[i].status == FAILED)
                          || (s.nodes[Sink(p)].runs == 1 && p.outcomes[Sink(p)] == Throws)
  {
    var s := tr[|tr| - 1];
    var rank := ScheduledIsValid(g, p);
    RunKeepsInv(p, tr, |tr| - 1);
    CompleteRunsEndAlike(p, tr);
    var sink: nat := Sink(p);
    assert NodeOk(p, s, sink);
    if i: nat :| i < |p.graph| && i != sink && s.nodes[i].status == FAILED {
      assert NodeOk(p, s, i);
      assert !IsLeaf(p.graph, i);
      var j: nat :| j < |p.graph| && i in p.graph[j];
      assert NodeOk(p, s, j);
      assert Broke(s, i);
    }
    if s.failed {
      var i: nat :| i < |p.graph| && s.nodes[i].status == FAILED && Reported(p, s, i);
      if i == sink && DepBroken(p, s, sink) {
        var d :| d in p.graph[sink] && Broke(s, d);
        assert Edge(p.graph, d, sink);
        assert NodeOk(p, s, d);
      }
    }
  }

  lemma {:induction false} ReachesAlong(g: Graph, a: nat, q: seq<nat>)
    requires Path(g, q) && Reaches(g, a, q[0])
    ensures Reaches(g, a, q[|q| - 1])
    decreases |q|
  {
    if |q| > 1 {
      assert Edge(g, q[0], q[0 + 1]);
      ReachesStep(g, a, q[0], q[1]);
      var r := PathSuffix(g, q);
      ReachesAlong(g, a, r);
    }
  }

  lemma {:induction false} ReachesTransitive(g: Graph, a: nat, b: nat, c: nat)
    requires Reaches(g, a, b) && Reaches(g, b, c)
    ensures Reaches(g, a, c)
  {
    var q :| Path(g, q) && q[0] == b && q[|q| - 1] == c;
    ReachesAlong(g, a, q);
  }

  /** When the sink's body is entered, the plan's status is still SUCCEEDED. */
  lemma SinkStartsClean(g: Graph, p: Plan, s: State)
    requires Scheduled(g, p) && Inv(p, s) && Enabled(p, s, Start(Sink(p)))
    ensures !s.failed
  {
    var rank := ScheduledIsValid(g, p);
    var sink: nat := Sink(p);
    if s.failed {
      var i: nat :| i < |p.graph| && s.nodes[i].status == FAILED && Reported(p, s, i);
      assert NodeOk(p, s, i);
      assert NodeOk(p, s, sink);
      assert Reaches(p.graph, i, sink);
      LastStep(p.graph, i, sink);
      var d :| d in p.graph[sink] && Reaches(p.graph, i, d);
      assert Edge(p.graph, d, sink);
      assert Settled(s, d) && !Broke(s, d);
      FateDecides(p, rank, s, d);
      FateDecides(p, rank, s, i);
      forall a: nat | a < |p.outcomes| && Reaches(p.graph, a, i)
        ensures p.outcomes[a] == ReturnsOk
      {
        ReachesTransitive(p.graph, a, i, d);
      }
      assert false;
    }
  }

  lemma StepKeepsFirstReport(g: Graph, p: Plan, s: State, step: Step)
    requires Scheduled(g, p) && Inv(p, s) && Enabled(p, s, step)
    requires s.nodes[Sink(p)].runs == 1 ==> |s.reports| > 0 && s.reports[0]
    ensures var s' := Apply(p, s, step); s'.nodes[Sink(p)].runs == 1 ==> |s'.reports| > 0 && s'.reports[0]
  {
    var sink: nat := Sink(p);
    assert NodeOk(p, s, sink);
    if step == Start(sink) {
      SinkStartsClean(g, p, s);
    }
  }

  lemma {:induction false} FirstReportPassed(g: Graph, p: Plan, tr: seq<State>, k: nat)
    requires Scheduled(g, p) && Run(p, tr) && k < |tr|
    ensures |tr[k].nodes| == |p.graph|
    ensures tr[k].nodes[Sink(p)].runs == 1 ==> |tr[k].reports| > 0 && tr[k].reports[0]
  {
    var rank := ScheduledIsValid(g, p);
    RunKeepsInv(p, tr, k);
    if k > 0 {
      FirstReportPassed(g, p, tr, k - 1);
      RunKeepsInv(p, tr, k - 1);
      assert Next(p, tr[k - 1], tr[k - 1 + 1]);
      var step :| Enabled(p, tr[k - 1], step) && tr[k] == Apply(p, tr[k - 1], step);
      StepKeepsFirstReport(g, p, tr[k - 1], step);
    }
  }

  /** The report task is executed exactly once, or exactly twice when its own first execution failed;
      an execution as an action of the plan always reports success, and then everything else did
      succeed. */
  lemma ReportsExact(g: Graph, p: Plan, tr: seq<State>)
    requires Scheduled(g, p) && CompleteRun(p, tr)
    ensures var s := tr[|tr| - 1]; var sink := s.nodes[Sink(p)];
            && |s.reports| == (if sink.runs == 1 && sink.status == FAILED then 2 else 1)
            && (sink.runs == 1 ==> s.reports[0]
                                   && forall i: nat :: i < |p.graph| && i != Sink(p) ==> s.nodes[i].status == SUCCEEDED)
  {
    var s := tr[|tr| - 1];
    var rank := ScheduledIsValid(g, p);
    RunKeepsInv(p, tr, |tr| - 1);
    CompleteRunsEndAlike(p, tr);
    FirstReportPassed(g, p, tr, |tr| - 1);
    var sink: nat := Sink(p);
    assert NodeOk(p, s, sink);
    if s.nodes[sink].runs == 1 {
      forall i: nat | i < |p.graph| && i != sink
        ensures s.nodes[i].status == SUCCEEDED
      {
        assert Reaches(p.graph, i, sink);
        LastStep(p.graph, i, sink);
        var d :| d in p.graph[sink] && Reaches(p.graph, i, d);
        assert AllAncestorsOk(p, d) by {
          assert s.nodes[sink] == Final(p, sink);
          FateUnfolds(p, sink);
        }
        forall a: nat | a < |p.outcomes| && Reaches(p.graph, a, i)
          ensures p.outcomes[a] == ReturnsOk
        {
          ReachesTransitive(p.graph, a, i, d);
        }
        assert s.nodes[i] == Final(p, i);
      }
    }
  }

  // ---- Reachable states ---------------------------------------------------------

  ghost predicate Reachable(p: Plan, s: State) {
    exists tr :: Run(p, tr) && tr[|tr| - 1] == s
  }

  lemma InitialReachable(p: Plan)
    ensures Reachable(p, Initial(p))
  {
    var tr := [Initial(p)];
    assert Run(p, tr) && tr[|tr| - 1] == Initial(p);
  }

  lemma ReachableStep(p: Plan, s: State, step: Step, s': State)
    requires Reachable(p, s)
    requires |s.nodes| == |p.graph| == |p.outcomes| && |p.graph| >= 2
    requires Enabled(p, s, step) && s' == Apply(p, s, step)
    ensures Reachable(p, s')
  {
    var tr :| Run(p, tr) && tr[|tr| - 1] == s;
    var tr' := RunExtends(p, tr, step);
    assert Run(p, tr') && tr'[|tr'| - 1] == s';
  }

  // ---- Runs from proposed steps ---------------------------------------------------

  lemma CarriedStep(p: Plan, s: State, picks: seq<Step>, step: Step)
    requires |s.nodes| == |p.graph| && |p.outcomes| == |p.graph| && |p.graph| >= 2
    ensures Carried(p, s, picks + [step]) == Offered(p, Carried(p, s, picks), step)
  {
    assert (picks + [step])[..|picks|] == picks;
  }

  /** Proposed steps, whatever they are, lead to a reachable state. */
  lemma {:induction false} CarriedReachable(p: Plan, picks: seq<Step>)
    requires ValidPlan(p)
    ensures Reachable(p, Carried(p, Initial(p), picks)) && Inv(p, Carried(p, Initial(p), picks))
  {
    hide Reachable, Inv;
    if picks == [] {
      InitialReachable(p);
      InitialInv(p);
    } else {
      var front := picks[..|picks| - 1];
      var s, step := Carried(p, Initial(p), front), picks[|picks| - 1];
      CarriedReachable(p, front);
      if Enabled(p, s, step) {
        ReachableStep(p, s, step, Apply(p, s, step));
        StepKeepsInv(p, s, step);
      }
    }
  }

  /** Every run can be proposed, and is then taken step for step. */
  lemma {:induction false} RunIsCarried(p: Plan, tr: seq<State>) returns (picks: seq<Step>)
    requires ValidPlan(p) && Run(p, tr)
    ensures |picks| == |tr| - 1
    ensures forall k :: 0 <= k < |tr| ==> Carried(p, Initial(p), picks[..k]) == tr[k]
    decreases |tr|
  {
    if |tr| == 1 {
      picks := [];
    } else {
      var front := tr[..|tr| - 1];
      forall k | 0 <= k < |front| - 1
        ensures Next(p, front[k], front[k + 1])
      {
        assert Next(p, tr[k], tr[k + 1]);
      }
      var before := RunIsCarried(p, front);
      var s := tr[|tr| - 2];
      assert Next(p, s, tr[|tr| - 2 + 1]);
      var step :| Enabled(p, s, step) && tr[|tr| - 1] == Apply(p, s, step);
      picks := before + [step];
      assert before[..|before|] == before && picks[..|picks|] == picks;
      CarriedStep(p, Initial(p), before, step);
      forall k | 0 <= k < |tr|
        ensures Carried(p, Initial(p), picks[..k]) == tr[k]
      {
        if k < |front| {
          assert picks[..k] == before[..k];
          assert tr[k] == front[k];
        }
      }
    }
  }

  /** If nothing is possible after the proposed steps, everything is over: the wait has returned, and each
      action has the one record its ancestry fixes. */
  lemma CarriedToTheEnd(p: Plan, picks: seq<Step>)
    requires ValidPlan(p) && Acyclic(p.graph) && Quiescent(p, Carried(p, Initial(p), picks))
    ensures Finished(p, Carried(p, Initial(p), picks))
    ensures forall i: nat :: i < |p.graph| ==> Carried(p, Initial(p), picks).nodes[i] == Final(p, i)
  {
    hide Inv, Enabled;
    var s := Carried(p, Initial(p), picks);
    CarriedReachable(p, picks);
    var tr :| Run(p, tr) && tr[|tr| - 1] == s;
    CompleteRunsEndAlike(p, tr);
  }

  /** Some proposed steps do lead there, and no more than 5n + 1 are needed. */
  lemma SomePicksComplete(p: Plan) returns (picks: seq<Step>)
    requires ValidPlan(p) && Acyclic(p.graph)
    ensures |picks| <= 5 * |p.graph| + 1 && Quiescent(p, Carried(p, Initial(p), picks))
  {
    var tr := RunsComplete(p, [Initial(p)]);
    RunsTerminate(p, tr);
    picks := RunIsCarried(p, tr);
    assert picks[..|tr| - 1] == picks;
  }
}
