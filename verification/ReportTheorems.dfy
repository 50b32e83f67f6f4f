/** When the report of a plan contradicts the plan. */
module ReportTheorems {
  import opened ActionGraph
  import opened ActionStatus
  import opened PlanSchedule
  import opened PlanTheorems

  /** The failure of `i` is one whose continuation fulfils the promise first and writes the plan's
      status afterwards: `i` is skipped, or its body throws. */
  ghost predicate WritesLate(p: Plan, i: nat)
    requires i < |p.graph| == |p.outcomes|
  {
    !AllAncestorsOk(p, i) && (!DependeesOk(p, i) || p.outcomes[i] == Throws)
  }

  ghost function LateWriters(p: Plan): (marks: seq<bool>)
    requires |p.graph| == |p.outcomes|
    ensures |marks| == |p.graph|
    ensures forall i :: 0 <= i < |marks| ==> (marks[i] <==> WritesLate(p, i))
  {
    seq(|p.graph|, i requires 0 <= i < |p.graph| => WritesLate(p, i))
  }

  function Count(marks: seq<bool>): (c: nat) {
    if marks == [] then 0 else (if marks[0] then 1 else 0) + Count(marks[1..])
  }

  /** The last report says the opposite of the plan's status. */
  ghost predicate LastReportWrong(s: State) {
    s.reports != [] && s.reports[|s.reports| - 1] == s.failed
  }

  // ---- Counting ------------------------------------------------------------------

  lemma {:induction false} CountPositive(marks: seq<bool>)
    ensures Count(marks) > 0 <==> exists i :: 0 <= i < |marks| && marks[i]
  {
    if marks != [] {
      CountPositive(marks[1..]);
      if i :| 0 <= i < |marks| && marks[i] {
        assert i > 0 ==> marks[1..][i - 1];
      }
      if i :| 0 <= i < |marks| - 1 && marks[1..][i] {
        assert marks[i + 1];
      }
    }
  }

  /** At least the marked nodes occupy a worker. */
  lemma {:induction false} BusyAtLeast(nodes: seq<Node>, marks: seq<bool>)
    requires |nodes| == |marks| && forall i :: 0 <= i < |marks| && marks[i] ==> Occupies(nodes[i])
    ensures Count(marks) <= Busy(nodes)
  {
    if marks != [] {
      BusyAtLeast(nodes[1..], marks[1..]);
    }
  }

  /** At most the marked nodes occupy a worker, and the marked node `e` does not. */
  lemma {:induction false} BusyBelow(nodes: seq<Node>, marks: seq<bool>, e: nat)
    requires |nodes| == |marks| && forall i :: 0 <= i < |marks| && Occupies(nodes[i]) ==> marks[i]
    ensures Busy(nodes) <= Count(marks)
    ensures e < |marks| && marks[e] && !Occupies(nodes[e]) ==> Busy(nodes) < Count(marks)
  {
    if marks != [] {
      BusyBelow(nodes[1..], marks[1..], if e > 0 then e - 1 else |marks|);
    }
  }

  // ---- Late writers in a reachable state --------------------------------------------

  lemma DependeesDecide(p: Plan, rank: seq<nat>, s: State, i: nat)
    requires ValidPlan(p) && Ranks(p.graph, rank) && Inv(p, s)
    requires i < |p.graph| && DepsSettled(p, s, i)
    ensures DepBroken(p, s, i) <==> !DependeesOk(p, i)
  {
    forall d | d in p.graph[i]
      ensures Broke(s, d) <==> !AllAncestorsOk(p, d)
    {
      assert Settled(s, d);
      FateDecides(p, rank, s, d);
    }
    if !DependeesOk(p, i) {
      var d :| d in p.graph[i] && !AllAncestorsOk(p, d);
      assert Broke(s, d);
    }
  }

  /** Among the settled actions the late writers are the reported failures. */
  lemma LateIsReported(p: Plan, rank: seq<nat>, s: State, i: nat)
    requires ValidPlan(p) && Ranks(p.graph, rank) && Inv(p, s) && Settled(s, i)
    ensures WritesLate(p, i) <==> s.nodes[i].status == FAILED && Reported(p, s, i)
  {
    assert NodeOk(p, s, i);
    DependeesDecide(p, rank, s, i);
    FateDecides(p, rank, s, i);
  }

  lemma FailedMeansLate(p: Plan, rank: seq<nat>, s: State)
    requires ValidPlan(p) && Ranks(p.graph, rank) && Inv(p, s) && s.failed
    ensures Count(LateWriters(p)) > 0
  {
    var i: nat :| i < |p.graph| && s.nodes[i].status == FAILED && Reported(p, s, i);
    assert NodeOk(p, s, i);
    LateIsReported(p, rank, s, i);
    assert LateWriters(p)[i];
    CountPositive(LateWriters(p));
  }

  /** If any action writes late, so does the sink, which descends from all of them. */
  lemma SinkWritesLate(g: Graph, p: Plan)
    requires Scheduled(g, p) && Count(LateWriters(p)) > 0
    ensures WritesLate(p, Sink(p))
  {
    var rank := ScheduledIsValid(g, p);
    CountPositive(LateWriters(p));
    var i: nat :| i < |p.graph| && LateWriters(p)[i];
    var sink: nat := Sink(p);
    if i != sink {
      assert Reaches(p.graph, i, sink);
      LastStep(p.graph, i, sink);
      var d :| d in p.graph[sink] && Reaches(p.graph, i, d);
      var a: nat :| a < |p.outcomes| && Reaches(p.graph, a, i) && p.outcomes[a] != ReturnsOk;
      ReachesTransitive(p.graph, a, i, d);
      assert !AllAncestorsOk(p, d);
      FateUnfolds(p, sink);
    }
  }

  // ---- A wrong report needs enough workers ---------------------------------------------

  /** If the wait returns before anything wrote the status, all late writers are between their two
      writes at that moment, each on a worker of its own. */
  lemma EarlyWakeIsCrowded(g: Graph, p: Plan, s: State)
    requires Scheduled(g, p) && Inv(p, s) && Enabled(p, s, Wake) && !s.failed
    ensures Count(LateWriters(p)) <= p.workers
  {
    var rank := ScheduledIsValid(g, p);
    forall i | 0 <= i < |p.graph| && LateWriters(p)[i]
      ensures Occupies(s.nodes[i])
    {
      assert Reaches(p.graph, i, Sink(p));
      var q :| Path(p.graph, q) && q[0] == i && q[|q| - 1] == Sink(p);
      SettledBackwards(p, s, i, Sink(p), q);
      LateIsReported(p, rank, s, i);
      assert NodeOk(p, s, i);
    }
    BusyAtLeast(s.nodes, LateWriters(p));
  }

  /** What the reports of a run say, in terms of the late writers alone. */
  ghost predicate ReportsExplained(p: Plan, s: State)
    requires |p.graph| == |p.outcomes|
  {
    && (Count(LateWriters(p)) == 0 ==> forall k :: 0 <= k < |s.reports| ==> s.reports[k])
    && (s.woken && Count(LateWriters(p)) > p.workers ==> s.reports != [] && !s.reports[|s.reports| - 1])
  }

  lemma StepExplained(g: Graph, p: Plan, s: State, step: Step)
    requires Scheduled(g, p) && Inv(p, s) && Enabled(p, s, step) && ReportsExplained(p, s)
    ensures ReportsExplained(p, Apply(p, s, step))
  {
    hide LateWriters, Count, SingleSourceSink, Ranks;
    var rank := ScheduledIsValid(g, p);
    var sink: nat := Sink(p);
    assert NodeOk(p, s, sink);
    if s.failed {
      FailedMeansLate(p, rank, s);
    }
    if step == Wake && Count(LateWriters(p)) > p.workers {
      SinkWritesLate(g, p);
      LateIsReported(p, rank, s, sink);
      if !s.failed {
        EarlyWakeIsCrowded(g, p, s);
      }
    }
  }

  lemma {:induction false} RunExplained(g: Graph, p: Plan, tr: seq<State>, k: nat)
    requires Scheduled(g, p) && Run(p, tr) && k < |tr|
    ensures ReportsExplained(p, tr[k])
  {
    if k > 0 {
      var rank := ScheduledIsValid(g, p);
      RunExplained(g, p, tr, k - 1);
      RunKeepsInv(p, tr, k - 1);
      assert Next(p, tr[k - 1], tr[k - 1 + 1]);
      var step :| Enabled(p, tr[k - 1], step) && tr[k] == Apply(p, tr[k - 1], step);
      StepExplained(g, p, tr[k - 1], step);
    }
  }

  lemma LateMeansFailed(p: Plan, rank: seq<nat>, s: State)
    requires ValidPlan(p) && Ranks(p.graph, rank) && Inv(p, s) && Finished(p, s)
    ensures Count(LateWriters(p)) > 0 ==> s.failed
  {
    CountPositive(LateWriters(p));
    if i: nat :| i < |p.graph| && LateWriters(p)[i] {
      assert NodeOk(p, s, i);
      LateIsReported(p, rank, s, i);
    }
  }

  /** A contradicting report takes a late writer, and no more of them than the pool has workers. */
  lemma WrongReportNeeds(g: Graph, p: Plan, tr: seq<State>)
    requires Scheduled(g, p) && CompleteRun(p, tr) && LastReportWrong(tr[|tr| - 1])
    ensures 1 <= Count(LateWriters(p)) <= p.workers
  {
    var s := tr[|tr| - 1];
    var rank := ScheduledIsValid(g, p);
    RunExplained(g, p, tr, |tr| - 1);
    RunKeepsInv(p, tr, |tr| - 1);
    QuiescentIffFinished(p, s);
    if s.failed {
      FailedMeansLate(p, rank, s);
    } else {
      LateMeansFailed(p, rank, s);
    }
  }

  // ---- With enough workers there is a wrong report -----------------------------------------

  /** Everything is attached, nothing has written the plan's status, and every continuation that
      began is either through or between its two writes. */
  ghost predicate Silent(p: Plan, s: State) {
    && s.registered == |p.graph| && !s.failed && !s.woken && |s.nodes| == |p.graph|
    && forall i: nat :: i < |p.graph| ==>
         s.nodes[i].phase == Waiting || s.nodes[i].phase == Owing || s.nodes[i].phase == Done
  }

  lemma WorkerIsFree(g: Graph, p: Plan, s: State)
    requires Scheduled(g, p) && Inv(p, s) && !s.failed && 1 <= Count(LateWriters(p)) <= p.workers
    requires forall i: nat :: i < |p.graph| && Occupies(s.nodes[i]) ==> s.nodes[i].phase == Owing
    requires !Settled(s, Sink(p))
    ensures Busy(s.nodes) < p.workers
  {
    var rank := ScheduledIsValid(g, p);
    SinkWritesLate(g, p);
    forall i | 0 <= i < |p.graph| && Occupies(s.nodes[i])
      ensures LateWriters(p)[i]
    {
      assert NodeOk(p, s, i);
      LateIsReported(p, rank, s, i);
    }
    assert NodeOk(p, s, Sink(p));
    BusyBelow(s.nodes, LateWriters(p), Sink(p));
  }

  lemma AppendStep(p: Plan, tr: seq<State>, step: Step) returns (tr': seq<State>)
    requires ValidPlan(p) && Run(p, tr) && Inv(p, tr[|tr| - 1]) && Enabled(p, tr[|tr| - 1], step)
    ensures Run(p, tr') && |tr'| > 0 && tr'[|tr'| - 1] == Apply(p, tr[|tr| - 1], step) && Inv(p, tr'[|tr'| - 1])
  {
    tr' := RunExtends(p, tr, step);
    StepKeepsInv(p, tr[|tr| - 1], step);
  }

  /** `s'` differs from `s` in the continuation of `j` only, which is now in the given phase. */
  ghost predicate Carried(p: Plan, s: State, s': State, j: nat, phase: Phase) {
    && |s'.nodes| == |s.nodes| == |p.graph| && j < |s.nodes|
    && s' == s.(nodes := s'.nodes, reports := s'.reports)
    && s'.nodes[j].phase == phase
    && forall i: nat :: i < |p.graph| && i != j ==> s'.nodes[i] == s.nodes[i]
  }

  lemma InvGives(p: Plan, s: State)
    requires Inv(p, s)
    ensures Shaped(p, s)
  {
  }

  lemma CarryBody(p: Plan, tr: seq<State>, j: nat) returns (tr': seq<State>)
    requires ValidPlan(p) && Run(p, tr) && |tr| > 0 && Inv(p, tr[|tr| - 1]) && Enabled(p, tr[|tr| - 1], Start(j))
    ensures Run(p, tr') && |tr'| > 0 && Inv(p, tr'[|tr'| - 1])
    ensures Carried(p, tr[|tr| - 1], tr'[|tr'| - 1], j, if p.outcomes[j] == Throws then Thrown else Done)
  {
    hide Inv, Run;
    InvGives(p, tr[|tr| - 1]);
    tr' := AppendStep(p, tr, Start(j));
    tr' := AppendStep(p, tr', Finish(j));
  }

  lemma SilentAgain(p: Plan, s: State, s': State, j: nat)
    requires Silent(p, s) && (Carried(p, s, s', j, Owing) || Carried(p, s, s', j, Done))
    ensures Silent(p, s')
  {
  }

  lemma SinkStillOpen(p: Plan, s: State, s1: State, j: nat)
    requires Inv(p, s1) && !Settled(s, Sink(p)) && Carried(p, s, s1, j, Thrown)
    ensures !Settled(s1, Sink(p))
  {
    assert NodeOk(p, s1, Sink(p));
    assert NodeOk(p, s1, j);
  }

  /** One ready continuation is carried on to its end, or up to between its two writes. */
  lemma RunSilently(g: Graph, p: Plan, tr: seq<State>, j: nat) returns (tr': seq<State>)
    requires Scheduled(g, p) && Run(p, tr) && |tr| > 0 && 1 <= Count(LateWriters(p)) <= p.workers
    requires Inv(p, tr[|tr| - 1]) && Silent(p, tr[|tr| - 1]) && !Settled(tr[|tr| - 1], Sink(p))
    requires j < |p.graph| && tr[|tr| - 1].nodes[j].phase == Waiting && DepsSettled(p, tr[|tr| - 1], j)
    ensures Run(p, tr') && |tr'| > 0 && Inv(p, tr'[|tr'| - 1])
    ensures var s, s' := tr[|tr| - 1], tr'[|tr'| - 1]; Carried(p, s, s', j, Owing) || Carried(p, s, s', j, Done)
  {
    hide Inv, Run, Scheduled, LateWriters, DepsSettled, DepBroken, NodeOk;
    var s := tr[|tr| - 1];
    InvGives(p, s);
    var rank := ScheduledIsValid(g, p);
    WorkerIsFree(g, p, s);
    if DepBroken(p, s, j) {
      tr' := AppendStep(p, tr, Skip(j));
      assert Carried(p, s, tr'[|tr'| - 1], j, Owing);
    } else {
      tr' := CarryBody(p, tr, j);
      if p.outcomes[j] == Throws {
        var s1 := tr'[|tr'| - 1];
        SinkStillOpen(p, s, s1, j);
        WorkerIsFree(g, p, s1);
        tr' := AppendStep(p, tr', Handle(j));
        assert Carried(p, s, tr'[|tr'| - 1], j, Owing);
      }
    }
  }

  function WaitingCount(nodes: seq<Node>): (c: nat) {
    if nodes == [] then 0 else (if nodes[0].phase == Waiting then 1 else 0) + WaitingCount(nodes[1..])
  }

  lemma {:induction false} WaitingFalls(nodes: seq<Node>, nodes': seq<Node>, j: nat)
    requires |nodes| == |nodes'| && j < |nodes| && nodes[j].phase == Waiting && nodes'[j].phase != Waiting
    requires forall i :: 0 <= i < |nodes| && i != j ==> nodes'[i] == nodes[i]
    ensures WaitingCount(nodes') < WaitingCount(nodes)
  {
    if j == 0 {
      assert nodes'[1..] == nodes[1..];
    } else {
      WaitingFalls(nodes[1..], nodes'[1..], j - 1);
    }
  }

  lemma SilentIsSettled(p: Plan, s: State)
    requires Inv(p, s) && Silent(p, s)
    ensures forall k: nat :: k < |p.graph| ==> s.nodes[k].phase == Waiting || Settled(s, k)
  {
    forall k: nat | k < |p.graph|
      ensures s.nodes[k].phase == Waiting || Settled(s, k)
    {
      assert NodeOk(p, s, k);
    }
  }

  /** All continuations are carried on in an order the graph allows, until the sink's is. */
  lemma {:induction false} SilenceToTheSink(g: Graph, p: Plan, tr: seq<State>) returns (tr': seq<State>)
    requires Scheduled(g, p) && Run(p, tr) && 1 <= Count(LateWriters(p)) <= p.workers
    requires Inv(p, tr[|tr| - 1]) && Silent(p, tr[|tr| - 1])
    ensures Run(p, tr') && |tr'| > 0
    ensures Inv(p, tr'[|tr'| - 1]) && Silent(p, tr'[|tr'| - 1]) && Settled(tr'[|tr'| - 1], Sink(p))
    decreases WaitingCount(tr[|tr| - 1].nodes)
  {
    var s := tr[|tr| - 1];
    if Settled(s, Sink(p)) {
      tr' := tr;
    } else {
      var rank := ScheduledIsValid(g, p);
      assert NodeOk(p, s, Sink(p));
      SilentIsSettled(p, s);
      var j := FindReady(p, rank, s, Sink(p));
      tr' := RunSilently(g, p, tr, j);
      SilentAgain(p, s, tr'[|tr'| - 1], j);
      WaitingFalls(s.nodes, tr'[|tr'| - 1].nodes, j);
      tr' := SilenceToTheSink(g, p, tr');
    }
  }

  lemma {:induction false} RegisterAll(p: Plan, tr: seq<State>) returns (tr': seq<State>)
    requires ValidPlan(p) && Run(p, tr)
    requires tr[|tr| - 1] == Initial(p).(registered := tr[|tr| - 1].registered) && Inv(p, tr[|tr| - 1])
    ensures Run(p, tr') && |tr'| > 0 && tr'[|tr'| - 1] == Initial(p).(registered := |p.graph|) && Inv(p, tr'[|tr'| - 1])
    decreases |p.graph| - tr[|tr| - 1].registered
  {
    if tr[|tr| - 1].registered == |p.graph| {
      tr' := tr;
    } else {
      tr' := AppendStep(p, tr, Register);
      tr' := RegisterAll(p, tr');
    }
  }

  /** Once the wait has returned, the reports are final. */
  lemma {:induction false} ReportsStay(p: Plan, tr: seq<State>, k: nat, m: nat)
    requires ValidPlan(p) && Run(p, tr) && k <= m < |tr| && tr[k].woken
    ensures tr[m].woken && tr[m].reports == tr[k].reports
    decreases m
  {
    if k < m {
      ReportsStay(p, tr, k, m - 1);
      var s := tr[m - 1];
      RunKeepsInv(p, tr, m - 1);
      assert NodeOk(p, s, Sink(p));
      assert Next(p, tr[m - 1], tr[m - 1 + 1]);
    }
  }

  lemma SilentStart(p: Plan) returns (tr: seq<State>)
    requires ValidPlan(p)
    ensures Run(p, tr) && |tr| > 0 && Inv(p, tr[|tr| - 1]) && Silent(p, tr[|tr| - 1])
  {
    InitialInv(p);
    tr := RegisterAll(p, [Initial(p)]);
  }

  /** The wait returns in the silence: the report of the rerun says that the plan passed. */
  lemma SilentWake(g: Graph, p: Plan) returns (tr: seq<State>)
    requires Scheduled(g, p) && 1 <= Count(LateWriters(p)) <= p.workers
    ensures Run(p, tr) && |tr| > 0 && tr[|tr| - 1].woken
    ensures tr[|tr| - 1].reports != [] && tr[|tr| - 1].reports[|tr[|tr| - 1].reports| - 1]
  {
    hide Run, NodeOk, LateWriters;
    var rank := ScheduledIsValid(g, p);
    tr := SilentStart(p);
    tr := SilenceToTheSink(g, p, tr);
    var s := tr[|tr| - 1];
    SinkWritesLate(g, p);
    LateIsReported(p, rank, s, Sink(p));
    tr := AppendStep(p, tr, Wake);
  }

  lemma WrongReportRun(g: Graph, p: Plan) returns (tr: seq<State>)
    requires Scheduled(g, p) && 1 <= Count(LateWriters(p)) <= p.workers
    ensures CompleteRun(p, tr) && LastReportWrong(tr[|tr| - 1])
  {
    hide LateWriters, Inv, Finished;
    var rank := ScheduledIsValid(g, p);
    var early := SilentWake(g, p);
    tr := RunsComplete(p, early);
    assert tr[|early| - 1] == early[|early| - 1];
    ReportsStay(p, tr, |early| - 1, |tr| - 1);
    RunKeepsInv(p, tr, |tr| - 1);
    QuiescentIffFinished(p, tr[|tr| - 1]);
    LateMeansFailed(p, rank, tr[|tr| - 1]);
  }

  /** Some complete run of a plan ends with a report that contradicts the plan's status exactly when
      at least one action of the plan writes late, and no more of them than the pool has workers. */
  lemma WrongReportExact(g: Graph, p: Plan)
    requires Scheduled(g, p)
    ensures (exists tr :: CompleteRun(p, tr) && LastReportWrong(tr[|tr| - 1]))
            <==> 1 <= Count(LateWriters(p)) <= p.workers
  {
    if tr :| CompleteRun(p, tr) && LastReportWrong(tr[|tr| - 1]) {
      WrongReportNeeds(g, p, tr);
    }
    if 1 <= Count(LateWriters(p)) <= p.workers {
      var tr := WrongReportRun(g, p);
    }
  }

  // ---- The smallest such plan -----------------------------------------------------------

  /** A plan whose only action returns an error, with its source and sink. */
  const LONE_FAILURE := Plan([[2], [0], []], [ReturnsError, ReturnsOk, ReturnsOk], 1)

  const SUCCEEDED_ALONE := Node(SUCCEEDED, Value, Done, 1, 1)

  const FAILED_ALONE := Node(FAILED, Broken, Done, 1, 1)

  lemma LoneFailureIsScheduled()
    ensures Scheduled([[]], LONE_FAILURE)
  {
    var g: Graph := [[]];
    assert Ranks(g, [0]);
    assert LeavesUpTo(g, 0) == [] && IsLeaf(g, 0);
    assert LeavesUpTo(g, 1) == LeavesUpTo(g, 0) + [0] == [0];
    var h := Augmented(g);
    assert h[0] == [2] && h[1] == LeavesUpTo(g, |g|) && h[2] == [];
    assert Augmented(g) == [[2], [0], []];
  }

  lemma LoneFailureSourceDone()
    ensures Reachable(LONE_FAILURE, State(3, [FRESH, FRESH, SUCCEEDED_ALONE], false, false, []))
  {
    hide Reachable;
    var p := LONE_FAILURE;
    var nodes := [FRESH, FRESH, FRESH];
    InitialReachable(p);
    BusyZero(nodes);
    assert Initial(p) == State(0, nodes, false, false, []);
    ReachableStep(p, State(0, nodes, false, false, []), Register, State(1, nodes, false, false, []));
    ReachableStep(p, State(1, nodes, false, false, []), Register, State(2, nodes, false, false, []));
    ReachableStep(p, State(2, nodes, false, false, []), Register, State(3, nodes, false, false, []));
    var running := [FRESH, FRESH, Began(FRESH)];
    ReachableStep(p, State(3, nodes, false, false, []), Start(2), State(3, running, false, false, []));
    ReachableStep(p, State(3, running, false, false, []), Finish(2),
                  State(3, [FRESH, FRESH, SUCCEEDED_ALONE], false, false, []));
  }

  lemma LoneFailureActionDone()
    ensures Reachable(LONE_FAILURE, State(3, [FAILED_ALONE, FRESH, SUCCEEDED_ALONE], false, false, []))
  {
    hide Reachable;
    LoneFailureSourceDone();
    var p := LONE_FAILURE;
    var nodes := [FRESH, FRESH, SUCCEEDED_ALONE];
    BusyZero(nodes);
    var running := [Began(FRESH), FRESH, SUCCEEDED_ALONE];
    ReachableStep(p, State(3, nodes, false, false, []), Start(0), State(3, running, false, false, []));
    ReachableStep(p, State(3, running, false, false, []), Finish(0),
                  State(3, [FAILED_ALONE, FRESH, SUCCEEDED_ALONE], false, false, []));
  }

  /** The rerun of a failed sink is not ordered after the write of the plan's status: the broken
      promise wakes the main thread first.  Here the only action of the plan returns an error, and
      the one report that is sent says that the plan passed. */
  lemma ReportMayBeWrong() returns (s: State)
    ensures Scheduled([[]], LONE_FAILURE) && Reachable(LONE_FAILURE, s)
    ensures |s.nodes| == 3 && s.woken && s.nodes[0].status == FAILED && s.reports == [true]
  {
    hide Reachable;
    LoneFailureIsScheduled();
    LoneFailureActionDone();
    var p := LONE_FAILURE;
    var nodes := [FAILED_ALONE, FRESH, SUCCEEDED_ALONE];
    var skipped := [FAILED_ALONE, MarkedFailed(FRESH), SUCCEEDED_ALONE];
    BusyZero(nodes);
    var s0, s1 := State(3, nodes, false, false, []), State(3, skipped, false, false, []);
    assert DepBroken(p, s0, 1) by {
      assert 0 in p.graph[1] && Broke(s0, 0);
    }
    ReachableStep(p, s0, Skip(1), s1);
    s := State(3, skipped, false, true, [true]);
    ReachableStep(p, s1, Wake, s);
  }
}
