/** `ChaosPlan::schedule` as a transition system: the registration loop of the main thread and the
    continuations on the thread pool take their steps in any interleaving. */
module PlanSchedule {
  import opened ActionGraph
  import opened ActionStatus

  /** One action.  `runs` counts calls of its body, `sets` counts fulfilments of its promise. */
  datatype Node = Node(status: Status, promise: Promise, phase: Phase, runs: nat, sets: nat)

  const FRESH := Node(INIT, Unset, Waiting, 0, 0)

  datatype Plan = Plan(graph: Graph, outcomes: seq<Outcome>, workers: nat)

  /** `registered`: how far the registration loop got.  `failed`: the plan's status is FAILED.
      `woken`: the wait on the sink has returned.  `reports`: for each execution of the report task,
      whether it saw the plan as passed. */
  datatype State = State(registered: nat, nodes: seq<Node>, failed: bool, woken: bool, reports: seq<bool>)

  datatype Step =
    | Register          // the main thread attaches the next continuation
    | Start(i: nat)     // all dependees hold a value: run() sets RUNNING and enters the body
    | Skip(i: nat)      // all dependees settled, one is broken: markFailed
    | Finish(i: nat)    // the body returns or throws
    | Handle(i: nat)    // the error handler of a body that threw: markFailed
    | Record(i: nat)    // the failing continuation writes the plan's status
    | Wake              // the wait on the sink returns; a failed sink is run once more

  ghost predicate ValidPlan(p: Plan) {
    && Closed(p.graph)
    && |p.outcomes| == |p.graph|
    && |p.graph| >= 2
    && p.workers > 0
  }

  /** The report task: `schedule` appends it before the source, so it is the last but one. */
  function Sink(p: Plan): (k: int) {
    |p.graph| - 2
  }

  function Initial(p: Plan): State {
    State(0, seq(|p.graph|, _ => FRESH), false, false, [])
  }

  predicate Occupies(n: Node) {
    n.phase == Executing || n.phase == Owing
  }

  function Busy(nodes: seq<Node>): (b: nat) {
    if nodes == [] then 0 else (if Occupies(nodes[0]) then 1 else 0) + Busy(nodes[1..])
  }

  predicate Settled(s: State, i: nat) {
    i < |s.nodes| && s.nodes[i].promise != Unset
  }

  predicate Broke(s: State, i: nat) {
    i < |s.nodes| && s.nodes[i].promise == Broken
  }

  predicate DepsSettled(p: Plan, s: State, i: nat)
    requires i < |p.graph|
  {
    forall d | d in p.graph[i] :: Settled(s, d)
  }

  predicate DepBroken(p: Plan, s: State, i: nat)
    requires i < |p.graph|
  {
    exists d | d in p.graph[i] :: Broke(s, d)
  }

  /** A worker is free and the continuation of `i` is attached and ready (`collectAll`). */
  predicate Ready(p: Plan, s: State, i: nat)
    requires |s.nodes| == |p.graph|
  {
    && i < s.registered && i < |s.nodes|
    && s.nodes[i].phase == Waiting
    && DepsSettled(p, s, i)
    && Busy(s.nodes) < p.workers
  }

  predicate Enabled(p: Plan, s: State, step: Step)
    requires |s.nodes| == |p.graph| && |p.outcomes| == |p.graph| && |p.graph| >= 2
  {
    match step
    case Register => s.registered < |p.graph|
    case Start(i) => Ready(p, s, i) && !DepBroken(p, s, i)
    case Skip(i) => Ready(p, s, i) && DepBroken(p, s, i)
    case Finish(i) => i < |s.nodes| && s.nodes[i].phase == Executing
    case Handle(i) => i < |s.nodes| && s.nodes[i].phase == Thrown && Busy(s.nodes) < p.workers
    case Record(i) => i < |s.nodes| && s.nodes[i].phase == Owing
    case Wake => s.registered == |p.graph| && !s.woken && Settled(s, Sink(p))
  }

  // ---- What one step does to one action ---------------------------------

  function Began(n: Node): Node {
    n.(status := RUNNING, phase := Executing, runs := n.runs + 1)
  }

  function MarkedFailed(n: Node): Node {
    n.(status := FAILED, promise := Broken, phase := Owing, sets := n.sets + 1)
  }

  function Ended(n: Node, o: Outcome): Node {
    match o
    case ReturnsOk => n.(status := SUCCEEDED, promise := Value, phase := Done, sets := n.sets + 1)
    case ReturnsError => n.(status := FAILED, promise := Broken, phase := Done, sets := n.sets + 1)
    case Throws => n.(phase := Thrown)
  }

  function Apply(p: Plan, s: State, step: Step): (s': State)
    requires |s.nodes| == |p.graph| && |p.outcomes| == |p.graph| && |p.graph| >= 2
    requires Enabled(p, s, step)
    ensures |s'.nodes| == |s.nodes|
  {
    match step
    case Register => s.(registered := s.registered + 1)
    case Start(i) =>
      s.(nodes := s.nodes[i := Began(s.nodes[i])],
         reports := if i == Sink(p) then s.reports + [!s.failed] else s.reports)
    case Skip(i) => s.(nodes := s.nodes[i := MarkedFailed(s.nodes[i])])
    case Finish(i) => s.(nodes := s.nodes[i := Ended(s.nodes[i], p.outcomes[i])])
    case Handle(i) => s.(nodes := s.nodes[i := MarkedFailed(s.nodes[i])])
    case Record(i) => s.(nodes := s.nodes[i := s.nodes[i].(phase := Done)], failed := true)
    case Wake =>
      s.(woken := true,
         reports := if s.nodes[Sink(p)].status == FAILED then s.reports + [!s.failed] else s.reports)
  }

  ghost predicate Next(p: Plan, s: State, s': State) {
    && |s.nodes| == |p.graph| && |p.outcomes| == |p.graph| && |p.graph| >= 2
    && exists step :: Enabled(p, s, step) && s' == Apply(p, s, step)
  }

  /** A run: any sequence of steps from the initial state. */
  ghost predicate Run(p: Plan, tr: seq<State>) {
    && |tr| > 0
    && tr[0] == Initial(p)
    && forall k :: 0 <= k < |tr| - 1 ==> Next(p, tr[k], tr[k + 1])
  }

  ghost predicate Quiescent(p: Plan, s: State)
    requires |s.nodes| == |p.graph| && |p.outcomes| == |p.graph| && |p.graph| >= 2
  {
    forall step :: !Enabled(p, s, step)
  }

  // ---- Steps as somebody proposes them -----------------------------------

  /** A proposed step is taken if it is enabled, and otherwise ignored. */
  function Offered(p: Plan, s: State, step: Step): (s': State)
    requires |s.nodes| == |p.graph| && |p.outcomes| == |p.graph| && |p.graph| >= 2
    ensures |s'.nodes| == |s.nodes|
  {
    if Enabled(p, s, step) then Apply(p, s, step) else s
  }

  /** All of them are proposed, one after the other. */
  function Carried(p: Plan, s: State, picks: seq<Step>): (s': State)
    requires |s.nodes| == |p.graph| && |p.outcomes| == |p.graph| && |p.graph| >= 2
    ensures |s'.nodes| == |s.nodes|
  {
    if picks == [] then s else Offered(p, Carried(p, s, picks[..|picks| - 1]), picks[|picks| - 1])
  }

  // ---- The inductive invariant -------------------------------------------

  ghost predicate Shaped(p: Plan, s: State) {
    |s.nodes| == |p.graph| == |p.outcomes| && |p.graph| >= 2
  }

  /** A failed action was either skipped because of a dependee or failed on its own, once. */
  ghost predicate FailedFor(p: Plan, s: State, i: nat)
    requires Shaped(p, s) && i < |p.graph|
  {
    if DepBroken(p, s, i) then s.nodes[i].runs == 0
    else s.nodes[i].runs == 1 && p.outcomes[i] != ReturnsOk
  }

  /** The failures whose continuation writes the plan's status: all but an error return. */
  ghost predicate Reported(p: Plan, s: State, i: nat)
    requires Shaped(p, s) && i < |p.graph|
  {
    DepBroken(p, s, i) || p.outcomes[i] == Throws
  }

  /** What the recorded state of action `i` says about its dependees and its own outcome. */
  ghost predicate NodeOk(p: Plan, s: State, i: nat)
    requires Shaped(p, s) && i < |p.graph|
  {
    var n := s.nodes[i];
    && (n.phase != Waiting ==> i < s.registered && DepsSettled(p, s, i))
    && match n.phase
       case Waiting => n == FRESH
       case Executing => n == Node(RUNNING, Unset, Executing, 1, 0) && !DepBroken(p, s, i)
       case Thrown => n == Node(RUNNING, Unset, Thrown, 1, 0) && !DepBroken(p, s, i) && p.outcomes[i] == Throws
       case Owing => n.status == FAILED && n.promise == Broken && n.sets == 1
                     && FailedFor(p, s, i) && Reported(p, s, i)
       case Done => n.sets == 1
                    && (n.status == SUCCEEDED || n.status == FAILED)
                    && (n.status == SUCCEEDED ==> n.promise == Value && n.runs == 1
                                                  && !DepBroken(p, s, i) && p.outcomes[i] == ReturnsOk)
                    && (n.status == FAILED ==> n.promise == Broken && FailedFor(p, s, i)
                                               && (Reported(p, s, i) ==> s.failed))
  }

  ghost predicate FailureKnown(p: Plan, s: State)
    requires Shaped(p, s)
  {
    s.failed ==> exists i: nat :: i < |p.graph| && s.nodes[i].status == FAILED && Reported(p, s, i)
  }

  function ReportCount(p: Plan, s: State): (k: nat)
    requires |s.nodes| == |p.graph| && |p.graph| >= 2
  {
    s.nodes[Sink(p)].runs + (if s.woken && s.nodes[Sink(p)].status == FAILED then 1 else 0)
  }

  ghost predicate Inv(p: Plan, s: State) {
    && Shaped(p, s)
    && s.registered <= |p.graph|
    && (forall i: nat :: i < |p.graph| ==> NodeOk(p, s, i))
    && Busy(s.nodes) <= p.workers
    && FailureKnown(p, s)
    && (s.woken ==> s.registered == |p.graph| && Settled(s, Sink(p)))
    && |s.reports| == ReportCount(p, s)
  }

  lemma {:induction false} BusyUpdate(nodes: seq<Node>, i: nat, n: Node)
    requires i < |nodes|
    ensures Busy(nodes[i := n]) == Busy(nodes) - (if Occupies(nodes[i]) then 1 else 0) + (if Occupies(n) then 1 else 0)
  {
    if i > 0 {
      BusyUpdate(nodes[1..], i - 1, n);
      assert nodes[i := n][1..] == nodes[1..][i - 1 := n];
    } else {
      assert nodes[i := n][1..] == nodes[1..];
    }
  }

  lemma {:induction false} BusyZero(nodes: seq<Node>)
    requires forall i :: 0 <= i < |nodes| ==> !Occupies(nodes[i])
    ensures Busy(nodes) == 0
  {
    if nodes != [] {
      BusyZero(nodes[1..]);
    }
  }

  /** The action a step touches, if any. */
  function Target(step: Step): (i: int) {
    match step
    case Register => -1
    case Start(i) => i
    case Skip(i) => i
    case Finish(i) => i
    case Handle(i) => i
    case Record(i) => i
    case Wake => -1
  }

  /** A promise, once fulfilled, never changes again. */
  ghost predicate PromisesKept(s: State, s': State) {
    && |s.nodes| == |s'.nodes|
    && forall d: nat :: Settled(s, d) ==> s'.nodes[d].promise == s.nodes[d].promise
  }

  lemma StepKeepsPromises(p: Plan, s: State, step: Step)
    requires Inv(p, s) && Enabled(p, s, step)
    ensures PromisesKept(s, Apply(p, s, step))
  {
    var s' := Apply(p, s, step);
    forall d: nat | Settled(s, d)
      ensures s'.nodes[d].promise == s.nodes[d].promise
    {
      assert NodeOk(p, s, d);
    }
  }

  lemma DepsFrame(p: Plan, s: State, s': State, i: nat)
    requires Shaped(p, s) && PromisesKept(s, s') && i < |p.graph| && DepsSettled(p, s, i)
    ensures DepsSettled(p, s', i) && (DepBroken(p, s', i) <==> DepBroken(p, s, i))
  {
    forall d | d in p.graph[i]
      ensures Settled(s', d) && (Broke(s', d) <==> Broke(s, d))
    {
      assert Settled(s, d);
    }
  }

  lemma StepKeepsOther(p: Plan, s: State, step: Step, i: nat)
    requires Inv(p, s) && Enabled(p, s, step) && i < |p.graph| && Target(step) != i
    ensures NodeOk(p, Apply(p, s, step), i)
  {
    var s' := Apply(p, s, step);
    StepKeepsPromises(p, s, step);
    assert NodeOk(p, s, i);
    assert s'.nodes[i] == s.nodes[i];
    if s.nodes[i].phase != Waiting {
      DepsFrame(p, s, s', i);
    }
  }

  lemma StepKeepsTarget(p: Plan, s: State, step: Step, i: nat)
    requires Inv(p, s) && Enabled(p, s, step) && i < |p.graph| && Target(step) == i
    ensures NodeOk(p, Apply(p, s, step), i)
  {
    StepKeepsPromises(p, s, step);
    assert NodeOk(p, s, i);
    DepsFrame(p, s, Apply(p, s, step), i);
  }

  lemma StepKeepsFailureKnown(p: Plan, s: State, step: Step)
    requires Inv(p, s) && Enabled(p, s, step)
    ensures FailureKnown(p, Apply(p, s, step))
  {
    var s' := Apply(p, s, step);
    StepKeepsPromises(p, s, step);
    if s'.failed {
      var i: nat;
      if s.failed {
        i :| i < |p.graph| && s.nodes[i].status == FAILED && Reported(p, s, i);
      } else {
        assert step.Record?;
        i := step.i;
      }
      assert NodeOk(p, s, i);
      DepsFrame(p, s, s', i);
      assert s'.nodes[i].status == FAILED && Reported(p, s', i);
    }
  }

  lemma StepKeepsCounts(p: Plan, s: State, step: Step)
    requires Inv(p, s) && Enabled(p, s, step)
    ensures var s' := Apply(p, s, step);
            && Busy(s'.nodes) <= p.workers
            && (s'.woken ==> s'.registered == |p.graph| && Settled(s', Sink(p)))
            && |s'.reports| == ReportCount(p, s')
  {
    var i := Target(step);
    if i >= 0 {
      BusyUpdate(s.nodes, i, Apply(p, s, step).nodes[i]);
    }
    assert NodeOk(p, s, Sink(p));
  }

  /** Every step keeps the invariant. */
  lemma StepKeepsInv(p: Plan, s: State, step: Step)
    requires Inv(p, s) && Enabled(p, s, step)
    ensures Inv(p, Apply(p, s, step))
  {
    var s' := Apply(p, s, step);
    forall i: nat | i < |p.graph|
      ensures NodeOk(p, s', i)
    {
      if Target(step) == i {
        StepKeepsTarget(p, s, step, i);
      } else {
        StepKeepsOther(p, s, step, i);
      }
    }
    StepKeepsFailureKnown(p, s, step);
    StepKeepsCounts(p, s, step);
  }

  lemma InitialInv(p: Plan)
    requires ValidPlan(p)
    ensures Inv(p, Initial(p))
  {
    BusyZero(Initial(p).nodes);
  }

  lemma {:induction false} RunKeepsInv(p: Plan, tr: seq<State>, k: nat)
    requires ValidPlan(p) && Run(p, tr) && k < |tr|
    ensures Inv(p, tr[k])
  {
    if k == 0 {
      InitialInv(p);
    } else {
      RunKeepsInv(p, tr, k - 1);
      assert Next(p, tr[k - 1], tr[k - 1 + 1]);
      var step :| Enabled(p, tr[k - 1], step) && tr[k] == Apply(p, tr[k - 1], step);
      StepKeepsInv(p, tr[k - 1], step);
    }
  }
}
