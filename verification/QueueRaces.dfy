/** Exactly when a loop on a pool that serves its queue in order can go on after a failed round. */
module QueueRaces {
  import opened ActionGraph
  import opened ActionStatus
  import opened LoopSchedule
  import opened LoopInvariant
  import opened LoopLayers
  import opened LoopRaces
  import opened LoopProgress
  import opened QueueSchedule

  predicate DependsOn(g: Graph, path: seq<nat>, y: nat) {
    y < |g| && exists d | d in path :: Edge(g, d, y)
  }

  /** The actions that depend on an action of the path. */
  function Dependers(g: Graph, path: seq<nat>): (w: set<nat>)
    ensures forall y: nat :: y in w <==> DependsOn(g, path, y)
  {
    set y: nat | y < |g| && DependsOn(g, path, y)
  }

  /** A failure at the head of the path can travel along it to End while each continuation that is queued
      before End's because of it keeps a thread. */
  ghost predicate QueuePath(p: LoopPlan, path: seq<nat>) {
    && Path(p.graph, path) && IsLeaf(p.graph, path[|path| - 1])
    && var w := Dependers(Augmented(p.graph), path);
       (path[0] in p.mayError && |w| <= p.workers) || (path[0] in p.mayThrow && |w| < p.workers)
  }

  ghost predicate MayRaceQueued(p: LoopPlan) {
    exists path :: QueuePath(p, path)
  }

  // ---- A body that failed on its own had all its dependees --------------------------------------

  /** A quiet failure whose continuation is through was the body's own. */
  ghost predicate Earned(part: set<nat>, s: State, i: nat) {
    Attached(s, i) && FailedQuietly(s, i) && s.conts[|s.conts| - 1][i].phase == Done ==>
      DependeesSucceeded(part, s, i, Round(s))
  }

  ghost predicate AllEarned(part: set<nat>, s: State) {
    forall i :: i in part ==> Earned(part, s, i)
  }

  lemma ActorKeepsEarned(p: LoopPlan, part: set<nat>, s: State, step: Step)
    requires StepOk(p, part, s, step) && PoolStep(step) && step.i in part && Earned(part, s, step.i)
    ensures Earned(part, Apply(p, s, step), step.i)
  {
    hide Working, Ordered, FuturesCurrent, DependeesSucceeded, Local;
    NowOk(p, part, s, step.i);
    PoolStepIsLocal(p, part, s, step);
    AliveIsNow(p, part, s, step);
    DependeesStay(part, s, Apply(p, s, step), step.i, Round(s));
  }

  lemma LocalKeepsEarned(part: set<nat>, s: State, s': State, k: nat, i: nat)
    requires Local(s, s', k) && i != k && Earned(part, s, i)
    ensures Earned(part, s', i)
  {
    forall d, r | Succeeded(s, d, r)
      ensures Succeeded(s', d, r)
    {
    }
  }

  lemma SameKeepsEarned(part: set<nat>, s: State, s': State, i: nat)
    requires SameWithin(part, s, s') && i in part && i < |s.graph| && Earned(part, s, i)
    ensures Earned(part, s', i)
  {
    forall d, r | d in part && Succeeded(s, d, r)
      ensures Succeeded(s', d, r)
    {
    }
  }

  lemma OutsiderIsSame(p: LoopPlan, part: set<nat>, s: State, step: Step)
    requires StepOk(p, part, s, step) && PoolStep(step) && step.i !in part
    ensures SameWithin(part, s, Apply(p, s, step))
  {
    hide Working, Ordered, MemberOk;
  }

  lemma PoolKeepsEarned(p: LoopPlan, part: set<nat>, s: State, step: Step, i: nat)
    requires StepOk(p, part, s, step) && PoolStep(step) && i in part && Earned(part, s, i)
    ensures Earned(part, Apply(p, s, step), i)
  {
    hide Working, Ordered, Earned, Local, SameWithin, MemberOk;
    NowOk(p, part, s, i);
    if step.i == i {
      ActorKeepsEarned(p, part, s, step);
    } else if step.i in part {
      PoolStepIsLocal(p, part, s, step);
      LocalKeepsEarned(part, s, Apply(p, s, step), step.i, i);
    } else {
      OutsiderIsSame(p, part, s, step);
      SameKeepsEarned(part, s, Apply(p, s, step), i);
    }
  }

  lemma MainKeepsEarned(p: LoopPlan, part: set<nat>, s: State, step: Step, i: nat)
    requires StepOk(p, part, s, step) && !PoolStep(step) && !step.Execute? && i in part && Earned(part, s, i)
    ensures Earned(part, Apply(p, s, step), i)
  {
    hide Working, FuturesCurrent;
    NowOk(p, part, s, i);
    var s' := Apply(p, s, step);
    if step.Register? {
      var j := |s.conts[|s.conts| - 1]|;
      forall d, r | d in part && d != j && Succeeded(s, d, r)
        ensures Succeeded(s', d, r)
      {
      }
    }
  }

  lemma ExecuteKeepsEarned(p: LoopPlan, part: set<nat>, s: State, i: nat)
    requires Inv(p, part, s) && !s.raced && Enabled(p, s, Execute) && i in part + {|s.graph|}
    ensures Earned(part + {|s.graph|}, Apply(p, s, Execute), i)
  {
    if i in part {
      NowOk(p, part, s, i);
    }
  }

  lemma StepKeepsEarned(p: LoopPlan, s: State, step: Step, layers: nat)
    requires ValidLoop(p) && ListedInOrder(p.graph) && Built(p, s, layers) && Enabled(p, s, step)
    requires Inv(p, OrderedPart(p.graph, layers), s) && !s.raced && AllEarned(OrderedPart(p.graph, layers), s)
    ensures AllEarned(OrderedPart(p.graph, if step.Execute? then layers + 1 else layers), Apply(p, s, step))
  {
    hide Ordered, Earned, Working, MemberOk, Enabled, Apply, ListedInOrder;
    var part := OrderedPart(p.graph, layers);
    if step.Execute? {
      assert OrderedPart(p.graph, layers + 1) == part + {|s.graph|};
      forall i | i in part + {|s.graph|}
        ensures Earned(part + {|s.graph|}, Apply(p, s, step), i)
      {
        ExecuteKeepsEarned(p, part, s, i);
      }
    } else {
      FirstIsExecute(p, s, step, layers);
      LayersGiveOrder(p.graph, layers);
      forall i | i in part
        ensures Earned(part, Apply(p, s, step), i)
      {
        if PoolStep(step) {
          PoolKeepsEarned(p, part, s, step, i);
        } else {
          MainKeepsEarned(p, part, s, step, i);
        }
      }
    }
  }

  lemma InitialEarned(p: LoopPlan)
    ensures AllEarned(OrderedPart(p.graph, 0), Initial(p))
  {
  }

  lemma SameLayers(p: LoopPlan, s: State, a: nat, b: nat)
    requires Built(p, s, a) && Built(p, s, b)
    ensures a == b
  {
    assert |Layered(p.graph, a)| == |Layered(p.graph, b)|;
  }

  lemma {:induction false} RunKeepsEarned(p: LoopPlan, tr: seq<State>, k: nat) returns (layers: nat)
    requires ValidLoop(p) && ListedInOrder(p.graph) && Run(p, tr) && k < |tr| && !tr[k].raced
    ensures Built(p, tr[k], layers) && AllEarned(OrderedPart(p.graph, layers), tr[k])
  {
    hide Inv, Built, AllEarned, Working, Apply, Enabled;
    layers := RunKeepsInv(p, tr, k);
    if k == 0 {
      InitialInv(p);
      SameLayers(p, tr[0], layers, 0);
      InitialEarned(p);
    } else {
      assert Next(p, tr[k - 1], tr[k - 1 + 1]);
      var step :| Enabled(p, tr[k - 1], step) && tr[k] == Apply(p, tr[k - 1], step);
      StepMonotone(p, tr[k - 1], step);
      var before := RunKeepsEarned(p, tr, k - 1);
      var again := RunKeepsInv(p, tr, k - 1);
      SameLayers(p, tr[k - 1], before, again);
      StepKeepsEarned(p, tr[k - 1], step, before);
      var after := StepKeepsBuilt(p, tr[k - 1], step, before);
      SameLayers(p, tr[k], layers, after);
    }
  }

  /** All that is known of a state of a loop listed in order, before a race. */
  ghost predicate Good(p: LoopPlan, part: set<nat>, s: State, layers: nat) {
    && part == OrderedPart(p.graph, layers) && Built(p, s, layers)
    && Inv(p, part, s) && RaceInv(p, part, s) && AllEarned(part, s) && !s.raced
    && (layers > 0 ==> Ordered(s.graph, part))
    && (forall i: nat :: i < |p.graph| ==> i in part)
    && (forall i: nat, d: nat :: i < |p.graph| && d < |p.graph| ==> (Edge(s.graph, d, i) <==> Edge(p.graph, d, i)))
  }

  lemma ReachableIsGood(p: LoopPlan, s: State) returns (part: set<nat>, layers: nat)
    requires ValidLoop(p) && ListedInOrder(p.graph) && Reachable(p, s) && !s.raced
    ensures Good(p, part, s, layers)
  {
    hide Inv, RaceInv, AllEarned, Ordered, Built;
    layers := ReachableInv(p, s);
    part := OrderedPart(p.graph, layers);
    var tr: seq<State> :| Run(p, tr) && tr[|tr| - 1] == s;
    var a := RunKeepsEarned(p, tr, |tr| - 1);
    SameLayers(p, s, a, layers);
    var b := RunKeepsRaceInv(p, tr, |tr| - 1);
    SameLayers(p, s, b, layers);
  }

  lemma ReachableKeepsPromises(p: LoopPlan, s: State, step: Step)
    requires ValidLoop(p) && ListedInOrder(p.graph) && Reachable(p, s) && !s.raced && Enabled(p, s, step)
    ensures |s.cells| == |s.graph| && RowsFit(s) && FuturesKept(s, Apply(p, s, step))
  {
    hide Enabled, FuturesKept, RowsFit;
    var tr: seq<State> :| Run(p, tr) && tr[|tr| - 1] == s;
    UnracedKeepsPromises(p, tr, |tr| - 1, step);
    RunRowsFit(p, tr, |tr| - 1);
  }

  // ---- The queue holds exactly the decided continuations without a thread -----------------------

  ghost predicate QInv(p: LoopPlan, q: QState) {
    && RowsFit(q.s) && NoRepeats(q.queue) && |q.held| <= p.workers
    && (forall t :: t in q.queue ==> t !in q.held && Due(q.s, t.0, t.1))
    && q.held + Tasks(q.queue) == Live(q.s)
  }

  lemma QInvGives(p: LoopPlan, q: QState)
    requires QInv(p, q)
    ensures RowsFit(q.s) && NoRepeats(q.queue) && |q.held| <= p.workers
    ensures forall t :: t in q.queue ==> t !in q.held && Due(q.s, t.0, t.1)
    ensures q.held + Tasks(q.queue) == Live(q.s)
  {
  }

  lemma QInvFrom(p: LoopPlan, q: QState)
    requires RowsFit(q.s) && NoRepeats(q.queue) && |q.held| <= p.workers
    requires forall t :: t in q.queue ==> t !in q.held && Due(q.s, t.0, t.1)
    requires q.held + Tasks(q.queue) == Live(q.s)
    ensures QInv(p, q)
  {
  }

  lemma RestNoRepeats(queue: seq<Task>)
    requires queue != [] && NoRepeats(queue)
    ensures NoRepeats(queue[1..]) && queue[0] !in queue[1..]
  {
    var rest := queue[1..];
    forall a, b | 0 <= a < b < |rest|
      ensures rest[a] != rest[b]
    {
      assert rest[a] == queue[a + 1] && rest[b] == queue[b + 1];
    }
  }

  lemma HeadMoves(held: set<Task>, queue: seq<Task>)
    requires queue != []
    ensures (held + {queue[0]}) + Tasks(queue[1..]) == held + Tasks(queue)
    ensures forall t :: t in queue[1..] ==> t in queue
  {
    assert queue == [queue[0]] + queue[1..];
  }

  lemma TakeKeepsQInv(p: LoopPlan, q: QState)
    requires QInv(p, q) && QEnabled(p, q, Take)
    ensures QInv(p, QApply(p, q, Take))
  {
    hide Live, Due, RowsFit, NoRepeats, QInv;
    QInvGives(p, q);
    RestNoRepeats(q.queue);
    HeadMoves(q.held, q.queue);
    QInvFrom(p, QApply(p, q, Take));
  }

  lemma NewsAreDue(s: State, s': State)
    ensures forall t :: t in NewlyDue(s, s', |s'.conts|) ==> Due(s', t.0, t.1)
  {
  }

  /** A task in the queue goes on being due: no step is its own. */
  lemma QueuedStaysDue(p: LoopPlan, s: State, step: Step, t: Task)
    requires RowsFit(s) && Enabled(p, s, step) && FuturesKept(s, Apply(p, s, step))
    requires Due(s, t.0, t.1) && t != Actor(s, step)
    ensures Due(Apply(p, s, step), t.0, t.1)
  {
    hide Enabled, FuturesKept, FutureValue;
    StepOthers(p, s, step);
    DueStays(s, Apply(p, s, step), t);
  }

  lemma NotTheActor(p: LoopPlan, q: QState, step: Step, t: Task)
    requires QEnabled(p, q, Do(step)) && t !in q.held && Due(q.s, t.0, t.1)
    ensures t != Actor(q.s, step)
  {
    hide Enabled, FutureValue;
  }

  lemma QueueUnion(held: set<Task>, queue: seq<Task>, news: seq<Task>, live: set<Task>, ended: set<Task>)
    requires held + Tasks(queue) == live && forall t :: t in queue ==> t !in ended
    ensures (held - ended) + Tasks(queue + news) == (live - ended) + Tasks(news)
  {
  }

  lemma QueueOfApply(p: LoopPlan, q: QState, step: Step) returns (ended: set<Task>)
    requires QEnabled(p, q, Do(step))
    ensures var q' := QApply(p, q, Do(step)); var news := NewlyDue(q.s, q'.s, |q'.s.conts|);
            && q'.s == Apply(p, q.s, step) && q'.queue == q.queue + news && q'.held == q.held - ended
    ensures ended == if EndsTask(step, Apply(p, q.s, step)) then {Actor(q.s, step)} else {}
    ensures ended <= q.held
  {
    ended := if EndsTask(step, Apply(p, q.s, step)) then {Actor(q.s, step)} else {};
  }

  lemma DoKeepsQueue(p: LoopPlan, q: QState, step: Step, ended: set<Task>)
    requires QInv(p, q) && QEnabled(p, q, Do(step)) && FuturesKept(q.s, Apply(p, q.s, step))
    requires ended == if EndsTask(step, Apply(p, q.s, step)) then {Actor(q.s, step)} else {}
    ensures var s' := Apply(p, q.s, step); var news := NewlyDue(q.s, s', |s'.conts|);
            && NoRepeats(q.queue + news)
            && (forall t :: t in q.queue + news ==> t !in q.held - ended && Due(s', t.0, t.1))
            && (forall t :: t in q.queue ==> t !in ended)
  {
    hide Live, Due, RowsFit, FuturesKept, Enabled, NewlyDue, QApply, NoRepeats, Tasks, Apply;
    var s, s' := q.s, Apply(p, q.s, step);
    var news := NewlyDue(s, s', |s'.conts|);
    LiveAfter(p, s, step);
    NewlyDueOnce(s, s', |s'.conts|);
    NewsAreDue(s, s');
    forall t | t in q.queue
      ensures t !in ended && t !in news && Due(s', t.0, t.1)
    {
      NotTheActor(p, q, step, t);
      QueuedStaysDue(p, s, step, t);
    }
    forall t | t in news
      ensures t !in q.held - ended
    {
      assert t in q.held ==> t in Live(s);
    }
    JoinNoRepeats(q.queue, news);
  }

  lemma LiveEnds(p: LoopPlan, s: State, step: Step, ended: set<Task>)
    requires RowsFit(s) && Enabled(p, s, step) && FuturesKept(s, Apply(p, s, step))
    requires ended == if EndsTask(step, Apply(p, s, step)) then {Actor(s, step)} else {}
    ensures var s' := Apply(p, s, step); Live(s') == (Live(s) - ended) + Tasks(NewlyDue(s, s', |s'.conts|))
  {
    hide Live, RowsFit, FuturesKept, Enabled, NewlyDue, Tasks, Apply;
    RowsShape(s);
    LiveAfter(p, s, step);
  }

  lemma DoKeepsQInv(p: LoopPlan, q: QState, step: Step)
    requires QInv(p, q) && QEnabled(p, q, Do(step)) && FuturesKept(q.s, Apply(p, q.s, step))
    ensures QInv(p, QApply(p, q, Do(step)))
  {
    hide Live, Due, RowsFit, FuturesKept, Enabled, NewlyDue, EndsTask, QApply, Apply, NoRepeats, Actor, Tasks, QInv;
    QInvGives(p, q);
    var ended := QueueOfApply(p, q, step);
    var q' := QApply(p, q, Do(step));
    StepKeepsRows(p, q.s, step);
    DoKeepsQueue(p, q, step, ended);
    LiveEnds(p, q.s, step, ended);
    Larger(q'.held, q.held);
    QueueUnion(q.held, q.queue, NewlyDue(q.s, q'.s, |q'.s.conts|), Live(q.s), ended);
    QInvFrom(p, q');
  }

  lemma InitialQInv(p: LoopPlan)
    ensures QInv(p, QState(Initial(p), [], {}))
  {
    NoneLive(p);
  }

  lemma QStepKeepsInv(p: LoopPlan, q: QState, qstep: QStep)
    requires ValidLoop(p) && ListedInOrder(p.graph) && Reachable(p, q.s) && !q.s.raced
    requires QInv(p, q) && QEnabled(p, q, qstep)
    ensures QInv(p, QApply(p, q, qstep))
  {
    hide QInv, Reachable, Enabled, QApply, FuturesKept, RowsFit;
    match qstep {
      case Take => TakeKeepsQInv(p, q);
      case Do(step) =>
        ReachableKeepsPromises(p, q.s, step);
        DoKeepsQInv(p, q, step);
    }
  }

  // ---- What must be ahead of End in the queue ---------------------------------------------------

  /** Some dependee of `j` has failed. */
  ghost predicate Doomed(s: State, j: nat) {
    exists d: nat :: Edge(s.graph, d, j) && d < |s.cells| && s.cells[d].status == FAILED
  }

  /** The task has a thread, or stands in the queue and not behind the task `e`. */
  ghost predicate Ahead(q: QState, t: Task, e: Task) {
    t in q.held || exists a, b :: 0 <= a <= b < |q.queue| && q.queue[a] == t && q.queue[b] == e
  }

  /** The task of action `i` in the newest round. */
  function Now(s: State, i: nat): (t: Task)
    requires s.conts != []
  {
    (|s.conts| - 1, i)
  }

  ghost predicate Guard(p: LoopPlan, q: QState, path: seq<nat>) {
    && q.s.conts != []
    && Path(p.graph, path) && Rising(path) && IsLeaf(p.graph, path[|path| - 1])
    && (forall k :: 0 <= k < |path| ==> FailedQuietly(q.s, path[k]))
    && (forall y :: y in Dependers(Augmented(p.graph), path) ==> Ahead(q, Now(q.s, y), Now(q.s, |p.graph|)))
    && (path[0] in p.mayError || (path[0] in p.mayThrow && Held(q.s, path[0])))
  }

  /** When End is decided because of a failure, all that depends on some failed path to it either has a
      thread or is ahead of it in the queue. */
  ghost predicate EndGuarded(p: LoopPlan, q: QState) {
    q.s.conts != [] && Now(q.s, |p.graph|) in Live(q.s) && Doomed(q.s, |p.graph|) && Round(q.s) !in q.s.errors ==>
      exists path :: Guard(p, q, path)
  }

  /** A doomed continuation that waits holds a broken future. */
  lemma DoomedIsBroken(p: LoopPlan, part: set<nat>, layers: nat, s: State, i: nat, d: nat)
    requires Good(p, part, s, layers) && layers > 0 && i in part && Attached(s, i)
    requires d in part && Edge(s.graph, d, i) && FailedQuietly(s, d)
    requires s.conts[|s.conts| - 1][i].phase == Waiting
    ensures exists f :: f in s.conts[|s.conts| - 1][i].futures && FutureValue(s, f) == Broken
  {
    hide RaceInv, Ordered, Working, AllEarned;
    NowOk(p, part, s, i);
    NowOk(p, part, s, d);
    var c := s.conts[|s.conts| - 1][i];
    var k :| 0 <= k < |s.graph[i]| && s.graph[i][k] == d;
    assert c.futures[k] in c.futures;
    assert FutureValue(s, c.futures[k]) == Current(s.cells[d]) == Broken;
  }

  /** Before any failure is recorded, an attached action with a failed dependee is live. */
  lemma DoomedIsLive(p: LoopPlan, part: set<nat>, s: State, layers: nat, y: nat, d: nat)
    requires Good(p, part, s, layers) && layers > 0 && y in part && d in part && Attached(s, y)
    requires Edge(s.graph, d, y) && FailedQuietly(s, d) && RowsFit(s)
    ensures Now(s, y) in Live(s)
    ensures var c := s.conts[|s.conts| - 1][y]; c.phase == Waiting || c.phase == Owing
  {
    hide RaceInv, Ordered, Working;
    NowOk(p, part, s, y);
    NowOk(p, part, s, d);
    assert Earned(part, s, y);
    var c := s.conts[|s.conts| - 1][y];
    assert !Succeeded(s, d, Round(s));
    if c.phase == Waiting {
      DoomedIsBroken(p, part, layers, s, y, d);
    }
  }

  lemma {:induction false} EdgesPersist(g: Graph, layers: nat, d: nat, y: nat)
    requires layers > 0 && Edge(Augmented(g), d, y) && y <= |g|
    ensures Edge(Layered(g, layers), d, y)
  {
    hide Augmented;
    if layers > 1 {
      EdgesPersist(g, layers - 1, d, y);
      AugmentedEdge(Layered(g, layers - 1), d, y);
    } else {
      assert Layered(g, 0) == g && Layered(g, 1) == Augmented(g);
    }
  }

  lemma {:induction false} InPath(g: Graph, path: seq<nat>, d: nat)
    requires Path(g, path) && Closed(g) && d in path
    ensures d < |g|
    decreases |path|
  {
    if d != path[0] {
      var rest := PathSuffix(g, path);
      assert path == [path[0]] + rest;
      InPath(g, rest, d);
    }
  }

  /** The dependers of a path in the sub-plan are actions of it, or End. */
  lemma DependerKinds(p: LoopPlan, path: seq<nat>, y: nat) returns (d: nat)
    requires Path(p.graph, path) && Closed(p.graph) && y in Dependers(Augmented(p.graph), path)
    ensures d in path && d < |p.graph| && y <= |p.graph| && Edge(Augmented(p.graph), d, y)
  {
    hide Augmented;
    assert DependsOn(Augmented(p.graph), path, y);
    d :| d in path && Edge(Augmented(p.graph), d, y);
    InPath(p.graph, path, d);
    AugmentedEdge(p.graph, d, y);
  }

  lemma GoodIsClosed(p: LoopPlan)
    requires ListedInOrder(p.graph)
    ensures Closed(p.graph)
  {
    ListedIsAcyclic(p.graph);
  }

  /** Each depender of a guarding path is attached, doomed and live. */
  lemma GuardedIsLive(p: LoopPlan, part: set<nat>, layers: nat, s: State, path: seq<nat>, y: nat) returns (d: nat)
    requires ListedInOrder(p.graph) && Good(p, part, s, layers) && layers > 0 && RowsFit(s)
    requires Attached(s, |p.graph|) && |p.graph| in part
    requires Path(p.graph, path) && forall k :: 0 <= k < |path| ==> FailedQuietly(s, path[k])
    requires y in Dependers(Augmented(p.graph), path)
    ensures Now(s, y) in Live(s) && y in part && y <= |p.graph|
    ensures d in part && Edge(s.graph, d, y) && FailedQuietly(s, d)
    ensures var c := s.conts[|s.conts| - 1][y]; c.phase == Waiting || c.phase == Owing
  {
    hide Inv, RaceInv, AllEarned, Ordered, Live, Dependers, RowsFit;
    GoodIsClosed(p);
    d := DependerKinds(p, path, y);
    EdgesPersist(p.graph, layers, d, y);
    var k :| 0 <= k < |path| && path[k] == d;
    assert FailedQuietly(s, path[k]);
    DoomedIsLive(p, part, s, layers, y, d);
  }

  lemma TakeKeepsGuard(p: LoopPlan, q: QState, path: seq<nat>)
    requires Guard(p, q, path) && QEnabled(p, q, Take)
    ensures Guard(p, QApply(p, q, Take), path)
  {
    hide Dependers, Path, IsLeaf, Rising;
    var q' := QApply(p, q, Take);
    forall t, e | Ahead(q, t, e)
      ensures Ahead(q', t, e)
    {
      if t !in q.held {
        var a, b :| 0 <= a <= b < |q.queue| && q.queue[a] == t && q.queue[b] == e;
        if a > 0 {
          assert q'.queue[a - 1] == t && q'.queue[b - 1] == e;
        }
      }
    }
  }

  /** A doomed continuation gives up its thread only by recording the failure. */
  lemma DoomedKeepsThread(p: LoopPlan, part: set<nat>, layers: nat, s: State, step: Step, d: nat)
    requires Good(p, part, s, layers) && layers > 0 && RowsFit(s) && Enabled(p, s, step) && PoolStep(step)
    requires s.conts != [] && step.r == |s.conts| - 1 && step.i in part && Attached(s, step.i)
    requires d in part && Edge(s.graph, d, step.i) && FailedQuietly(s, d)
    requires s.conts[step.r][step.i].phase == Waiting || s.conts[step.r][step.i].phase == Owing
    requires Round(s) !in Apply(p, s, step).errors
    ensures !EndsTask(step, Apply(p, s, step))
  {
    hide RaceInv, Ordered, Working, AllEarned;
    NowOk(p, part, s, step.i);
    if s.conts[step.r][step.i].phase == Waiting {
      DoomedIsBroken(p, part, layers, s, step.i, d);
    }
  }

  lemma FailedQuietlyStays(p: LoopPlan, part: set<nat>, layers: nat, s: State, step: Step, d: nat)
    requires Good(p, part, s, layers) && layers > 0 && Enabled(p, s, step) && !step.Execute?
    requires d in part && FailedQuietly(s, d)
    requires var s' := Apply(p, s, step); Round(s') == Round(s) && Round(s) !in s'.errors
    ensures FailedQuietly(Apply(p, s, step), d)
  {
    hide Inv, RaceInv, AllEarned, Ordered;
    FailedStays(p, part, s, step, d);
    StepKeepsGraph(p, part, s, step);
  }

  lemma GoodShape(p: LoopPlan, part: set<nat>, layers: nat, s: State)
    requires Good(p, part, s, layers)
    ensures |s.cells| == |s.graph|
  {
  }

  lemma HeldStays(p: LoopPlan, part: set<nat>, layers: nat, s: State, step: Step, d: nat)
    requires Good(p, part, s, layers) && layers > 0 && Enabled(p, s, step)
    requires d in part && FailedQuietly(s, d) && Held(s, d)
    requires var s' := Apply(p, s, step); Round(s') == Round(s) && Round(s) !in s'.errors
    ensures Held(Apply(p, s, step), d)
  {
    hide RaceInv, AllEarned, Ordered;
    NowOk(p, part, s, d);
    GoodShape(p, part, layers, s);
    StepOthers(p, s, step);
    var s' := Apply(p, s, step);
    var c := s.conts[|s.conts| - 1][d];
    assert c.phase == Owing;
    if !(PoolStep(step) && step.r == |s.conts| - 1 && step.i == d) {
      assert s'.conts[|s.conts| - 1][d] == c;
    }
  }

  /** A step keeps everything ahead that was ahead, unless a task of it ends. */
  lemma AheadStays(p: LoopPlan, q: QState, step: Step, t: Task, e: Task)
    requires QEnabled(p, q, Do(step)) && Ahead(q, t, e)
    requires t == Actor(q.s, step) ==> !EndsTask(step, Apply(p, q.s, step))
    ensures Ahead(QApply(p, q, Do(step)), t, e)
  {
    hide Enabled, NewlyDue, EndsTask, QApply, Apply;
    var ended := QueueOfApply(p, q, step);
    var q' := QApply(p, q, Do(step));
    if t !in q.held {
      var a, b :| 0 <= a <= b < |q.queue| && q.queue[a] == t && q.queue[b] == e;
      assert q'.queue[a] == t && q'.queue[b] == e;
    }
  }

  lemma CorePart(p: LoopPlan, part: set<nat>, layers: nat, s: State, path: seq<nat>, k: nat)
    requires ListedInOrder(p.graph) && Good(p, part, s, layers) && Path(p.graph, path) && k < |path|
    ensures path[k] in part && path[k] < |p.graph|
  {
    hide Inv, RaceInv, AllEarned, Ordered, Built;
    GoodIsClosed(p);
    assert path[k] in path;
    InPath(p.graph, path, path[k]);
  }

  lemma DependerKeeps(p: LoopPlan, part: set<nat>, layers: nat, s: State, step: Step, path: seq<nat>, y: nat)
    requires ListedInOrder(p.graph) && Good(p, part, s, layers) && layers > 0 && RowsFit(s)
    requires Attached(s, |p.graph|) && |p.graph| in part && Enabled(p, s, step)
    requires Path(p.graph, path) && forall k :: 0 <= k < |path| ==> FailedQuietly(s, path[k])
    requires y in Dependers(Augmented(p.graph), path) && Round(s) !in Apply(p, s, step).errors
    ensures Now(s, y) == Actor(s, step) ==> !EndsTask(step, Apply(p, s, step))
  {
    hide Inv, RaceInv, AllEarned, Ordered, Dependers, RowsFit, Enabled, Apply, FailedQuietly;
    if Now(s, y) == Actor(s, step) {
      var d := GuardedIsLive(p, part, layers, s, path, y);
      DoomedKeepsThread(p, part, layers, s, step, d);
    }
  }

  lemma DoKeepsGuard(p: LoopPlan, part: set<nat>, layers: nat, q: QState, step: Step, path: seq<nat>)
    requires ListedInOrder(p.graph) && Good(p, part, q.s, layers) && layers > 0 && RowsFit(q.s)
    requires Attached(q.s, |p.graph|) && |p.graph| in part
    requires QEnabled(p, q, Do(step)) && !step.Execute? && Guard(p, q, path)
    requires var s' := Apply(p, q.s, step); Round(s') == Round(q.s) && Round(q.s) !in s'.errors
    ensures Guard(p, QApply(p, q, Do(step)), path)
  {
    hide Good, Dependers, RowsFit, Enabled, QApply, Apply, Ahead, FailedQuietly, Held;
    var ended := QueueOfApply(p, q, step);
    var q' := QApply(p, q, Do(step));
    forall k | 0 <= k < |path|
      ensures FailedQuietly(q'.s, path[k])
    {
      CorePart(p, part, layers, q.s, path, k);
      FailedQuietlyStays(p, part, layers, q.s, step, path[k]);
    }
    if Held(q.s, path[0]) {
      CorePart(p, part, layers, q.s, path, 0);
      HeldStays(p, part, layers, q.s, step, path[0]);
    }
    forall y | y in Dependers(Augmented(p.graph), path)
      ensures Ahead(q', Now(q'.s, y), Now(q'.s, |p.graph|))
    {
      DependerKeeps(p, part, layers, q.s, step, path, y);
      AheadStays(p, q, step, Now(q.s, y), Now(q.s, |p.graph|));
    }
  }

  // ---- End is queued behind the dependers of the failed path ------------------------------------

  ghost predicate Sorted(tasks: seq<Task>) {
    forall a, b :: 0 <= a < b < |tasks| ==>
      tasks[a].0 < tasks[b].0 || (tasks[a].0 == tasks[b].0 && tasks[a].1 < tasks[b].1)
  }

  lemma JoinSorted(front: seq<Task>, back: seq<Task>)
    requires Sorted(front) && Sorted(back)
    requires forall t, u :: t in front && u in back ==> t.0 < u.0 || (t.0 == u.0 && t.1 < u.1)
    ensures Sorted(front + back)
  {
    var all := front + back;
    forall a, b | 0 <= a < b < |all|
      ensures all[a].0 < all[b].0 || (all[a].0 == all[b].0 && all[a].1 < all[b].1)
    {
      if a < |front| <= b {
        assert all[a] in front && all[b] in back;
      }
    }
  }

  lemma SortedEnds(t: Task)
    ensures Sorted([]) && Sorted([t])
  {
  }

  lemma {:induction false} RowDueSorted(s: State, s': State, r: nat, n: nat)
    ensures Sorted(RowDue(s, s', r, n))
  {
    hide Due, Sorted;
    SortedEnds((r, n));
    if n > 0 {
      RowDueSorted(s, s', r, n - 1);
      SortedEnds((r, n - 1));
      JoinSorted(RowDue(s, s', r, n - 1), if Due(s', r, n - 1) && !Due(s, r, n - 1) then [(r, n - 1)] else []);
    }
  }

  lemma {:induction false} NewlyDueSorted(s: State, s': State, m: nat)
    requires m <= |s'.conts|
    ensures Sorted(NewlyDue(s, s', m))
  {
    hide Due, Sorted, NewlyDue, RowDue;
    if m == 0 {
      SortedEnds((m, 0));
      NoRowsDue(s, s');
    } else {
      NewlyDueSorted(s, s', m - 1);
      NextRowIsNew(s, s', m - 1);
      RowDueSorted(s, s', m - 1, |s'.conts[m - 1]|);
      JoinSorted(NewlyDue(s, s', m - 1), RowDue(s, s', m - 1, |s'.conts[m - 1]|));
    }
  }

  /** What is queued is ahead of a task that is queued no earlier. */
  lemma AheadOfNew(q: QState, queue: seq<Task>, news: seq<Task>, t: Task, e: Task)
    requires q.queue == queue + news && Sorted(news) && e in news
    requires t in q.held || t in queue || (t in news && (t == e || (t.0 == e.0 && t.1 < e.1)))
    ensures Ahead(q, t, e)
  {
    if t !in q.held {
      var b :| 0 <= b < |news| && news[b] == e;
      assert q.queue[|queue| + b] == e;
      if t in queue {
        var a :| 0 <= a < |queue| && queue[a] == t;
        assert q.queue[a] == t;
      } else {
        var a :| 0 <= a < |news| && news[a] == t;
        assert q.queue[|queue| + a] == t;
        assert a <= b;
      }
    }
  }

  /** When End becomes decided by a failure, a failed path to it is guarded. */
  lemma NewGuard(p: LoopPlan, part: set<nat>, layers: nat, q: QState, queue: seq<Task>, news: seq<Task>)
    returns (path: seq<nat>)
    requires ValidLoop(p) && ListedInOrder(p.graph) && Good(p, part, q.s, layers) && layers > 0 && RowsFit(q.s)
    requires q.held + Tasks(q.queue) == Live(q.s)
    requires q.queue == queue + news && Sorted(news)
    requires q.s.conts != [] && Attached(q.s, |p.graph|) && |p.graph| in part
    requires Now(q.s, |p.graph|) in news && Doomed(q.s, |p.graph|) && Round(q.s) !in q.s.errors
    ensures Guard(p, q, path)
  {
    hide Inv, RaceInv, AllEarned, Live, Dependers, RowsFit, Held, Ahead, Tasks, Path, Rising;
    var s := q.s;
    var d: nat :| Edge(s.graph, d, |p.graph|) && d < |s.cells| && s.cells[d].status == FAILED;
    EndDependees(p.graph, layers, 1, d);
    path := TraceBack(p, part, s, d);
    forall y | y in Dependers(Augmented(p.graph), path)
      ensures Ahead(q, Now(s, y), Now(s, |p.graph|))
    {
      var c := GuardedIsLive(p, part, layers, s, path, y);
      AheadOfNew(q, queue, news, Now(s, y), Now(s, |p.graph|));
    }
  }

  // ---- The guard in every run -------------------------------------------------------------------

  lemma LivesNow(p: LoopPlan, part: set<nat>, layers: nat, s: State, step: Step)
    requires Good(p, part, s, layers) && layers > 0 && Enabled(p, s, step) && PoolStep(step) && step.i in part
    ensures step.r == Round(s) && step.i < |s.conts[step.r]|
    ensures AttachedOk(p, part, s, step.i, s.conts[step.r][step.i])
  {
    hide RaceInv, AllEarned, Ordered;
    AliveIsNow(p, part, s, step);
  }

  /** A success of the present round is not undone in it. */
  lemma SuccessStays(p: LoopPlan, part: set<nat>, layers: nat, s: State, step: Step, d: nat)
    requires Good(p, part, s, layers) && layers > 0 && Enabled(p, s, step) && !step.Enter? && RowsFit(s)
    requires d in part && Attached(s, d) && Succeeded(s, d, Round(s))
    ensures d < |Apply(p, s, step).cells| && Apply(p, s, step).cells[d].status == SUCCEEDED
  {
    hide RaceInv, AllEarned, Ordered, Working, Augmented, DependeesSucceeded, FuturesCurrent;
    NowOk(p, part, s, d);
    if PoolStep(step) && step.i == d {
      LivesNow(p, part, layers, s, step);
    }
  }

  /** The dependee of a future that End holds. */
  lemma EndFuture(p: LoopPlan, part: set<nat>, layers: nat, s: State, d: nat) returns (f: Future)
    requires ValidLoop(p) && Good(p, part, s, layers) && layers > 0 && RowsFit(s) && s.conts != []
    requires |p.graph| in part && Attached(s, |p.graph|) && Edge(s.graph, d, |p.graph|)
    ensures d < |p.graph| && d in part && Attached(s, d)
    ensures f in s.conts[|s.conts| - 1][|p.graph|].futures && FutureValue(s, f) == Current(s.cells[d])
  {
    hide AllEarned, Ordered, RaceInv;
    EndDependees(p.graph, layers, 1, d);
    NowOk(p, part, s, |p.graph|);
    var k :| 0 <= k < |s.graph[|p.graph|]| && s.graph[|p.graph|][k] == d;
    f := s.conts[|s.conts| - 1][|p.graph|].futures[k];
  }

  lemma BrokenIsFailed(p: LoopPlan, part: set<nat>, s: State, d: nat)
    requires Inv(p, part, s) && !s.raced && d in part && d < |s.cells| && Current(s.cells[d]) == Broken
    ensures s.cells[d].status == FAILED
  {
    hide Working, FuturesCurrent, DependeesSucceeded;
    NowOk(p, part, s, d);
  }

  /** Where a future that End holds comes from. */
  lemma FutureOfEnd(p: LoopPlan, part: set<nat>, layers: nat, s: State, f: Future)
    requires ValidLoop(p) && Good(p, part, s, layers) && layers > 0 && RowsFit(s) && s.conts != []
    requires |p.graph| in part && Attached(s, |p.graph|) && f in s.conts[|s.conts| - 1][|p.graph|].futures
    ensures Edge(s.graph, f.dee, |p.graph|) && f.dee in part && f.dee < |s.cells|
    ensures FutureValue(s, f) == Current(s.cells[f.dee]) || f.gen < 0
  {
    hide RaceInv, AllEarned, Ordered, Working, DependeesSucceeded, CellOk;
    NowOk(p, part, s, |p.graph|);
    var c := s.conts[|s.conts| - 1][|p.graph|];
    var k :| 0 <= k < |c.futures| && c.futures[k] == f;
    assert Edge(s.graph, s.graph[|p.graph|][k], |p.graph|);
    EndDependees(p.graph, layers, 1, f.dee);
  }

  lemma EndNotBroken(p: LoopPlan, part: set<nat>, layers: nat, s: State, f: Future)
    requires ValidLoop(p) && Good(p, part, s, layers) && layers > 0 && RowsFit(s) && s.conts != []
    requires |p.graph| in part && Attached(s, |p.graph|)
    requires f in s.conts[|s.conts| - 1][|p.graph|].futures && FutureValue(s, f) == Broken
    ensures Doomed(s, |p.graph|)
  {
    hide Inv, RaceInv, AllEarned, Ordered, RowsFit;
    FutureOfEnd(p, part, layers, s, f);
    BrokenIsFailed(p, part, s, f.dee);
  }

  lemma AllDependeesDone(p: LoopPlan, part: set<nat>, layers: nat, s: State, d: nat)
    requires ValidLoop(p) && Good(p, part, s, layers) && layers > 0 && RowsFit(s)
    requires s.conts != [] && |p.graph| in part && Now(s, |p.graph|) in Live(s) && !Doomed(s, |p.graph|)
    requires Edge(s.graph, d, |p.graph|)
    ensures d in part && Attached(s, d) && Succeeded(s, d, Round(s))
  {
    hide AllEarned, Ordered, Working, OutsidersSound, FuturesCurrent;
    NowOk(p, part, s, |p.graph|);
    assert Blamed(p, part, s, |p.graph|);
    var f := EndFuture(p, part, layers, s, d);
    NowOk(p, part, s, d);
    var c := s.conts[|s.conts| - 1][|p.graph|];
    assert s.cells[d].status != FAILED;
    if c.phase == Waiting {
      if g :| g in c.futures && FutureValue(s, g) == Broken {
        EndNotBroken(p, part, layers, s, g);
      }
    }
  }

  lemma EndEdge(p: LoopPlan, part: set<nat>, layers: nat, s: State, step: Step, d: nat)
    requires Good(p, part, s, layers) && layers > 0 && Enabled(p, s, step) && |p.graph| in part
    requires Edge(Apply(p, s, step).graph, d, |p.graph|)
    ensures Edge(s.graph, d, |p.graph|)
  {
    hide Inv, RaceInv, AllEarned, Augmented;
    GoodShape(p, part, layers, s);
    if step.Execute? {
      AugmentedEdge(s.graph, d, |p.graph|);
    }
  }

  /** If End is decided otherwise than by a failure, no dependee of it can fail any more. */
  lemma DecidedOtherwise(p: LoopPlan, part: set<nat>, layers: nat, s: State, step: Step)
    requires ValidLoop(p) && Good(p, part, s, layers) && layers > 0 && RowsFit(s) && Enabled(p, s, step) && !step.Enter?
    requires s.conts != [] && |p.graph| in part && Now(s, |p.graph|) in Live(s) && !Doomed(s, |p.graph|)
    ensures !Doomed(Apply(p, s, step), |p.graph|)
  {
    hide Good, RowsFit, Enabled, Apply, Live;
    GoodShape(p, part, layers, s);
    var s' := Apply(p, s, step);
    forall d: nat | Edge(s'.graph, d, |p.graph|)
      ensures d < |s'.cells| && s'.cells[d].status == SUCCEEDED
    {
      EndEdge(p, part, layers, s, step, d);
      AllDependeesDone(p, part, layers, s, d);
      SuccessStays(p, part, layers, s, step, d);
    }
  }

  lemma {:induction false} EndInPart(g: Graph, layers: nat)
    requires layers > 0
    ensures |g| in OrderedPart(g, layers)
  {
    if layers > 1 {
      EndInPart(g, layers - 1);
    }
  }

  lemma CalledOnce(p: LoopPlan, part: set<nat>, layers: nat, s: State)
    requires Good(p, part, s, layers) && s.conts != []
    ensures layers > 0 && |p.graph| in part
  {
    EndInPart(p.graph, layers);
  }

  lemma RestingIsClean(p: LoopPlan, part: set<nat>, layers: nat, s: State, d: nat)
    requires Good(p, part, s, layers) && s.main == Outside && d in part && s.conts != []
    ensures !FailedQuietly(s, d)
  {
    NowOk(p, part, s, d);
  }

  lemma EndIsAttached(s: State, i: nat)
    requires s.conts != [] && Now(s, i) in Live(s)
    ensures Attached(s, i)
  {
  }

  lemma NotEnter(p: LoopPlan, s: State, step: Step)
    requires |s.cells| == |s.graph| && Enabled(p, s, step) && Round(Apply(p, s, step)) == Round(s)
    ensures !step.Enter?
  {
  }

  lemma GuardFailed(p: LoopPlan, q: QState, path: seq<nat>)
    requires Guard(p, q, path)
    ensures Path(p.graph, path) && |path| > 0 && FailedQuietly(q.s, path[0])
  {
  }

  lemma ExecuteRests(p: LoopPlan, s: State)
    requires Enabled(p, s, Execute)
    ensures s.main == Outside
  {
  }

  /** The continuation of End was decided before the step. */
  lemma OldEndStaysGuarded(p: LoopPlan, part: set<nat>, layers: nat, q: QState, step: Step)
    requires ValidLoop(p) && ListedInOrder(p.graph) && Good(p, part, q.s, layers) && RowsFit(q.s)
    requires QEnabled(p, q, Do(step)) && EndGuarded(p, q) && q.s.conts != [] && Now(q.s, |p.graph|) in Live(q.s)
    requires var s' := Apply(p, q.s, step);
             Round(s') == Round(q.s) && Round(q.s) !in s'.errors && Doomed(s', |p.graph|) && q.s.errors <= s'.errors
    ensures exists path :: Guard(p, QApply(p, q, Do(step)), path)
  {
    hide Good, RowsFit, Enabled, QApply, Apply, Guard;
    CalledOnce(p, part, layers, q.s);
    EndIsAttached(q.s, |p.graph|);
    NotEnter(p, q.s, step);
    if !Doomed(q.s, |p.graph|) {
      DecidedOtherwise(p, part, layers, q.s, step);
    }
    var path :| Guard(p, q, path);
    if step.Execute? {
      GuardFailed(p, q, path);
      CorePart(p, part, layers, q.s, path, 0);
      ExecuteRests(p, q.s);
      RestingIsClean(p, part, layers, q.s, path[0]);
    } else {
      DoKeepsGuard(p, part, layers, q, step, path);
    }
  }

  /** What a step leaves of rounds and records. */
  lemma StepRounds(p: LoopPlan, s: State, step: Step)
    requires |s.cells| == |s.graph| && Enabled(p, s, step)
    ensures var s' := Apply(p, s, step);
            && s.errors <= s'.errors
            && (if step.Enter? then s'.conts == s.conts + [[]] else |s'.conts| == |s.conts|)
  {
    hide Working, Augmented, FutureValue, Current;
  }

  lemma NewEndIsGuarded(p: LoopPlan, q: QState, step: Step)
    requires ValidLoop(p) && ListedInOrder(p.graph) && Reachable(p, q.s) && !q.s.raced
    requires QInv(p, q) && QEnabled(p, q, Do(step)) && !Apply(p, q.s, step).raced
    requires var s' := Apply(p, q.s, step);
             && s'.conts != [] && Now(s', |p.graph|) in Live(s') && Now(s', |p.graph|) !in Live(q.s)
             && Doomed(s', |p.graph|) && Round(s') !in s'.errors
    ensures exists path :: Guard(p, QApply(p, q, Do(step)), path)
  {
    hide QInv, Guard, Reachable, Good, Live, RowsFit, Enabled, QApply, Apply, NewlyDue, Doomed, EndsTask;
    hide FuturesKept, Sorted;
    var q', end := QApply(p, q, Do(step)), |p.graph|;
    var ended := QueueOfApply(p, q, step);
    var s, s' := q.s, q'.s;
    EndIsAttached(s', end);
    ReachableKeepsPromises(p, s, step);
    LiveEnds(p, s, step, ended);
    ReachableStep(p, s, step, s');
    var part, layers := ReachableIsGood(p, s');
    CalledOnce(p, part, layers, s');
    DoKeepsQInv(p, q, step);
    QInvGives(p, q');
    NewlyDueSorted(s, s', |s'.conts|);
    var path := NewGuard(p, part, layers, q', q.queue, NewlyDue(s, s', |s'.conts|));
  }

  lemma DoKeepsGuarded(p: LoopPlan, q: QState, step: Step)
    requires ValidLoop(p) && ListedInOrder(p.graph) && Reachable(p, q.s) && !q.s.raced
    requires QInv(p, q) && EndGuarded(p, q) && QEnabled(p, q, Do(step)) && !Apply(p, q.s, step).raced
    ensures EndGuarded(p, QApply(p, q, Do(step)))
  {
    hide Guard, Reachable, Good, Live, RowsFit, Enabled, QApply, Apply, NewlyDue, Doomed, EndsTask;
    hide QInv;
    var end := |p.graph|;
    var ended := QueueOfApply(p, q, step);
    var s, s' := q.s, Apply(p, q.s, step);
    if s'.conts != [] && Now(s', end) in Live(s') && Doomed(s', end) && Round(s') !in s'.errors {
      EndIsAttached(s', end);
      StepRounds(p, s, step);
      if step.Enter? || Now(s', end) !in Live(s) {
        assert !step.Enter?;
        NewEndIsGuarded(p, q, step);
      } else {
        QInvGives(p, q);
        var part, layers := ReachableIsGood(p, s);
        OldEndStaysGuarded(p, part, layers, q, step);
      }
    }
  }

  lemma TakeKeepsGuarded(p: LoopPlan, q: QState)
    requires EndGuarded(p, q) && QEnabled(p, q, Take)
    ensures EndGuarded(p, QApply(p, q, Take))
  {
    hide Guard, Live, Doomed;
    if path :| Guard(p, q, path) {
      TakeKeepsGuard(p, q, path);
    }
  }

  lemma InitialGuarded(p: LoopPlan)
    ensures EndGuarded(p, QState(Initial(p), [], {}))
  {
  }

  lemma QStepGuarded(p: LoopPlan, q: QState, qstep: QStep)
    requires ValidLoop(p) && ListedInOrder(p.graph) && Reachable(p, q.s) && !q.s.raced
    requires QInv(p, q) && EndGuarded(p, q) && QEnabled(p, q, qstep) && !QApply(p, q, qstep).s.raced
    ensures QInv(p, QApply(p, q, qstep)) && EndGuarded(p, QApply(p, q, qstep))
  {
    hide Reachable, QInv, EndGuarded, Enabled, Apply, NewlyDue, EndsTask;
    QStepKeepsInv(p, q, qstep);
    match qstep {
      case Take => TakeKeepsGuarded(p, q);
      case Do(step) => DoKeepsGuarded(p, q, step);
    }
  }

  lemma QMonotone(p: LoopPlan, q: QState, qstep: QStep)
    requires QEnabled(p, q, qstep)
    ensures q.s.raced ==> QApply(p, q, qstep).s.raced
  {
    hide Enabled, Apply, NewlyDue, EndsTask;
    if qstep.Do? {
      StepMonotone(p, q.s, qstep.step);
    }
  }

  lemma {:induction false} QRunGuarded(p: LoopPlan, tr: seq<QState>, k: nat)
    requires ValidLoop(p) && ListedInOrder(p.graph) && QRun(p, tr) && k < |tr| && !tr[k].s.raced
    ensures Reachable(p, tr[k].s) && QInv(p, tr[k]) && EndGuarded(p, tr[k])
  {
    hide Reachable, QInv, EndGuarded, QEnabled, QApply;
    QueueRunIsRun(p, tr, k);
    if k == 0 {
      InitialQInv(p);
      InitialGuarded(p);
    } else {
      assert QNext(p, tr[k - 1], tr[k - 1 + 1]);
      var qstep :| QEnabled(p, tr[k - 1], qstep) && tr[k] == QApply(p, tr[k - 1], qstep);
      QMonotone(p, tr[k - 1], qstep);
      QRunGuarded(p, tr, k - 1);
      QStepGuarded(p, tr[k - 1], qstep);
    }
  }

  // ---- A race takes as many threads as the path has dependers -----------------------------------

  lemma {:induction false} HeldDependers(w: set<nat>, r: nat, held: set<Task>)
    requires forall y :: y in w ==> (r, y) in held
    ensures |w| <= |held|
  {
    if w != {} {
      var y :| y in w;
      HeldDependers(w - {y}, r, held - {(r, y)});
    }
  }

  /** A task on a thread of the pool is not in the queue. */
  lemma WorkingIsHeld(p: LoopPlan, q: QState, i: nat)
    requires QInv(p, q) && Held(q.s, i)
    ensures Now(q.s, i) in q.held
  {
    assert Now(q.s, i) in Live(q.s);
  }

  lemma HeadIsNoDepender(p: LoopPlan, path: seq<nat>)
    requires ListedInOrder(p.graph) && Path(p.graph, path) && Rising(path)
    ensures path[0] !in Dependers(Augmented(p.graph), path)
  {
    hide Augmented;
    GoodIsClosed(p);
    if path[0] in Dependers(Augmented(p.graph), path) {
      var d := DependerKinds(p, path, path[0]);
      var k :| 0 <= k < |path| && path[k] == d;
      InPath(p.graph, path, path[0]);
      AugmentedEdge(p.graph, d, path[0]);
    }
  }

  lemma GuardCounts(p: LoopPlan, q: QState, path: seq<nat>)
    requires ListedInOrder(p.graph) && QInv(p, q) && Guard(p, q, path) && Now(q.s, |p.graph|) in q.held
    ensures QueuePath(p, path)
  {
    hide Dependers, Live, Due, RowsFit, IsLeaf, NoRepeats, Held, Augmented;
    var w := Dependers(Augmented(p.graph), path);
    forall y | y in w
      ensures Now(q.s, y) in q.held
    {
      assert Ahead(q, Now(q.s, y), Now(q.s, |p.graph|));
    }
    HeldDependers(w, |q.s.conts| - 1, q.held);
    if path[0] in p.mayThrow && Held(q.s, path[0]) {
      WorkingIsHeld(p, q, path[0]);
      HeadIsNoDepender(p, path);
      HeldDependers(w + {path[0]}, |q.s.conts| - 1, q.held);
    }
  }

  lemma HeldIsLive(s: State, i: nat)
    requires Held(s, i)
    ensures s.conts != [] && Now(s, i) in Live(s)
  {
  }

  lemma RacingSink(p: LoopPlan, part: set<nat>, layers: nat, s: State)
    requires Good(p, part, s, layers) && Enabled(p, s, Wake) && Apply(p, s, Wake).raced
    ensures layers > 0 && |p.graph| + 2 * layers - 2 in part && FailedQuietly(s, |p.graph| + 2 * layers - 2)
    ensures Known(p, part, s) && Round(s) !in s.errors
  {
    SinkInPart(p.graph, layers);
  }

  /** The step in which a queue run races has a failed path whose dependers all keep a thread. */
  lemma RaceNeedsPath(p: LoopPlan, q: QState, step: Step)
    requires ValidLoop(p) && ListedInOrder(p.graph) && Reachable(p, q.s) && !q.s.raced
    requires QInv(p, q) && EndGuarded(p, q) && QEnabled(p, q, Do(step)) && Apply(p, q.s, step).raced
    ensures MayRaceQueued(p)
  {
    hide QInv, Guard, Reachable, Inv, RaceInv, AllEarned, Ordered, Live, QueuePath, IsLeaf, Held;
    var part, layers := ReachableIsGood(p, q.s);
    assert step == Wake;
    CalledOnce(p, part, layers, q.s);
    RacingSink(p, part, layers, q.s);
    var leaf := EndTrace(p, part, q.s, layers, layers);
    assert Doomed(q.s, |p.graph|);
    HeldIsLive(q.s, |p.graph|);
    var path :| Guard(p, q, path);
    WorkingIsHeld(p, q, |p.graph|);
    GuardCounts(p, q, path);
  }

  lemma {:induction false} QueueRunNeedsPath(p: LoopPlan, tr: seq<QState>, k: nat)
    requires ValidLoop(p) && ListedInOrder(p.graph) && QRun(p, tr) && k < |tr| && tr[k].s.raced
    ensures MayRaceQueued(p)
  {
    hide Reachable, QInv, EndGuarded, Enabled, Apply, MayRaceQueued;
    if k > 0 {
      if tr[k - 1].s.raced {
        QueueRunNeedsPath(p, tr, k - 1);
      } else {
        assert QNext(p, tr[k - 1], tr[k - 1 + 1]);
        var qstep :| QEnabled(p, tr[k - 1], qstep) && tr[k] == QApply(p, tr[k - 1], qstep);
        QRunGuarded(p, tr, k - 1);
        RaceNeedsPath(p, tr[k - 1], qstep.step);
      }
    }
  }
}
