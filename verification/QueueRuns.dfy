/** The racing run on a pool that serves its queue in order, built task by task. */
module QueueRuns {
  import opened ActionGraph
  import opened ActionStatus
  import opened LoopSchedule
  import opened LoopInvariant
  import opened LoopLayers
  import opened LoopRaces
  import opened LoopProgress
  import opened LoopRuns
  import opened QueueSchedule
  import opened QueueRaces

  /** Where an action of the first round stands: not begun, begun by a thread that does nothing for now,
      succeeded, failed with an error, thrown and not yet handled, or failed and between the two writes. */
  datatype Mark = Todo | Stuck | Fine | Err | Thr | Owe

  function MarkCell(m: Mark): Cell {
    match m
    case Todo => FRESH
    case Stuck => FRESH
    case Fine => OK_0
    case Err => BAD_0
    case Thr => FRESH.(status := RUNNING)
    case Owe => BAD_0
  }

  function MarkPhase(m: Mark): Phase {
    match m
    case Todo => Waiting
    case Stuck => Waiting
    case Fine => Done
    case Err => Done
    case Thr => Thrown
    case Owe => Owing
  }

  predicate Waits(m: Mark) {
    m == Todo || m == Stuck
  }

  predicate Bad(m: Mark) {
    m == Err || m == Owe
  }

  /** The first round of the first call, everything attached. */
  ghost predicate Marked(p: LoopPlan, s: State, marks: seq<Mark>) {
    && s.graph == Augmented(p.graph) && |s.cells| == |s.graph| == |marks|
    && |s.conts| == 1 && |s.conts[0]| == |s.graph|
    && s.main == InRound && s.errors == {} && !s.raced && !s.crashed
    && (forall i: nat :: i < |marks| ==> s.cells[i] == MarkCell(marks[i]))
    && (forall i: nat :: i < |marks| ==> s.conts[0][i] == Cont(FuturesZero(s.graph, i), MarkPhase(marks[i])))
  }

  /** The same with the queue: the threads are with the idle ones and those between the two writes. */
  ghost predicate QMarked(p: LoopPlan, q: QState, marks: seq<Mark>) {
    && QReachable(p, q) && Marked(p, q.s, marks)
    && (forall t :: t in q.held <==> t.0 == 0 && t.1 < |marks| && (marks[t.1] == Stuck || marks[t.1] == Owe))
  }

  lemma QRoundOpens(p: LoopPlan) returns (q: QState)
    ensures QReachable(p, q) && Attaching(p, q.s) && q.s.conts == [[]] && q.held == {}
  {
    hide QReachable, NewlyDue, Augmented;
    QInitialReachable(p);
    var q0 := QState(Initial(p), [], {});
    QReachableStep(p, q0, Do(Execute));
    var q1 := QApply(p, q0, Do(Execute));
    QReachableStep(p, q1, Do(Enter));
    q := QApply(p, q1, Do(Enter));
  }

  lemma QFirstRound(p: LoopPlan) returns (q: QState)
    requires Closed(Augmented(p.graph))
    ensures QMarked(p, q, seq(|p.graph| + 2, _ => Todo))
  {
    hide QReachable, NewlyDue, Augmented, FuturesZero, Reachable;
    q := QRoundOpens(p);
    while |q.s.conts[0]| < |q.s.graph|
      invariant QReachable(p, q) && Attaching(p, q.s) && q.held == {}
      decreases |q.s.graph| - |q.s.conts[0]|
    {
      QReachableIsReachable(p, q);
      var s' := AttachOne(p, q.s);
      QReachableStep(p, q, Do(Register));
      q := QApply(p, q, Do(Register));
    }
  }

  // ---- What is due ------------------------------------------------------------------------------

  /** A dependee of `y` has failed. */
  predicate Lost(g: Graph, marks: seq<Mark>, y: nat) {
    y < |g| && exists d | d in g[y] :: d < |marks| && Bad(marks[d])
  }

  /** All dependees of `y` have succeeded. */
  predicate Clear(g: Graph, marks: seq<Mark>, y: nat) {
    y < |g| && forall d | d in g[y] :: d < |marks| && marks[d] == Fine
  }

  /** It can be decided about `y`, and no thread has taken it. */
  predicate Undone(g: Graph, marks: seq<Mark>, y: nat) {
    y < |marks| && ((marks[y] == Todo && (Clear(g, marks, y) || Lost(g, marks, y))) || marks[y] == Thr)
  }

  lemma MarkedFuture(p: LoopPlan, s: State, marks: seq<Mark>, y: nat, d: nat) returns (f: Future)
    requires Closed(s.graph) && Marked(p, s, marks) && y < |s.graph| && d in s.graph[y]
    ensures d < |marks| && f == Future(d, 0) && f in s.conts[0][y].futures
    ensures FutureValue(s, f) == Current(MarkCell(marks[d]))
  {
    assert Edge(s.graph, d, y);
    var k :| 0 <= k < |s.graph[y]| && s.graph[y][k] == d;
    f := s.conts[0][y].futures[k];
  }

  lemma FutureOfMarked(p: LoopPlan, s: State, marks: seq<Mark>, y: nat, f: Future)
    requires Closed(s.graph) && Marked(p, s, marks) && y < |s.graph| && f in s.conts[0][y].futures
    ensures f.dee in s.graph[y] && f.dee < |marks| && FutureValue(s, f) == Current(MarkCell(marks[f.dee]))
  {
    var k :| 0 <= k < |s.conts[0][y].futures| && s.conts[0][y].futures[k] == f;
    assert Edge(s.graph, s.graph[y][k], y);
  }

  lemma MarkedShape(p: LoopPlan, s: State, marks: seq<Mark>, y: nat)
    requires Marked(p, s, marks) && (y < |s.graph| || y < |marks|)
    ensures |s.conts| == 1 && |s.conts[0]| == |s.graph| == |marks| == |s.cells|
    ensures s.conts[0][y].phase == MarkPhase(marks[y]) && s.cells[y] == MarkCell(marks[y])
    ensures !s.crashed && !s.raced && s.graph == Augmented(p.graph)
  {
  }

  lemma MarkValue(m: Mark)
    ensures Current(MarkCell(m)) == Value <==> m == Fine
    ensures Current(MarkCell(m)) == Broken <==> Bad(m)
  {
  }

  lemma ClearMarks(p: LoopPlan, s: State, marks: seq<Mark>, y: nat)
    requires Closed(s.graph) && Marked(p, s, marks) && y < |s.graph| && |s.conts| == 1 && y < |s.conts[0]|
    ensures (forall f | f in s.conts[0][y].futures :: FutureValue(s, f) == Value) <==> Clear(s.graph, marks, y)
  {
    hide FutureValue, Marked, MarkCell, Current;
    if forall f | f in s.conts[0][y].futures :: FutureValue(s, f) == Value {
      forall d | d in s.graph[y]
        ensures d < |marks| && marks[d] == Fine
      {
        var f := MarkedFuture(p, s, marks, y, d);
        MarkValue(marks[d]);
      }
    }
    if Clear(s.graph, marks, y) {
      forall f | f in s.conts[0][y].futures
        ensures FutureValue(s, f) == Value
      {
        FutureOfMarked(p, s, marks, y, f);
        MarkValue(marks[f.dee]);
      }
    }
  }

  lemma LostMarks(p: LoopPlan, s: State, marks: seq<Mark>, y: nat)
    requires Closed(s.graph) && Marked(p, s, marks) && y < |s.graph| && |s.conts| == 1 && y < |s.conts[0]|
    ensures (exists f | f in s.conts[0][y].futures :: FutureValue(s, f) == Broken) <==> Lost(s.graph, marks, y)
  {
    hide FutureValue, Marked, MarkCell, Current, Bad;
    if f :| f in s.conts[0][y].futures && FutureValue(s, f) == Broken {
      FutureOfMarked(p, s, marks, y, f);
      MarkValue(marks[f.dee]);
    }
    if Lost(s.graph, marks, y) {
      var d :| d in s.graph[y] && d < |marks| && Bad(marks[d]);
      var f := MarkedFuture(p, s, marks, y, d);
      MarkValue(marks[d]);
    }
  }

  lemma DueMarks(p: LoopPlan, s: State, marks: seq<Mark>, y: nat)
    requires Closed(s.graph) && Marked(p, s, marks) && y < |s.graph|
    ensures |s.conts| == 1 && |s.conts[0]| == |s.graph| == |marks|
    ensures Due(s, 0, y) <==>
            (Waits(marks[y]) && (Clear(s.graph, marks, y) || Lost(s.graph, marks, y))) || marks[y] == Thr
    ensures (forall f | f in s.conts[0][y].futures :: FutureValue(s, f) == Value) <==> Clear(s.graph, marks, y)
    ensures (exists f | f in s.conts[0][y].futures :: FutureValue(s, f) == Broken) <==> Lost(s.graph, marks, y)
  {
    hide FutureValue, Marked, Clear, Lost;
    MarkedShape(p, s, marks, y);
    ClearMarks(p, s, marks, y);
    LostMarks(p, s, marks, y);
  }

  // ---- One task ---------------------------------------------------------------------------------

  /** A thread has just taken the task of `y`, and others were left. */
  ghost predicate Taken(p: LoopPlan, q: QState, marks: seq<Mark>, y: nat) {
    && QReachable(p, q) && Closed(q.s.graph) && Marked(p, q.s, marks) && y < |marks|
    && (0, y) in q.held && |Working(q.s)| < p.workers
  }

  lemma MarkedWith(p: LoopPlan, s: State, s': State, marks: seq<Mark>, y: nat, m: Mark)
    requires Marked(p, s, marks) && y < |marks|
    requires s' == s.(cells := s'.cells, conts := s'.conts, entered := s'.entered)
    requires s'.cells == s.cells[y := MarkCell(m)]
    requires s'.conts == [s.conts[0][y := s.conts[0][y].(phase := MarkPhase(m))]]
    ensures Marked(p, s', marks[y := m])
  {
    hide Augmented;
  }

  function MarkOf(o: Outcome): Mark {
    match o case ReturnsOk => Fine case ReturnsError => Err case Throws => Thr
  }

  lemma CellEnds(o: Outcome)
    ensures Ended(FRESH.(status := RUNNING), 0, o) == MarkCell(MarkOf(o))
    ensures MarkFailed(FRESH) == MarkCell(Owe) && MarkFailed(FRESH.(status := RUNNING)) == MarkCell(Owe)
    ensures PhaseAfterMark(FRESH) == Owing && PhaseAfterMark(FRESH.(status := RUNNING)) == Owing
  {
    assert [Unset][0 := Value] == [Value] && [Unset][0 := Broken] == [Broken];
  }

  /** The body of `y` is entered. */
  lemma BeginTask(p: LoopPlan, q: QState, marks: seq<Mark>, y: nat) returns (q': QState)
    requires Taken(p, q, marks, y) && marks[y] == Todo && Clear(q.s.graph, marks, y)
    ensures QReachable(p, q') && q'.held == q.held && |q.s.conts| == 1 && y < |q.s.conts[0]| && y < |q.s.cells|
    ensures q'.s == q.s.(cells := q'.s.cells, conts := q'.s.conts, entered := q'.s.entered)
    ensures q'.s.cells == q.s.cells[y := FRESH.(status := RUNNING)] && |q'.s.cells| == |q'.s.graph|
    ensures q'.s.conts == [q.s.conts[0][y := q.s.conts[0][y].(phase := Executing)]] && !q'.s.crashed
  {
    hide QReachable, NewlyDue, Working, Marked, Clear, FutureValue;
    MarkedShape(p, q.s, marks, y);
    DueMarks(p, q.s, marks, y);
    QReachableStep(p, q, Do(Start(0, y)));
    q' := QApply(p, q, Do(Start(0, y)));
  }

  /** The body of `y` is entered and ends with `o`. */
  lemma RunTask(p: LoopPlan, q: QState, marks: seq<Mark>, y: nat, o: Outcome) returns (q': QState)
    requires Taken(p, q, marks, y) && marks[y] == Todo && Clear(q.s.graph, marks, y) && CanEnd(p, y, o)
    ensures QReachable(p, q') && Marked(p, q'.s, marks[y := MarkOf(o)]) && q'.held == q.held - {(0, y)}
  {
    hide QReachable, NewlyDue, Working, Marked, Clear, Ended, FutureValue;
    CellEnds(o);
    var q1 := BeginTask(p, q, marks, y);
    QReachableStep(p, q1, Do(Finish(0, y, o)));
    q' := QApply(p, q1, Do(Finish(0, y, o)));
    assert q'.s.conts[0] == q.s.conts[0][y := q.s.conts[0][y].(phase := MarkPhase(MarkOf(o)))];
    MarkedWith(p, q.s, q'.s, marks, y, MarkOf(o));
  }

  /** The failure reaches `y`, or is caught there, and its thread comes to the first of the two writes. */
  lemma FailTask(p: LoopPlan, q: QState, marks: seq<Mark>, y: nat) returns (q': QState)
    requires Taken(p, q, marks, y)
    requires (marks[y] == Todo && Lost(q.s.graph, marks, y)) || marks[y] == Thr
    ensures QReachable(p, q') && Marked(p, q'.s, marks[y := Owe]) && q'.held == q.held
  {
    hide QReachable, NewlyDue, Working, Marked, Lost, LoopSchedule.MarkFailed, PhaseAfterMark;
    CellEnds(Throws);
    MarkedShape(p, q.s, marks, y);
    DueMarks(p, q.s, marks, y);
    var step := if marks[y] == Thr then Handle(0, y) else FailFast(0, y);
    QReachableStep(p, q, Do(step));
    q' := QApply(p, q, Do(step));
    MarkedWith(p, q.s, q'.s, marks, y, Owe);
  }

  lemma QReachableQInv(p: LoopPlan, q: QState, marks: seq<Mark>)
    requires ValidLoop(p) && ListedInOrder(p.graph) && QMarked(p, q, marks)
    ensures QInv(p, q)
  {
    hide QInv, EndGuarded, Reachable;
    var tr :| QRun(p, tr) && tr[|tr| - 1] == q;
    QRunGuarded(p, tr, |tr| - 1);
  }

  lemma DueIsHere(p: LoopPlan, s: State, marks: seq<Mark>, t: Task)
    requires Marked(p, s, marks) && Due(s, t.0, t.1)
    ensures t.0 == 0 && t.1 < |marks| == |s.graph|
  {
    hide FutureValue;
  }

  lemma WorkingMarked(p: LoopPlan, q: QState, marks: seq<Mark>)
    requires QMarked(p, q, marks)
    ensures |Working(q.s)| <= |q.held|
  {
    hide QReachable;
    forall t | t in Working(q.s)
      ensures t in q.held
    {
    }
    Larger(Working(q.s), q.held);
  }

  /** The head of the queue gets a thread. */
  lemma TakeTask(p: LoopPlan, q: QState, marks: seq<Mark>) returns (q': QState, y: nat)
    requires ValidLoop(p) && ListedInOrder(p.graph) && Closed(q.s.graph)
    requires QMarked(p, q, marks) && q.queue != [] && |q.held| < p.workers
    ensures Taken(p, q', marks, y) && q'.s == q.s && q'.held == q.held + {(0, y)}
    ensures Undone(q.s.graph, marks, y)
  {
    hide QReachable, Marked, Due, Clear, Lost, Working, QInv;
    QReachableQInv(p, q, marks);
    QInvGives(p, q);
    var head := q.queue[0];
    assert head in q.queue;
    y := head.1;
    DueIsHere(p, q.s, marks, head);
    DueMarks(p, q.s, marks, y);
    QReachableStep(p, q, Take);
    q' := QApply(p, q, Take);
    WorkingMarked(p, q, marks);
  }

  // ---- The invariant of the run -----------------------------------------------------------------

  /** Only what lies on the path fails, and threads are kept only because of that.  `t` is 1 if the first
      body throws. */
  ghost predicate Draining(p: LoopPlan, path: seq<nat>, t: nat, marks: seq<Mark>) {
    path != [] && var g, first := Augmented(p.graph), path[0];
    && |marks| == |g| && first < |marks| && t <= 1
    && (forall y: nat :: y < |marks| && Bad(marks[y]) ==> y in path)
    && (forall y: nat :: y < |marks| && y != first && (marks[y] == Owe || marks[y] == Stuck) ==> Lost(g, marks, y))
    && (forall y: nat :: y < |marks| && (y in path || y == |p.graph|) ==> marks[y] != Fine && marks[y] != Stuck)
    && (forall y: nat :: y < |marks| && (marks[y] == Err || marks[y] == Thr) ==> y == first)
    && (marks[first] == Todo ==> forall y: nat :: y < |marks| ==> marks[y] == Todo || marks[y] == Fine)
    && (t == 0 ==> marks[first] == Todo || marks[first] == Err)
    && (t == 1 ==> marks[first] != Err)
  }

  /** The path on which a failure can travel, and the threads that takes. */
  ghost predicate Wide(p: LoopPlan, path: seq<nat>, t: nat) {
    && ValidLoop(p) && ListedInOrder(p.graph) && Closed(p.graph)
    && Path(p.graph, path) && IsLeaf(p.graph, path[|path| - 1]) && |p.graph| !in path
    && |Dependers(Augmented(p.graph), path)| + t <= p.workers
    && CanEnd(p, path[0], if t == 0 then ReturnsError else Throws)
  }

  lemma StartDraining(p: LoopPlan, path: seq<nat>, t: nat)
    requires Wide(p, path, t) && t <= 1
    ensures Draining(p, path, t, seq(|p.graph| + 2, _ => Todo))
  {
    hide Augmented, Dependers;
  }

  /** Before End has failed there is a thread for one more task. */
  lemma DrainingLeavesThread(p: LoopPlan, path: seq<nat>, t: nat, q: QState, marks: seq<Mark>)
    requires Wide(p, path, t) && Draining(p, path, t, marks) && QMarked(p, q, marks)
    ensures |q.held| < p.workers
  {
    hide QReachable, Marked, Augmented, IsLeaf;
    var g, end := Augmented(p.graph), |p.graph|;
    var w := Dependers(g, path);
    AugmentedEdge(p.graph, path[|path| - 1], end);
    assert DependsOn(g, path, end);
    var most := (w - {end}) + (if t == 1 then {path[0]} else {});
    forall x | x in q.held
      ensures x.0 == 0 && x.1 in most
    {
      var y := x.1;
      if y != path[0] {
        var d :| d in g[y] && d < |marks| && Bad(marks[d]);
        assert Edge(g, d, y);
        assert DependsOn(g, path, y);
      }
    }
    ImageSize(most, q.held);
  }

  lemma {:induction false} FindClear(g: Graph, rank: seq<nat>, marks: seq<Mark>, y: nat) returns (z: nat)
    requires Ranks(g, rank) && |marks| == |g| && y < |g| && marks[y] == Todo
    requires forall i: nat :: i < |marks| ==> marks[i] == Todo || marks[i] == Fine
    ensures z < |g| && marks[z] == Todo && Clear(g, marks, z)
    decreases rank[y]
  {
    assert forall d :: d in g[y] ==> Edge(g, d, y);
    if d :| d in g[y] && marks[d] != Fine {
      z := FindClear(g, rank, marks, d);
    } else {
      z := y;
    }
  }

  /** The failure has come to some action of the path and not to the next. */
  lemma FindLost(p: LoopPlan, path: seq<nat>, t: nat, marks: seq<Mark>) returns (z: nat)
    requires Wide(p, path, t) && Draining(p, path, t, marks) && Bad(marks[path[0]])
    ensures z < |marks| && marks[z] == Todo && Lost(Augmented(p.graph), marks, z)
  {
    hide Augmented, Dependers, IsLeaf;
    LoopRounds.SinkPath(p.graph, path);
    var all, k := path + [|p.graph|], 0;
    while Bad(marks[all[k + 1]])
      invariant 0 <= k < |path| && all[k] < |marks| && all[k + 1] < |marks| && Bad(marks[all[k]])
      decreases |path| - k
    {
      assert all[k + 1] in path;
      k := k + 1;
      assert Edge(Augmented(p.graph), all[k], all[k + 1]);
    }
    assert Edge(Augmented(p.graph), all[k], all[k + 1]);
    z := all[k + 1];
  }

  lemma DrainingQueues(p: LoopPlan, path: seq<nat>, t: nat, q: QState, marks: seq<Mark>)
    requires Wide(p, path, t) && Draining(p, path, t, marks) && QMarked(p, q, marks)
    ensures q.queue != []
  {
    hide QReachable, Marked, Augmented, Dependers, QInv, Due, Lost, Clear;
    var z := path[0];
    if marks[path[0]] == Todo {
      var rank0 :| Ranks(p.graph, rank0);
      var rank := AugmentedRanks(p.graph, rank0);
      z := FindClear(Augmented(p.graph), rank, marks, z);
    } else if Bad(marks[path[0]]) {
      z := FindLost(p, path, t, marks);
    }
    MarkedShape(p, q.s, marks, z);
    AugmentedAcyclic(p.graph);
    DueMarks(p, q.s, marks, z);
    QReachableQInv(p, q, marks);
    QInvGives(p, q);
    assert (0, z) in Live(q.s);
  }

  /** What becomes of the next task: on the path it fails, after a failure elsewhere its thread idles, and
      otherwise it succeeds. */
  predicate Becomes(p: LoopPlan, path: seq<nat>, t: nat, marks: seq<Mark>, y: nat, m: Mark)
    requires y < |marks|
  {
    if marks[y] == Thr then m == Owe
    else if Lost(Augmented(p.graph), marks, y) then m == if y in path || y == |p.graph| then Owe else Stuck
    else if path != [] && y == path[0] then m == if t == 0 then Err else Thr
    else m == Fine
  }

  lemma LostStays(g: Graph, marks: seq<Mark>, y: nat, m: Mark, i: nat)
    requires y < |marks| && !Bad(marks[y]) && Lost(g, marks, i)
    ensures Lost(g, marks[y := m], i)
  {
  }

  lemma LostBlames(g: Graph, marks: seq<Mark>, y: nat)
    requires Lost(g, marks, y)
    ensures exists d: nat :: d < |marks| && Bad(marks[d])
  {
  }

  lemma Predecessor(p: LoopPlan, path: seq<nat>, y: nat) returns (d: nat)
    requires Path(p.graph, path) && IsLeaf(p.graph, path[|path| - 1])
    requires (y in path || y == |p.graph|) && y != path[0]
    ensures d in path && Edge(Augmented(p.graph), d, y)
  {
    hide Augmented, IsLeaf;
    LoopRounds.SinkPath(p.graph, path);
    var all := path + [|p.graph|];
    assert all[|path|] == |p.graph|;
    assert y in all;
    var k :| 0 <= k < |all| && all[k] == y;
    assert Edge(Augmented(p.graph), all[k - 1], all[k - 1 + 1]);
    d := all[k - 1];
  }

  /** Of the path and End only the first action can have had all its dependees. */
  lemma ClearIsFirst(p: LoopPlan, path: seq<nat>, t: nat, marks: seq<Mark>, y: nat)
    requires Wide(p, path, t) && Draining(p, path, t, marks)
    requires Clear(Augmented(p.graph), marks, y) && (y in path || y == |p.graph|)
    ensures y == path[0]
  {
    hide Augmented, Dependers, IsLeaf, Path;
    if y != path[0] {
      var d := Predecessor(p, path, y);
    }
  }

  lemma KeepsDraining(p: LoopPlan, path: seq<nat>, t: nat, marks: seq<Mark>, y: nat, m: Mark)
    requires Wide(p, path, t) && Draining(p, path, t, marks) && y < |marks| && y != |p.graph|
    requires Undone(Augmented(p.graph), marks, y)
    requires Becomes(p, path, t, marks, y, m)
    ensures Draining(p, path, t, marks[y := m])
  {
    hide Augmented, Wide, Lost, Clear;
    var g, marks' := Augmented(p.graph), marks[y := m];
    forall i: nat | i < |marks| && Lost(g, marks, i)
      ensures Lost(g, marks', i)
    {
      LostStays(g, marks, y, m, i);
    }
    if Lost(g, marks, y) {
      LostBlames(g, marks, y);
    } else if Clear(g, marks, y) && y in path {
      ClearIsFirst(p, path, t, marks, y);
    }
  }

  function WithMark(marks: seq<Mark>, m: Mark): (w: set<nat>) {
    set y: nat | y < |marks| && marks[y] == m
  }

  lemma FewerWith(marks: seq<Mark>, y: nat, m: Mark, m': Mark)
    requires y < |marks| && marks[y] == m != m'
    ensures |WithMark(marks[y := m'], m)| < |WithMark(marks, m)|
    ensures forall k :: k != m && k != m' ==> WithMark(marks[y := m'], k) == WithMark(marks, k)
  {
    assert WithMark(marks[y := m'], m) == WithMark(marks, m) - {y};
  }

  lemma IdleTask(p: LoopPlan, s: State, marks: seq<Mark>, y: nat)
    requires Marked(p, s, marks) && y < |marks| && marks[y] == Todo
    ensures Marked(p, s, marks[y := Stuck])
  {
    hide Augmented;
  }

  /** A task that has just got its thread is carried as far as intended. */
  lemma CarryTask(p: LoopPlan, path: seq<nat>, t: nat, q: QState, marks: seq<Mark>, y: nat)
    returns (q': QState, m: Mark)
    requires Wide(p, path, t) && Draining(p, path, t, marks) && Taken(p, q, marks, y)
    requires q.s.graph == Augmented(p.graph) && Undone(q.s.graph, marks, y)
    ensures Becomes(p, path, t, marks, y, m) && (y == |p.graph| ==> m == Owe)
    ensures QReachable(p, q') && Marked(p, q'.s, marks[y := m])
    ensures q'.held == if m == Owe || m == Stuck then q.held else q.held - {(0, y)}
  {
    hide QReachable, Augmented, Marked, Lost, Clear, Working, IsLeaf, Dependers;
    if marks[y] == Thr {
      m := Owe;
      q' := FailTask(p, q, marks, y);
    } else if Lost(Augmented(p.graph), marks, y) {
      if y in path || y == |p.graph| {
        m := Owe;
        q' := FailTask(p, q, marks, y);
      } else {
        m := Stuck;
        q' := q;
        IdleTask(p, q.s, marks, y);
      }
    } else {
      if y == |p.graph| {
        ClearIsFirst(p, path, t, marks, y);
      }
      var o := if y != path[0] then ReturnsOk else if t == 0 then ReturnsError else Throws;
      m := MarkOf(o);
      q' := RunTask(p, q, marks, y, o);
    }
  }

  /** The next task of the queue gets its thread. */
  lemma NextTask(p: LoopPlan, path: seq<nat>, t: nat, q: QState, marks: seq<Mark>)
    returns (q': QState, y: nat, m: Mark)
    requires Wide(p, path, t) && Draining(p, path, t, marks) && QMarked(p, q, marks)
    ensures Undone(Augmented(p.graph), marks, y) && Becomes(p, path, t, marks, y, m)
    ensures QMarked(p, q', marks[y := m])
    ensures y == |p.graph| ==> m == Owe
  {
    hide QReachable, Augmented, Marked, Lost, Clear, Working, IsLeaf, Dependers, Becomes;
    AugmentedAcyclic(p.graph);
    MarkedShape(p, q.s, marks, path[0]);
    DrainingQueues(p, path, t, q, marks);
    DrainingLeavesThread(p, path, t, q, marks);
    q', y := TakeTask(p, q, marks);
    q', m := CarryTask(p, path, t, q', marks, y);
  }

  lemma BecomesOther(p: LoopPlan, path: seq<nat>, t: nat, marks: seq<Mark>, y: nat, m: Mark)
    requires y < |marks| && (marks[y] == Todo || marks[y] == Thr) && Becomes(p, path, t, marks, y, m)
    ensures m != marks[y] && m != Todo
  {
    hide Augmented, Lost;
  }

  lemma WakeEarly(p: LoopPlan, q: QState, marks: seq<Mark>) returns (q': QState)
    requires QMarked(p, q, marks) && |marks| == |p.graph| + 2 && marks[|p.graph|] == Owe
    ensures QReachable(p, q') && q'.s.raced
  {
    hide QReachable, NewlyDue;
    QReachableStep(p, q, Do(Wake));
    q' := QApply(p, q, Do(Wake));
  }

  /** Task by task the queue is worked off until End has failed. */
  lemma DrainQueue(p: LoopPlan, path: seq<nat>, t: nat) returns (q: QState)
    requires Wide(p, path, t) && t <= 1
    ensures QReachable(p, q) && q.s.raced
  {
    hide QReachable, Augmented, Marked, QMarked, Dependers, IsLeaf, Draining, Becomes, Lost, Clear;
    AugmentedAcyclic(p.graph);
    q := QFirstRound(p);
    var marks := seq(|p.graph| + 2, _ => Todo);
    StartDraining(p, path, t);
    while marks[|p.graph|] != Owe
      invariant |marks| == |p.graph| + 2 && QMarked(p, q, marks)
      invariant marks[|p.graph|] != Owe ==> Draining(p, path, t, marks)
      decreases |WithMark(marks, Todo)|, |WithMark(marks, Thr)|
    {
      var q', y, m := NextTask(p, path, t, q, marks);
      BecomesOther(p, path, t, marks, y, m);
      FewerWith(marks, y, marks[y], m);
      if y != |p.graph| {
        KeepsDraining(p, path, t, marks, y, m);
      }
      q, marks := q', marks[y := m];
    }
    q := WakeEarly(p, q, marks);
  }

  lemma RacedNeedsPath(p: LoopPlan, q: QState)
    requires ValidLoop(p) && ListedInOrder(p.graph) && QReachable(p, q) && q.s.raced
    ensures MayRaceQueued(p)
  {
    hide MayRaceQueued;
    var tr :| QRun(p, tr) && tr[|tr| - 1] == q;
    QueueRunNeedsPath(p, tr, |tr| - 1);
  }

  /** With the queue, some run of a loop listed in order goes on after a failed round exactly if a failure
      can travel along some path to End while all that is queued before End because of it keeps a thread. */
  lemma QueueRacesExact(p: LoopPlan)
    requires ValidLoop(p) && ListedInOrder(p.graph)
    ensures (exists q :: QReachable(p, q) && q.s.raced) <==> MayRaceQueued(p)
  {
    hide Augmented, Dependers, QReachable, IsLeaf;
    if q :| QReachable(p, q) && q.s.raced {
      RacedNeedsPath(p, q);
    }
    if path :| QueuePath(p, path) {
      GoodIsClosed(p);
      if |p.graph| in path {
        InPath(p.graph, path, |p.graph|);
      }
      var w := Dependers(Augmented(p.graph), path);
      var q := DrainQueue(p, path, if path[0] in p.mayError && |w| <= p.workers then 0 else 1);
    }
  }

  // ---- The queue can keep a narrow pool from racing ---------------------------------------------

  /** Three actions depend on the one that may fail, and the one in the middle is a leaf. */
  const FAN := LoopPlan([[], [0], [0], [0], [1], [3]], {0}, {}, 2)

  lemma FanIsListed()
    ensures ValidLoop(FAN) && ListedInOrder(FAN.graph)
  {
    assert Ranks(FAN.graph, [0, 1, 1, 1, 2, 2]);
  }

  lemma FanHasRacingPath()
    ensures MayRace(FAN)
  {
    assert Edge(FAN.graph, 0, 2);
    assert Path(FAN.graph, [0, 2]);
    assert RacingPath(FAN, [0, 2]);
  }

  /** A pool that overtakes its queue can race on this plan; one that serves it in order cannot. */
  lemma QueueSaves()
    ensures ValidLoop(FAN) && ListedInOrder(FAN.graph)
    ensures exists s :: Reachable(FAN, s) && s.raced
    ensures forall q :: QReachable(FAN, q) ==> !q.s.raced
  {
    hide Reachable, QReachable, MayRace;
    FanIsListed();
    FanHasRacingPath();
    var s := LoopRounds.FailureReadTooEarly(FAN);
    forall path | QueuePath(FAN, path)
      ensures false
    {
      var w := Dependers(Augmented(FAN.graph), path);
      forall y | y in {1, 2, 3}
        ensures y in w
      {
        assert Edge(Augmented(FAN.graph), path[0], y);
      }
      Larger({1, 2, 3}, w);
    }
    QueueRacesExact(FAN);
  }
}
