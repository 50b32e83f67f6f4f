/** The loop on a pool that hands out its threads first in, first out.  A continuation is queued at the
    moment its futures are decided, together with all others that are decided by the same step, in the
    order they were attached; a thread takes the head of the queue and keeps it to the end of its task. */
module QueueSchedule {
  import opened ActionGraph
  import opened ActionStatus
  import opened LoopSchedule
  import opened LoopInvariant
  import opened LoopLayers
  import opened LoopRaces
  import opened LoopProgress
  import LoopRounds
  import LoopSafety
  import LoopTheorems

  type Task = (nat, nat)

  ghost function Tasks(queue: seq<Task>): (w: set<Task>)
    ensures forall t :: t in w <==> t in queue
  {
    set t | t in queue
  }

  /** `queue`: the tasks that wait for a thread.  `held`: the tasks that have one. */
  datatype QState = QState(s: State, queue: seq<Task>, held: set<Task>)

  /** The continuation is decided: it may run, it must fail, or the handler of its body is due. */
  predicate Due(s: State, r: nat, i: nat) {
    || (InPhase(s, r, i, Waiting)
        && ((forall f | f in s.conts[r][i].futures :: FutureValue(s, f) == Value)
            || (exists f | f in s.conts[r][i].futures :: FutureValue(s, f) == Broken)))
    || InPhase(s, r, i, Thrown)
  }

  /** Of the first `n` continuations of a row, those that have become due. */
  function RowDue(s: State, s': State, r: nat, n: nat): (tasks: seq<Task>)
    ensures forall t :: t in tasks <==> t.0 == r && t.1 < n && Due(s', r, t.1) && !Due(s, r, t.1)
  {
    if n == 0 then []
    else RowDue(s, s', r, n - 1) + (if Due(s', r, n - 1) && !Due(s, r, n - 1) then [(r, n - 1)] else [])
  }

  /** The same over the first `m` rows. */
  function NewlyDue(s: State, s': State, m: nat): (tasks: seq<Task>)
    requires m <= |s'.conts|
    ensures forall t :: t in tasks <==>
              t.0 < m && t.1 < |s'.conts[t.0]| && Due(s', t.0, t.1) && !Due(s, t.0, t.1)
  {
    if m == 0 then [] else NewlyDue(s, s', m - 1) + RowDue(s, s', m - 1, |s'.conts[m - 1]|)
  }

  datatype QStep = Take | Do(step: Step)

  predicate QEnabled(p: LoopPlan, q: QState, qstep: QStep) {
    match qstep
    case Take => q.queue != [] && |q.held| < p.workers
    case Do(step) =>
      && |q.s.cells| == |q.s.graph| && Enabled(p, q.s, step)
      && (PoolStep(step) ==> (step.r, step.i) in q.held)
  }

  /** The step ends the task of its continuation; the handler of a body that threw is a new one. */
  predicate EndsTask(step: Step, s': State) {
    PoolStep(step) && (InPhase(s', step.r, step.i, Done) || InPhase(s', step.r, step.i, Thrown))
  }

  function QApply(p: LoopPlan, q: QState, qstep: QStep): QState
    requires QEnabled(p, q, qstep)
  {
    match qstep
    case Take => q.(queue := q.queue[1..], held := q.held + {q.queue[0]})
    case Do(step) =>
      var s' := Apply(p, q.s, step);
      QState(s', q.queue + NewlyDue(q.s, s', |s'.conts|),
             if EndsTask(step, s') then q.held - {(step.r, step.i)} else q.held)
  }

  ghost predicate QNext(p: LoopPlan, q: QState, q': QState) {
    exists qstep :: QEnabled(p, q, qstep) && q' == QApply(p, q, qstep)
  }

  ghost predicate QRun(p: LoopPlan, tr: seq<QState>) {
    && |tr| > 0
    && tr[0] == QState(Initial(p), [], {})
    && forall k :: 0 <= k < |tr| - 1 ==> QNext(p, tr[k], tr[k + 1])
  }

  ghost predicate QReachable(p: LoopPlan, q: QState) {
    exists tr :: QRun(p, tr) && tr[|tr| - 1] == q
  }

  lemma QReachableStep(p: LoopPlan, q: QState, qstep: QStep)
    requires QReachable(p, q) && QEnabled(p, q, qstep)
    ensures QReachable(p, QApply(p, q, qstep))
  {
    var tr :| QRun(p, tr) && tr[|tr| - 1] == q;
    var tr' := tr + [QApply(p, q, qstep)];
    forall k | 0 <= k < |tr'| - 1
      ensures QNext(p, tr'[k], tr'[k + 1])
    {
      if k < |tr| - 1 {
        assert QNext(p, tr[k], tr[k + 1]);
      }
    }
    assert QRun(p, tr') && tr'[|tr'| - 1] == QApply(p, q, qstep);
  }

  lemma QInitialReachable(p: LoopPlan)
    ensures QReachable(p, QState(Initial(p), [], {}))
  {
    var tr := [QState(Initial(p), [], {})];
    assert QRun(p, tr) && tr[|tr| - 1] == QState(Initial(p), [], {});
  }

  // ---- What holds of every run holds with the queue ---------------------------------------------

  /** A run with the queue is a run: all guarantees carry over. */
  lemma {:induction false} QueueRunIsRun(p: LoopPlan, tr: seq<QState>, k: nat)
    requires QRun(p, tr) && k < |tr|
    ensures Reachable(p, tr[k].s)
  {
    hide Reachable;
    if k == 0 {
      InitialReachable(p);
    } else {
      QueueRunIsRun(p, tr, k - 1);
      assert QNext(p, tr[k - 1], tr[k - 1 + 1]);
      var qstep :| QEnabled(p, tr[k - 1], qstep) && tr[k] == QApply(p, tr[k - 1], qstep);
      if qstep.Do? {
        ReachableStep(p, tr[k - 1].s, qstep.step, tr[k].s);
      }
    }
  }

  lemma QReachableIsReachable(p: LoopPlan, q: QState)
    requires QReachable(p, q)
    ensures Reachable(p, q.s)
  {
    var tr :| QRun(p, tr) && tr[|tr| - 1] == q;
    QueueRunIsRun(p, tr, |tr| - 1);
  }

  // ---- On a wide pool every run is one with the queue -------------------------------------------

  /** The tasks that are due or on a thread. */
  function Live(s: State): (w: set<Task>) {
    set r: nat, i: nat | r < |s.conts| && i < |s.conts[r]| && (Due(s, r, i) || Occupies(s.conts[r][i])) :: (r, i)
  }

  /** What a future holds it goes on holding. */
  ghost predicate FuturesKept(s: State, s': State) {
    forall f :: FutureValue(s, f) != Unset ==> FutureValue(s', f) == FutureValue(s, f)
  }

  lemma PoolKeepsPromises(p: LoopPlan, part: set<nat>, s: State, step: Step)
    requires StepOk(p, part, s, step) && PoolStep(step) && OutsidersSound(p, part, s) && BeginInv(part, s)
    ensures FuturesKept(s, Apply(p, s, step))
  {
    hide Working, OutsidersSound, AllServed, AllKnown, FuturesCurrent, DependeesSucceeded, Ordered;
    if step.i in part {
      AliveIsNow(p, part, s, step);
      NowOk(p, part, s, step.i);
    } else {
      OutsiderNeverFails(p, part, s, step);
      assert BeginCell(s.cells[step.i]);
    }
  }

  lemma MainKeepsPromises(p: LoopPlan, s: State, step: Step)
    requires |s.cells| == |s.graph| && Enabled(p, s, step) && !PoolStep(step)
    ensures FuturesKept(s, Apply(p, s, step))
  {
    hide Working, Augmented;
  }

  /** Only the continuation `t` differs, and every new one still waits. */
  ghost predicate OthersSame(s: State, s': State, t: Task) {
    && |s.cells| <= |s'.cells| && |s.conts| <= |s'.conts|
    && (forall r :: 0 <= r < |s.conts| ==> |s.conts[r]| <= |s'.conts[r]|)
    && (forall r: nat, i: nat :: r < |s.conts| && i < |s.conts[r]| && (r, i) != t ==> s'.conts[r][i] == s.conts[r][i])
    && (forall r: nat, i: nat :: r < |s'.conts| && i < |s'.conts[r]| && (r >= |s.conts| || i >= |s.conts[r]|)
          ==> s'.conts[r][i].phase == Waiting)
  }

  /** The continuation a pool step belongs to; for the main thread's steps none that exists. */
  function Actor(s: State, step: Step): (t: Task) {
    if PoolStep(step) then (step.r, step.i) else (|s.conts| + 1, 0)
  }

  lemma StepOthers(p: LoopPlan, s: State, step: Step)
    requires |s.cells| == |s.graph| && Enabled(p, s, step)
    ensures OthersSame(s, Apply(p, s, step), Actor(s, step))
  {
    hide Working, Augmented, FutureValue, Current;
  }

  lemma DueStays(s: State, s': State, x: Task)
    requires FuturesKept(s, s') && |s.cells| <= |s'.cells| && Due(s, x.0, x.1)
    requires x.0 < |s'.conts| && x.1 < |s'.conts[x.0]| && s'.conts[x.0][x.1] == s.conts[x.0][x.1]
    ensures Due(s', x.0, x.1)
  {
    hide FutureValue;
  }

  lemma LiveOthers(s: State, s': State, t: Task, x: Task)
    requires RowsFit(s) && RowsFit(s') && OthersSame(s, s', t) && FuturesKept(s, s') && x != t
    ensures x in Live(s') <==> x in Live(s) || x in NewlyDue(s, s', |s'.conts|)
    ensures x in NewlyDue(s, s', |s'.conts|) ==> x !in Live(s)
  {
    hide NewlyDue, FutureValue;
    var news := NewlyDue(s, s', |s'.conts|);
    if x.0 < |s.conts| && x.1 < |s.conts[x.0]| {
      assert s'.conts[x.0][x.1] == s.conts[x.0][x.1];
      if Due(s, x.0, x.1) {
        DueStays(s, s', x);
      }
    }
  }

  lemma ActorWasLive(p: LoopPlan, s: State, step: Step)
    requires |s.cells| == |s.graph| && Enabled(p, s, step) && PoolStep(step)
    ensures (step.r, step.i) in Live(s)
  {
    hide Working;
  }

  /** Where the continuation of a pool step stands afterwards. */
  lemma ActorAfter(p: LoopPlan, s: State, step: Step)
    requires |s.cells| == |s.graph| && Enabled(p, s, step) && PoolStep(step) && !Apply(p, s, step).crashed
    ensures var s', r, i := Apply(p, s, step), step.r, step.i;
            || InPhase(s', r, i, Executing) || InPhase(s', r, i, Owing) || InPhase(s', r, i, Done)
            || (InPhase(s', r, i, Thrown) && InPhase(s, r, i, Executing))
    ensures InPhase(Apply(p, s, step), step.r, step.i, Thrown) ==> !Due(s, step.r, step.i)
  {
    hide Working, FutureValue, Current;
  }

  lemma CrashKeeps(p: LoopPlan, s: State, step: Step)
    requires |s.cells| == |s.graph| && Enabled(p, s, step) && PoolStep(step) && Apply(p, s, step).crashed
    ensures Apply(p, s, step).cells == s.cells && Apply(p, s, step).conts == s.conts
    ensures !EndsTask(step, Apply(p, s, step)) && !Due(Apply(p, s, step), step.r, step.i) <==> !Due(s, step.r, step.i)
  {
    hide Working, Current;
  }

  lemma ActorLives(p: LoopPlan, s: State, step: Step)
    requires |s.cells| == |s.graph| && Enabled(p, s, step) && PoolStep(step)
    ensures (step.r, step.i) in Live(s)
    ensures var s', t := Apply(p, s, step), (step.r, step.i);
            if EndsTask(step, s') then t in Live(s') <==> t in NewlyDue(s, s', |s'.conts|)
            else t in Live(s') && t !in NewlyDue(s, s', |s'.conts|)
  {
    hide NewlyDue, FutureValue;
    ActorWasLive(p, s, step);
    if Apply(p, s, step).crashed {
      CrashKeeps(p, s, step);
    } else {
      hide Enabled, Apply;
      ActorAfter(p, s, step);
    }
  }

  ghost predicate NoRepeats(tasks: seq<Task>) {
    forall a, b :: 0 <= a < b < |tasks| ==> tasks[a] != tasks[b]
  }

  lemma JoinNoRepeats(front: seq<Task>, back: seq<Task>)
    requires NoRepeats(front) && NoRepeats(back) && forall t :: t in back ==> t !in front
    ensures NoRepeats(front + back)
  {
    var all := front + back;
    forall a, b | 0 <= a < b < |all|
      ensures all[a] != all[b]
    {
      if a < |front| <= b {
        assert all[b] in back;
      }
    }
  }

  lemma EmptyNoRepeats()
    ensures NoRepeats([])
  {
  }

  lemma {:induction false} RowDueOnce(s: State, s': State, r: nat, n: nat)
    ensures NoRepeats(RowDue(s, s', r, n))
  {
    hide Due;
    if n > 0 {
      RowDueOnce(s, s', r, n - 1);
      JoinNoRepeats(RowDue(s, s', r, n - 1), [(r, n - 1)]);
    }
  }

  lemma NextRowIsNew(s: State, s': State, r: nat)
    requires r < |s'.conts|
    ensures NewlyDue(s, s', r + 1) == NewlyDue(s, s', r) + RowDue(s, s', r, |s'.conts[r]|)
    ensures forall t :: t in RowDue(s, s', r, |s'.conts[r]|) ==> t.0 == r
    ensures forall t :: t in NewlyDue(s, s', r) ==> t.0 < r
  {
    hide Due, RowDue;
  }

  lemma NoRowsDue(s: State, s': State)
    ensures NewlyDue(s, s', 0) == []
  {
  }

  lemma {:induction false} NewlyDueOnce(s: State, s': State, m: nat)
    requires m <= |s'.conts|
    ensures NoRepeats(NewlyDue(s, s', m))
  {
    hide Due, NoRepeats, NewlyDue, RowDue;
    if m == 0 {
      EmptyNoRepeats();
      NoRowsDue(s, s');
    } else {
      NewlyDueOnce(s, s', m - 1);
      NextRowIsNew(s, s', m - 1);
      RowDueOnce(s, s', m - 1, |s'.conts[m - 1]|);
      JoinNoRepeats(NewlyDue(s, s', m - 1), RowDue(s, s', m - 1, |s'.conts[m - 1]|));
    }
  }

  lemma RowsShape(s: State)
    requires RowsFit(s)
    ensures |s.cells| == |s.graph|
  {
  }

  lemma NoActor(p: LoopPlan, s: State, step: Step)
    requires |s.cells| == |s.graph| && Enabled(p, s, step) && !PoolStep(step)
    ensures var s' := Apply(p, s, step); var t := Actor(s, step);
            t !in Live(s) && t !in Live(s') && t !in NewlyDue(s, s', |s'.conts|)
  {
    hide Working, Augmented;
  }

  /** After a step the live tasks are those that kept their thread and those newly queued. */
  lemma LiveAfter(p: LoopPlan, s: State, step: Step)
    requires RowsFit(s) && Enabled(p, s, step) && FuturesKept(s, Apply(p, s, step))
    ensures var s' := Apply(p, s, step);
            var held := if EndsTask(step, s') then Live(s) - {(step.r, step.i)} else Live(s);
            var news := NewlyDue(s, s', |s'.conts|);
            && Live(s') == held + Tasks(news)
            && (forall t :: t in news ==> t !in held)
  {
    hide Live, NewlyDue, Enabled, RowsFit, FuturesKept, OthersSame, FutureValue;
    RowsShape(s);
    var s' := Apply(p, s, step);
    StepKeepsRows(p, s, step);
    StepOthers(p, s, step);
    if PoolStep(step) {
      ActorLives(p, s, step);
    } else {
      NoActor(p, s, step);
    }
    forall x: Task | x != Actor(s, step)
      ensures x in Live(s') <==> x in Live(s) || x in NewlyDue(s, s', |s'.conts|)
      ensures x in NewlyDue(s, s', |s'.conts|) ==> x !in Live(s)
    {
      LiveOthers(s, s', Actor(s, step), x);
    }
  }

  /** While there are threads left, the queue is emptied. */
  lemma {:induction false} TakeAll(p: LoopPlan, s: State, queue: seq<Task>, held: set<Task>)
    requires QReachable(p, QState(s, queue, held)) && |held| + |queue| <= p.workers
    requires NoRepeats(queue)
    requires forall t :: t in queue ==> t !in held
    ensures QReachable(p, QState(s, [], held + Tasks(queue)))
    decreases |queue|
  {
    hide QReachable;
    if queue == [] {
      assert held + Tasks(queue) == held;
    } else {
      QReachableStep(p, QState(s, queue, held), Take);
      TakeAll(p, s, queue[1..], held + {queue[0]});
      assert held + {queue[0]} + Tasks(queue[1..]) == held + Tasks(queue);
    }
  }

  lemma {:induction false} UnionSize(held: set<Task>, queue: seq<Task>)
    requires NoRepeats(queue)
    requires forall t :: t in queue ==> t !in held
    ensures |held + Tasks(queue)| == |held| + |queue|
    decreases |queue|
  {
    if queue == [] {
      assert held + Tasks(queue) == held;
    } else {
      UnionSize(held + {queue[0]}, queue[1..]);
      assert held + {queue[0]} + Tasks(queue[1..]) == held + Tasks(queue);
    }
  }

  /** One step, and the tasks it makes due take their threads at once. */
  lemma RealiseStep(p: LoopPlan, s: State, step: Step)
    requires QReachable(p, QState(s, [], Live(s))) && RowsFit(s) && Enabled(p, s, step)
    requires FuturesKept(s, Apply(p, s, step)) && |Live(Apply(p, s, step))| <= p.workers
    ensures QReachable(p, QState(Apply(p, s, step), [], Live(Apply(p, s, step))))
  {
    hide QReachable, Live, NewlyDue, FuturesKept, RowsFit, Enabled;
    RowsShape(s);
    var q, s' := QState(s, [], Live(s)), Apply(p, s, step);
    if PoolStep(step) {
      ActorLives(p, s, step);
    }
    QReachableStep(p, q, Do(step));
    LiveAfter(p, s, step);
    var q' := QApply(p, q, Do(step));
    NewlyDueOnce(s, s', |s'.conts|);
    assert q'.queue == NewlyDue(s, s', |s'.conts|);
    UnionSize(q'.held, q'.queue);
    TakeAll(p, s', q'.queue, q'.held);
  }

  // ---- How many tasks there can be --------------------------------------------------------------

  ghost function RowTasks(r: nat, n: nat): (w: set<Task>)
    ensures |w| == n && forall t :: t in w <==> t.0 == r && t.1 < n
  {
    if n == 0 then {} else RowTasks(r, n - 1) + {(r, n - 1)}
  }

  /** All tasks below the bounds. */
  ghost function GridTasks(rows: nat, n: nat): (w: set<Task>)
    ensures |w| == rows * n && forall t :: t in w <==> t.0 < rows && t.1 < n
  {
    if rows == 0 then {}
    else
      var less, row := GridTasks(rows - 1, n), RowTasks(rows - 1, n);
      assert less !! row;
      less + row
  }

  lemma LiveBound(s: State, rows: nat, n: nat)
    requires RowsFit(s) && |s.conts| <= rows && |s.graph| <= n
    ensures |Live(s)| <= rows * n
  {
    assert Live(s) <= GridTasks(rows, n);
    Larger(Live(s), GridTasks(rows, n));
  }

  // ---- Runs on a wide pool ----------------------------------------------------------------------

  lemma StepIsLive(p: LoopPlan, s: State, step: Step)
    requires Enabled(p, s, step)
    ensures !s.crashed
  {
  }

  lemma UnracedKeepsPromises(p: LoopPlan, tr: seq<State>, k: nat, step: Step)
    requires ValidLoop(p) && ListedInOrder(p.graph) && Run(p, tr) && k < |tr| && !tr[k].raced
    requires Enabled(p, tr[k], step)
    ensures |tr[k].cells| == |tr[k].graph| && FuturesKept(tr[k], Apply(p, tr[k], step))
  {
    hide Enabled, BeginInv, OutsidersSound, AllBlamed, MemberOk, FuturesKept, Run;
    StepIsLive(p, tr[k], step);
    var layers := RunKeepsBegins(p, tr, k);
    if PoolStep(step) {
      FirstIsExecute(p, tr[k], step, layers);
      LayersGiveOrder(p.graph, layers);
      PoolKeepsPromises(p, OrderedPart(p.graph, layers), tr[k], step);
    } else {
      MainKeepsPromises(p, tr[k], step);
    }
  }

  lemma NoneLive(p: LoopPlan)
    ensures Live(Initial(p)) == {}
  {
  }

  /** A run of a loop listed in order that has not raced before its last state, and never has more live
      tasks than the pool has threads, is a run with the queue. */
  lemma {:induction false} WidePoolRealises(p: LoopPlan, tr: seq<State>, k: nat)
    requires ValidLoop(p) && ListedInOrder(p.graph) && Run(p, tr) && k < |tr|
    requires forall j :: 0 <= j < k ==> !tr[j].raced
    requires forall j :: 0 <= j <= k ==> |Live(tr[j])| <= p.workers
    ensures QReachable(p, QState(tr[k], [], Live(tr[k])))
  {
    hide QReachable, Live, FuturesKept, RowsFit, Enabled;
    if k == 0 {
      QInitialReachable(p);
      NoneLive(p);
    } else {
      WidePoolRealises(p, tr, k - 1);
      RunRowsFit(p, tr, k - 1);
      assert Next(p, tr[k - 1], tr[k - 1 + 1]);
      var step :| Enabled(p, tr[k - 1], step) && tr[k] == Apply(p, tr[k - 1], step);
      UnracedKeepsPromises(p, tr, k - 1, step);
      RealiseStep(p, tr[k - 1], step);
    }
  }

  lemma StepGrows(p: LoopPlan, s: State, step: Step)
    requires |s.cells| == |s.graph| && Enabled(p, s, step)
    ensures |s.graph| <= |Apply(p, s, step).graph|
  {
    hide Working;
  }

  lemma {:induction false} RunGrows(p: LoopPlan, tr: seq<State>, j: nat, k: nat)
    requires Run(p, tr) && j <= k < |tr|
    ensures |tr[j].conts| <= |tr[k].conts| && |tr[j].graph| <= |tr[k].graph| && (tr[j].raced ==> tr[k].raced)
    decreases k
  {
    hide Enabled, Apply;
    if j < k {
      RunGrows(p, tr, j, k - 1);
      assert Next(p, tr[k - 1], tr[k - 1 + 1]);
      var step :| Enabled(p, tr[k - 1], step) && tr[k] == Apply(p, tr[k - 1], step);
      StepMonotone(p, tr[k - 1], step);
      StepGrows(p, tr[k - 1], step);
    }
  }

  lemma {:induction false} FirstRaced(tr: seq<State>, k: nat) returns (m: nat)
    requires k < |tr| && tr[k].raced
    ensures m <= k && tr[m].raced && forall j :: 0 <= j < m ==> !tr[j].raced
  {
    if j: nat :| j < k && tr[j].raced {
      m := FirstRaced(tr, j);
    } else {
      m := k;
    }
  }

  lemma WidePoolRaces(p: LoopPlan) returns (q: QState)
    requires ValidLoop(p) && ListedInOrder(p.graph) && MayRace(p) && p.workers >= |p.graph| + 2
    ensures QReachable(p, q) && q.s.raced
  {
    hide QReachable, MayRace, Live, RowsFit;
    var s := LoopRounds.FailureReadTooEarly(p);
    var tr :| Run(p, tr) && tr[|tr| - 1] == s;
    var m := FirstRaced(tr, |tr| - 1);
    forall j | 0 <= j <= m
      ensures |Live(tr[j])| <= p.workers
    {
      RunGrows(p, tr, j, |tr| - 1);
      RunRowsFit(p, tr, j);
      LiveBound(tr[j], 1, |p.graph| + 2);
    }
    WidePoolRealises(p, tr, m);
    q := QState(tr[m], [], Live(tr[m]));
  }

  /** With the queue, a loop without a racing path never goes on after a failed round; and where the pool
      has a thread for every action, Begin and End included, some run does exactly if any body may fail. */
  lemma QueueRaces(p: LoopPlan)
    requires ValidLoop(p) && ListedInOrder(p.graph)
    ensures !MayRace(p) ==> forall q :: QReachable(p, q) ==> !q.s.raced
    ensures p.workers >= |p.graph| + 2 ==>
              ((exists q :: QReachable(p, q) && q.s.raced) <==> p.mayError + p.mayThrow != {})
  {
    hide QReachable, MayRace;
    if !MayRace(p) {
      forall q | QReachable(p, q)
        ensures !q.s.raced
      {
        QReachableIsReachable(p, q);
        LoopTheorems.ReachableNeverRaces(p, q.s);
      }
    }
    if p.mayError + p.mayThrow == {} {
      LoopTheorems.NoFailureNoRace(p);
    } else if p.workers >= |p.graph| + 2 {
      WidePoolMayRace(p);
      var q := WidePoolRaces(p);
    }
  }

  /** With the queue, too, a pool with a thread for every continuation of three rounds can have the
      process aborted in the third, although nothing failed; two rounds are safe on any pool. */
  lemma QueueAborts(p: LoopPlan)
    requires ValidLoop(p) && ListedInOrder(p.graph)
    ensures forall q :: QReachable(p, q) && !q.s.raced && |q.s.conts| <= 2 ==> !q.s.crashed
    ensures p.workers >= 3 * (|p.graph| + 2) ==>
              exists q :: QReachable(p, q) && q.s.crashed && !q.s.raced && |q.s.conts| == 3
  {
    hide QReachable, Live, RowsFit;
    forall q | QReachable(p, q) && !q.s.raced && |q.s.conts| <= 2
      ensures !q.s.crashed
    {
      QReachableIsReachable(p, q);
      LoopSafety.TwoRoundsNeverAbort(p, q.s);
    }
    if p.workers >= 3 * (|p.graph| + 2) {
      var s := LoopRounds.LateBeginAborts(p);
      var tr: seq<State> :| Run(p, tr) && tr[|tr| - 1] == s;
      forall j | 0 <= j < |tr|
        ensures !tr[j].raced && |Live(tr[j])| <= p.workers
      {
        RunGrows(p, tr, j, |tr| - 1);
        RunRowsFit(p, tr, j);
        LiveBound(tr[j], 3, |p.graph| + 2);
      }
      WidePoolRealises(p, tr, |tr| - 1);
      assert QReachable(p, QState(s, [], Live(s)));
    }
  }
}
