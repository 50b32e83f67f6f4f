/** `LoopAction::doRun` as a transition system.  Every call adds another End and Begin; every round
    resets the actions one by one, takes a future from each dependee's current promise, and attaches
    one more continuation to each action. */
module LoopSchedule {
  import opened ActionGraph
  import opened ActionStatus

  /** One action.  `promises` are its promises in the order they were made, the last is the current
      one; `okRound` is the round of its last successful run. */
  datatype Cell = Cell(status: Status, promises: seq<Promise>, okRound: int)

  const FRESH := Cell(INIT, [Unset], -1)

  /** A future keeps referring to the promise it was taken from. */
  datatype Future = Future(dee: nat, gen: int)

  datatype Cont = Cont(futures: seq<Future>, phase: Phase)

  /** `Outside`: no call of `doRun` is under way and none has failed.  `Failed`: one has. */
  datatype MainThread = Outside | AtTop | InRound | Failed

  /** The sub-plan as it is listed, which of its bodies may return an error and which may throw, and
      the number of threads in the loop's pool.  Any body may return OK. */
  datatype LoopPlan = LoopPlan(graph: Graph, mayError: set<nat>, mayThrow: set<nat>, workers: nat)

  ghost predicate ValidLoop(p: LoopPlan) {
    && p.graph != [] && Acyclic(p.graph) && p.workers > 0
    && (forall i :: i in p.mayError ==> i < |p.graph|)
    && (forall i :: i in p.mayThrow ==> i < |p.graph|)
  }

  /** `graph`: the dependees of all actions by now, the sub-plan's first.  `conts[r][i]`: the
      continuation attached to action `i` in round `r`, rounds being counted over all calls.
      `errors`: the rounds whose `rc` was written.  `entered`: the bodies entered, in order.  `raced`:
      a round was followed by another although its sink had failed, because `rc` was read too early.
      `crashed`: a CHECK of `run()` failed. */
  datatype State = State(graph: Graph, cells: seq<Cell>, conts: seq<seq<Cont>>, errors: set<nat>,
                         entered: seq<nat>, main: MainThread, raced: bool, crashed: bool)

  datatype Step =
    | Execute                            // `doRun` is called: two more actions
    | Enter                              // the loop condition holds
    | Leave                              // the loop condition fails: `doRun` returns OK
    | GiveUp                             // the condition has no value: `doRun` returns an error
    | Register                           // reset the next action and attach its continuation
    | Wake                               // the wait on the sink returns, rc is read
    | Start(r: nat, i: nat)              // all futures hold a value (`collect`)
    | FailFast(r: nat, i: nat)           // some future is broken (`collect` does not wait for the rest)
    | Finish(r: nat, i: nat, o: Outcome)
    | Handle(r: nat, i: nat)
    | Record(r: nat, i: nat)             // the failing continuation writes rc

  function Initial(p: LoopPlan): State {
    State(p.graph, seq(|p.graph|, _ => FRESH), [], {}, [], Outside, false, false)
  }

  /** The newest End, which the round waits for: it is appended before the newest Begin. */
  function Sink(s: State): (k: int) {
    |s.graph| - 2
  }

  function Current(c: Cell): Promise {
    if c.promises == [] then Unset else c.promises[|c.promises| - 1]
  }

  function FutureValue(s: State, f: Future): Promise {
    if f.dee < |s.cells| && 0 <= f.gen < |s.cells[f.dee].promises| then s.cells[f.dee].promises[f.gen] else Unset
  }

  predicate InPhase(s: State, r: nat, i: nat, phase: Phase) {
    r < |s.conts| && i < |s.conts[r]| && i < |s.cells| && s.conts[r][i].phase == phase
  }

  predicate Occupies(c: Cont) {
    c.phase == Executing || c.phase == Owing
  }

  /** The continuations that are on a thread of the pool. */
  function Working(s: State): (w: set<(nat, nat)>) {
    set r: nat, i: nat | r < |s.conts| && i < |s.conts[r]| && Occupies(s.conts[r][i]) :: (r, i)
  }

  lemma NobodyWorks(s: State)
    requires forall r: nat, i: nat :: r < |s.conts| && i < |s.conts[r]| ==> !Occupies(s.conts[r][i])
    ensures Working(s) == {}
  {
  }

  predicate Free(p: LoopPlan, s: State) {
    |Working(s)| < p.workers
  }

  /** The ways the body of action `i` can end. */
  predicate CanEnd(p: LoopPlan, i: nat, o: Outcome) {
    match o
    case ReturnsOk => true
    case ReturnsError => i in p.mayError
    case Throws => i in p.mayThrow
  }

  /** The number of the round the main thread is in, or was in last. */
  function Round(s: State): int {
    |s.conts| - 1
  }

  predicate Enabled(p: LoopPlan, s: State, step: Step) {
    && !s.crashed
    && match step
       case Execute => s.main == Outside
       case Enter => s.main == AtTop
       case Leave => s.main == AtTop
       case GiveUp => s.main == AtTop
       case Register => s.main == InRound && s.conts != [] && |s.conts[|s.conts| - 1]| < |s.graph|
       case Wake => s.main == InRound && s.conts != [] && |s.conts[|s.conts| - 1]| == |s.graph|
                    && 0 <= Sink(s) < |s.cells| && Current(s.cells[Sink(s)]) != Unset
       case Start(r, i) => InPhase(s, r, i, Waiting) && Free(p, s)
                           && forall f | f in s.conts[r][i].futures :: FutureValue(s, f) == Value
       case FailFast(r, i) => InPhase(s, r, i, Waiting) && Free(p, s)
                              && exists f | f in s.conts[r][i].futures :: FutureValue(s, f) == Broken
       case Finish(r, i, o) => InPhase(s, r, i, Executing) && CanEnd(p, i, o)
       case Handle(r, i) => InPhase(s, r, i, Thrown) && Free(p, s)
       case Record(r, i) => InPhase(s, r, i, Owing)
  }

  // ---- Single actions ----------------------------------------------------

  function Reset(c: Cell): Cell {
    if c.status == INIT || c.status == RUNNING then c
    else c.(status := INIT, promises := c.promises + [Unset])
  }

  function Fulfil(c: Cell, p: Promise): Cell {
    if c.promises == [] then c else c.(promises := c.promises[|c.promises| - 1 := p])
  }

  /** A second fulfilment throws inside the error handler, and is dropped with it. */
  function MarkFailed(c: Cell): Cell {
    if Current(c) == Unset then Fulfil(c, Broken).(status := FAILED) else c.(status := FAILED)
  }

  function PhaseAfterMark(c: Cell): Phase {
    if Current(c) == Unset then Owing else Done
  }

  /** The end of `run()` writes the status and then the promise; here the two are one step. */
  function Ended(c: Cell, r: nat, o: Outcome): Cell {
    match o
    case ReturnsOk => Fulfil(c, Value).(status := SUCCEEDED, okRound := r)
    case ReturnsError => Fulfil(c, Broken).(status := FAILED)
    case Throws => c
  }

  function FuturesOf(g: Graph, cells: seq<Cell>, i: nat): (fs: seq<Future>)
    requires i < |g|
    ensures |fs| == |g[i]|
    ensures forall k :: 0 <= k < |g[i]| ==>
              fs[k] == Future(g[i][k], if g[i][k] < |cells| then |cells[g[i][k]].promises| - 1 else 0)
  {
    seq(|g[i]|, k requires 0 <= k < |g[i]| =>
      Future(g[i][k], if g[i][k] < |cells| then |cells[g[i][k]].promises| - 1 else 0))
  }

  function SetPhase(s: State, r: nat, i: nat, phase: Phase): (s': State)
    requires r < |s.conts| && i < |s.conts[r]|
  {
    s.(conts := s.conts[r := s.conts[r][i := s.conts[r][i].(phase := phase)]])
  }

  function SetCell(s: State, i: nat, c: Cell): (s': State)
    requires i < |s.cells|
  {
    s.(cells := s.cells[i := c])
  }

  // ---- Steps -----------------------------------------------------------------

  function Registered(s: State): State
    requires |s.cells| == |s.graph| && s.conts != [] && |s.conts[|s.conts| - 1]| < |s.graph|
  {
    var r := |s.conts| - 1;
    var i := |s.conts[r]|;
    var cells := s.cells[i := Reset(s.cells[i])];
    s.(cells := cells, conts := s.conts[r := s.conts[r] + [Cont(FuturesOf(s.graph, cells, i), Waiting)]])
  }

  function Woken(s: State): State
    requires 0 <= Sink(s) < |s.cells| && s.conts != []
  {
    if |s.conts| - 1 in s.errors then s.(main := Failed)
    else s.(main := AtTop, raced := s.raced || s.cells[Sink(s)].status == FAILED)
  }

  function Apply(p: LoopPlan, s: State, step: Step): (s': State)
    requires |s.cells| == |s.graph| && Enabled(p, s, step)
    ensures |s'.cells| == |s'.graph|
  {
    match step
    case Execute => s.(graph := Augmented(s.graph), cells := s.cells + [FRESH, FRESH], main := AtTop)
    case Enter => s.(main := InRound, conts := s.conts + [[]])
    case Leave => s.(main := Outside)
    case GiveUp => s.(main := Failed)
    case Register => Registered(s)
    case Wake => Woken(s)
    case Start(r, i) =>
      if s.cells[i].status != INIT then s.(crashed := true)
      else SetCell(SetPhase(s, r, i, Executing), i, s.cells[i].(status := RUNNING)).(entered := s.entered + [i])
    case FailFast(r, i) =>
      SetCell(SetPhase(s, r, i, PhaseAfterMark(s.cells[i])), i, MarkFailed(s.cells[i]))
    case Finish(r, i, o) =>
      if s.cells[i].status != RUNNING then s.(crashed := true)
      else SetCell(SetPhase(s, r, i, if o == Throws then Thrown else Done), i, Ended(s.cells[i], r, o))
    case Handle(r, i) =>
      SetCell(SetPhase(s, r, i, PhaseAfterMark(s.cells[i])), i, MarkFailed(s.cells[i]))
    case Record(r, i) =>
      SetPhase(s, r, i, Done).(errors := s.errors + {r})
  }

  /** Rounds and races are never taken back. */
  lemma StepMonotone(p: LoopPlan, s: State, step: Step)
    requires |s.cells| == |s.graph| && Enabled(p, s, step)
    ensures !s.crashed
    ensures |s.conts| <= |Apply(p, s, step).conts| && (s.raced ==> Apply(p, s, step).raced)
  {
    hide Working;
  }

  ghost predicate Next(p: LoopPlan, s: State, s': State) {
    |s.cells| == |s.graph| && exists step :: Enabled(p, s, step) && s' == Apply(p, s, step)
  }

  ghost predicate Run(p: LoopPlan, tr: seq<State>) {
    && |tr| > 0
    && tr[0] == Initial(p)
    && forall k :: 0 <= k < |tr| - 1 ==> Next(p, tr[k], tr[k + 1])
  }

  ghost predicate Reachable(p: LoopPlan, s: State) {
    exists tr :: Run(p, tr) && tr[|tr| - 1] == s
  }

  lemma InitialReachable(p: LoopPlan)
    ensures Reachable(p, Initial(p))
  {
    var tr := [Initial(p)];
    assert Run(p, tr) && tr[|tr| - 1] == Initial(p);
  }

  lemma ReachableStep(p: LoopPlan, s: State, step: Step, s': State)
    requires Reachable(p, s) && |s.cells| == |s.graph|
    requires Enabled(p, s, step) && s' == Apply(p, s, step)
    ensures Reachable(p, s')
  {
    var tr :| Run(p, tr) && tr[|tr| - 1] == s;
    var tr' := tr + [s'];
    forall k | 0 <= k < |tr'| - 1
      ensures Next(p, tr'[k], tr'[k + 1])
    {
      if k < |tr| - 1 {
        assert Next(p, tr[k], tr[k + 1]);
      }
    }
    assert Run(p, tr') && tr'[|tr'| - 1] == s';
  }

  lemma PrefixReachable(p: LoopPlan, tr: seq<State>, k: nat)
    requires Run(p, tr) && k < |tr|
    ensures Reachable(p, tr[k])
  {
    var front := tr[..k + 1];
    forall j | 0 <= j < |front| - 1
      ensures Next(p, front[j], front[j + 1])
    {
      assert Next(p, tr[j], tr[j + 1]);
    }
    assert Run(p, front) && front[|front| - 1] == tr[k];
  }
}
