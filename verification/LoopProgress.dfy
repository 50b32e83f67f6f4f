/** A round of a loop never gets stuck, and it ends. */
module LoopProgress {
  import opened ActionGraph
  import opened ActionStatus
  import opened LoopSchedule
  import opened LoopInvariant
  import opened LoopLayers
  import opened LoopRaces

  // ---- The Begins --------------------------------------------------------------------------

  /** All promises of a Begin but its current one hold a value. */
  ghost predicate BeginCell(c: Cell) {
    && c.promises != []
    && (forall k :: 0 <= k < |c.promises| - 1 ==> c.promises[k] == Value)
    && c.status != FAILED
    && (c.status == SUCCEEDED <==> Current(c) == Value)
    && (c.status != SUCCEEDED <==> Current(c) == Unset)
  }

  predicate Pending(s: State, r: nat, i: nat) {
    InPhase(s, r, i, Waiting) || InPhase(s, r, i, Executing)
  }

  /** A Begin whose promise is open has a continuation that will fulfil it. */
  ghost predicate BeginServed(s: State, i: nat) {
    i < |s.cells| && Attached(s, i) && Current(s.cells[i]) == Unset ==> exists r: nat :: Pending(s, r, i)
  }

  ghost predicate FuturesKnown(s: State, part: set<nat>, i: nat, c: Cont) {
    forall f :: f in c.futures ==>
      f.dee < |s.cells| && 0 <= f.gen < |s.cells[f.dee].promises| && (i !in part ==> f.dee > i)
  }

  ghost predicate BeginsUpward(g: Graph, part: set<nat>) {
    forall i: nat, d: nat :: i !in part && Edge(g, d, i) ==> d > i
  }

  ghost predicate BeginCells(part: set<nat>, s: State) {
    forall i :: 0 <= i < |s.cells| ==> s.cells[i].promises != [] && (i !in part ==> BeginCell(s.cells[i]))
  }

  ghost predicate AllKnown(part: set<nat>, s: State) {
    forall r, i :: 0 <= r < |s.conts| && 0 <= i < |s.conts[r]| ==> FuturesKnown(s, part, i, s.conts[r][i])
  }

  ghost predicate AllServed(part: set<nat>, s: State) {
    forall i: nat :: i < |s.cells| && i !in part ==> BeginServed(s, i)
  }

  ghost predicate BeginInv(part: set<nat>, s: State) {
    && |s.cells| == |s.graph| && BeginsUpward(s.graph, part)
    && BeginCells(part, s) && AllServed(part, s) && AllKnown(part, s)
  }

  lemma PoolKeepsServed(p: LoopPlan, s: State, step: Step, part: set<nat>, i: nat)
    requires BeginInv(part, s) && OutsidersSound(p, part, s) && Enabled(p, s, step) && PoolStep(step)
    requires !Apply(p, s, step).crashed && i < |s.cells| && i !in part
    ensures BeginServed(Apply(p, s, step), i)
  {
    hide Working, BeginsUpward, FuturesKnown, AllKnown, OutsidersSound;
    var s' := Apply(p, s, step);
    assert BeginServed(s, i);
    if step.i == i {
      OutsiderNeverFails(p, part, s, step);
      if step.Start? {
        assert Pending(s', step.r, i);
      }
    } else if Attached(s', i) && Current(s'.cells[i]) == Unset {
      var r: nat :| Pending(s, r, i);
      assert Pending(s', r, i);
    }
  }

  lemma PoolKeepsCells(p: LoopPlan, s: State, step: Step, part: set<nat>)
    requires BeginInv(part, s) && OutsidersSound(p, part, s) && Enabled(p, s, step) && PoolStep(step)
    requires !Apply(p, s, step).crashed
    ensures BeginCells(part, Apply(p, s, step))
    ensures |Apply(p, s, step).cells| == |s.cells|
    ensures forall i :: 0 <= i < |s.cells| ==> |Apply(p, s, step).cells[i].promises| == |s.cells[i].promises|
  {
    hide Working, BeginsUpward, AllServed, AllKnown, OutsidersSound;
    if step.i !in part {
      OutsiderNeverFails(p, part, s, step);
    }
  }

  /** The continuations keep their futures, and none is added. */
  ghost predicate SameFutures(s: State, s': State) {
    && |s'.conts| == |s.conts|
    && forall r :: 0 <= r < |s.conts| ==>
         && |s'.conts[r]| == |s.conts[r]|
         && forall i :: 0 <= i < |s.conts[r]| ==> s'.conts[r][i].futures == s.conts[r][i].futures
  }

  lemma PoolKeepsFutures(p: LoopPlan, s: State, step: Step)
    requires |s.cells| == |s.graph| && Enabled(p, s, step) && PoolStep(step)
    ensures SameFutures(s, Apply(p, s, step))
  {
    hide Working, FutureValue, Current;
  }

  lemma PoolKeepsKnown(p: LoopPlan, s: State, step: Step, part: set<nat>)
    requires AllKnown(part, s) && |s.cells| == |s.graph| && Enabled(p, s, step) && PoolStep(step)
    requires |Apply(p, s, step).cells| == |s.cells|
    requires forall i :: 0 <= i < |s.cells| ==> |Apply(p, s, step).cells[i].promises| == |s.cells[i].promises|
    ensures AllKnown(part, Apply(p, s, step))
  {
    hide Enabled;
    var s' := Apply(p, s, step);
    PoolKeepsFutures(p, s, step);
    forall r, i | 0 <= r < |s'.conts| && 0 <= i < |s'.conts[r]|
      ensures FuturesKnown(s', part, i, s'.conts[r][i])
    {
      assert FuturesKnown(s, part, i, s.conts[r][i]);
    }
  }

  lemma PoolKeepsBegins(p: LoopPlan, s: State, step: Step, part: set<nat>)
    requires BeginInv(part, s) && OutsidersSound(p, part, s) && Enabled(p, s, step) && PoolStep(step)
    requires !Apply(p, s, step).crashed
    ensures BeginInv(part, Apply(p, s, step))
  {
    hide Working, BeginsUpward, BeginServed, BeginCells, AllKnown, OutsidersSound;
    PoolKeepsCells(p, s, step, part);
    PoolKeepsKnown(p, s, step, part);
    forall i: nat | i < |s.cells| && i !in part
      ensures BeginServed(Apply(p, s, step), i)
    {
      PoolKeepsServed(p, s, step, part, i);
    }
  }

  lemma RegisterKeepsKnown(p: LoopPlan, s: State, part: set<nat>)
    requires BeginInv(part, s) && Closed(s.graph) && Enabled(p, s, Register)
    ensures AllKnown(part, Apply(p, s, Register))
  {
    hide Working, AllServed, Pending;
    var s' := Apply(p, s, Register);
    var r0 := |s.conts| - 1;
    var j := |s.conts[r0]|;
    forall r, i | 0 <= r < |s'.conts| && 0 <= i < |s'.conts[r]|
      ensures FuturesKnown(s', part, i, s'.conts[r][i])
    {
      if r == r0 && i == j {
        forall f | f in s'.conts[r][j].futures
          ensures f.dee < |s'.cells| && 0 <= f.gen < |s'.cells[f.dee].promises| && (j !in part ==> f.dee > j)
        {
          assert Edge(s.graph, f.dee, j);
        }
      } else {
        assert s'.conts[r][i] == s.conts[r][i];
        assert FuturesKnown(s, part, i, s.conts[r][i]);
      }
    }
  }

  lemma RegisterKeepsServed(p: LoopPlan, s: State, part: set<nat>, i: nat)
    requires BeginInv(part, s) && Enabled(p, s, Register) && i < |s.cells| && i !in part
    ensures BeginServed(Apply(p, s, Register), i)
  {
    hide Working, BeginsUpward, FuturesKnown;
    var s' := Apply(p, s, Register);
    var r := |s.conts| - 1;
    assert BeginServed(s, i);
    if i == |s.conts[r]| {
      assert Pending(s', r, i);
    } else if Attached(s', i) && Current(s'.cells[i]) == Unset {
      var q: nat :| Pending(s, q, i);
      assert Pending(s', q, i);
    }
  }

  lemma RegisterKeepsBegins(p: LoopPlan, s: State, part: set<nat>)
    requires BeginInv(part, s) && Closed(s.graph) && Enabled(p, s, Register)
    ensures BeginInv(part, Apply(p, s, Register))
  {
    hide Working, BeginServed, Pending, AllKnown;
    RegisterKeepsKnown(p, s, part);
    forall i: nat | i < |s.cells| && i !in part
      ensures BeginServed(Apply(p, s, Register), i)
    {
      RegisterKeepsServed(p, s, part, i);
    }
  }

  lemma ExecuteKeepsBegins(p: LoopPlan, s: State, part: set<nat>)
    requires BeginInv(part, s) && Enabled(p, s, Execute)
    requires forall r :: 0 <= r < |s.conts| ==> |s.conts[r]| <= |s.graph|
    requires forall i :: i in part ==> i < |s.graph|
    ensures BeginInv(part + {|s.graph|}, Apply(p, s, Execute))
  {
    hide Working, Augmented;
    var g, part', s' := s.graph, part + {|s.graph|}, Apply(p, s, Execute);
    forall i: nat, d: nat | i !in part' && Edge(Augmented(g), d, i)
      ensures d > i
    {
      AugmentedEdge(g, d, i);
    }
    forall i: nat | i < |s'.cells| && i !in part'
      ensures BeginServed(s', i)
    {
      if Attached(s', i) && Current(s'.cells[i]) == Unset {
        assert BeginServed(s, i);
        var r: nat :| Pending(s, r, i);
        assert Pending(s', r, i);
      }
    }
  }

  lemma MainKeepsBegins(p: LoopPlan, s: State, step: Step, part: set<nat>)
    requires BeginInv(part, s) && Enabled(p, s, step) && (step.Enter? || step.Leave? || step.GiveUp? || step.Wake?)
    ensures BeginInv(part, Apply(p, s, step))
  {
    hide Working, BeginsUpward;
    var s' := Apply(p, s, step);
    forall r, i | 0 <= r < |s'.conts| && 0 <= i < |s'.conts[r]|
      ensures FuturesKnown(s', part, i, s'.conts[r][i])
    {
      assert FuturesKnown(s, part, i, s.conts[r][i]);
    }
    forall i: nat | i < |s'.cells| && i !in part
      ensures BeginServed(s', i)
    {
      assert BeginServed(s, i);
      if Attached(s', i) && Current(s'.cells[i]) == Unset {
        var r: nat :| Pending(s, r, i);
        assert Pending(s', r, i);
      }
    }
  }

  lemma StepKeepsBegins(p: LoopPlan, s: State, step: Step, layers: nat)
    requires Built(p, s, layers)
    requires Inv(p, OrderedPart(p.graph, layers), s) && RaceInv(p, OrderedPart(p.graph, layers), s)
    requires BeginInv(OrderedPart(p.graph, layers), s) && Enabled(p, s, step) && !Apply(p, s, step).crashed
    ensures BeginInv(OrderedPart(p.graph, if step.Execute? then layers + 1 else layers), Apply(p, s, step))
  {
    hide BeginInv, AllBlamed, Working, MemberOk, Layered;
    var part := OrderedPart(p.graph, layers);
    if PoolStep(step) {
      PoolKeepsBegins(p, s, step, part);
    } else if step.Register? {
      RegisterKeepsBegins(p, s, part);
    } else if step.Execute? {
      ExecuteKeepsBegins(p, s, part);
      assert OrderedPart(p.graph, layers + 1) == part + {|s.graph|};
    } else {
      MainKeepsBegins(p, s, step, part);
    }
  }

  lemma InitialBegins(p: LoopPlan)
    ensures BeginInv(OrderedPart(p.graph, 0), Initial(p))
  {
  }

  lemma {:induction false} RunKeepsBegins(p: LoopPlan, tr: seq<State>, k: nat) returns (layers: nat)
    requires ValidLoop(p) && ListedInOrder(p.graph) && Run(p, tr) && k < |tr| && !tr[k].crashed
    ensures Built(p, tr[k], layers) && Inv(p, OrderedPart(p.graph, layers), tr[k])
    ensures RaceInv(p, OrderedPart(p.graph, layers), tr[k]) && BeginInv(OrderedPart(p.graph, layers), tr[k])
  {
    hide Inv, Built, RaceInv, BeginInv, Working, Apply, Enabled;
    if k == 0 {
      InitialInv(p);
      InitialRaceInv(p);
      InitialBegins(p);
      layers := 0;
    } else {
      assert Next(p, tr[k - 1], tr[k - 1 + 1]);
      var step :| Enabled(p, tr[k - 1], step) && tr[k] == Apply(p, tr[k - 1], step);
      StepMonotone(p, tr[k - 1], step);
      layers := RunKeepsBegins(p, tr, k - 1);
      StepKeepsBegins(p, tr[k - 1], step, layers);
      layers := StepKeepsRaceInv(p, tr[k - 1], step, layers);
    }
  }

  // ---- Some continuation can always go on ----------------------------------------------------

  /** Everything in the present round is attached, and no continuation is on a thread or queued to be
      handled. */
  ghost predicate AllIdle(s: State) {
    && s.conts != [] && |s.conts[|s.conts| - 1]| == |s.graph|
    && forall r: nat, i: nat :: r < |s.conts| && i < |s.conts[r]| ==>
         s.conts[r][i].phase == Waiting || s.conts[r][i].phase == Done
  }

  /** A Begin whose promise is open, or one above it, can be started. */
  lemma {:induction false} StartSomeBegin(p: LoopPlan, part: set<nat>, s: State, i: nat) returns (step: Step)
    requires BeginInv(part, s) && OutsidersSound(p, part, s) && !s.crashed && Free(p, s) && AllIdle(s)
    requires i < |s.graph| && i !in part && Current(s.cells[i]) == Unset
    ensures Enabled(p, s, step)
    decreases |s.graph| - i
  {
    hide Working, BeginsUpward, OutsideStays;
    assert BeginServed(s, i);
    var r: nat :| Pending(s, r, i);
    if f :| f in s.conts[r][i].futures && FutureValue(s, f) != Value {
      assert FuturesKnown(s, part, i, s.conts[r][i]);
      assert Sound(s.graph, part, s.conts[r][i]);
      assert BeginCell(s.cells[f.dee]);
      step := StartSomeBegin(p, part, s, f.dee);
    } else {
      step := Start(r, i);
    }
  }

  lemma OpenMemberWaits(p: LoopPlan, part: set<nat>, s: State, i: nat)
    requires Inv(p, part, s) && !s.raced && AllIdle(s) && i in part && i < |s.graph| && Current(s.cells[i]) == Unset
    ensures Attached(s, i) && s.conts[|s.conts| - 1][i].phase == Waiting
    ensures FuturesCurrent(part, s, i, s.conts[|s.conts| - 1][i].futures)
  {
    NowOk(p, part, s, i);
  }

  /** An open future of a member was taken from an open promise. */
  lemma OpenFuture(part: set<nat>, s: State, i: nat, f: Future)
    requires BeginInv(part, s) && Attached(s, i) && i < |s.graph| && f in s.conts[|s.conts| - 1][i].futures
    requires FuturesCurrent(part, s, i, s.conts[|s.conts| - 1][i].futures) && FutureValue(s, f) == Unset
    ensures f.dee < |s.graph| && Edge(s.graph, f.dee, i) && Current(s.cells[f.dee]) == Unset
  {
    hide BeginsUpward, BeginServed;
    var c := s.conts[|s.conts| - 1][i];
    assert FuturesKnown(s, part, i, c);
    var k :| 0 <= k < |c.futures| && c.futures[k] == f;
    if f.dee !in part {
      assert BeginCell(s.cells[f.dee]);
    }
  }

  /** A waiting action of the ordered part, or something it waits for, can go on. */
  lemma {:induction false} GoOnBelow(p: LoopPlan, part: set<nat>, s: State, i: nat) returns (step: Step)
    requires Known(p, part, s) && BeginInv(part, s) && !s.crashed && Free(p, s) && AllIdle(s)
    requires i in part && i < |s.graph| && Current(s.cells[i]) == Unset
    ensures Enabled(p, s, step)
    decreases i
  {
    hide Working, BeginInv, AllBlamed, MemberOk, FuturesCurrent, OutsidersSound;
    OpenMemberWaits(p, part, s, i);
    var r := |s.conts| - 1;
    var c := s.conts[r][i];
    if f :| f in c.futures && FutureValue(s, f) == Broken {
      step := FailFast(r, i);
    } else if f :| f in c.futures && FutureValue(s, f) == Unset {
      OpenFuture(part, s, i, f);
      if f.dee in part {
        step := GoOnBelow(p, part, s, f.dee);
      } else {
        step := StartSomeBegin(p, part, s, f.dee);
      }
    } else {
      step := Start(r, i);
    }
  }

  lemma ProgressWhenIdle(p: LoopPlan, part: set<nat>, s: State) returns (step: Step)
    requires p.workers > 0 && Known(p, part, s) && BeginInv(part, s) && s.main == InRound && !s.crashed
    requires |s.conts[|s.conts| - 1]| == |s.graph|
    requires forall r: nat, i: nat :: !InPhase(s, r, i, Executing) && !InPhase(s, r, i, Owing)
    ensures Enabled(p, s, step)
  {
    hide BeginInv, AllBlamed, OutsidersSound, MemberOk, Working;
    forall r: nat, i: nat | r < |s.conts| && i < |s.conts[r]|
      ensures !Occupies(s.conts[r][i])
    {
      assert !InPhase(s, r, i, Executing) && !InPhase(s, r, i, Owing);
    }
    NobodyWorks(s);
    if r: nat, i: nat :| InPhase(s, r, i, Thrown) {
      step := Handle(r, i);
    } else if Current(s.cells[Sink(s)]) != Unset {
      step := Wake;
    } else {
      forall r: nat, i: nat | r < |s.conts| && i < |s.conts[r]|
        ensures s.conts[r][i].phase == Waiting || s.conts[r][i].phase == Done
      {
        assert !InPhase(s, r, i, Thrown);
      }
      step := GoOnBelow(p, part, s, Sink(s));
    }
  }

  /** In a round of a loop listed in order that has not raced or aborted, some step is enabled. */
  lemma RoundProgress(p: LoopPlan, s: State) returns (step: Step)
    requires ValidLoop(p) && ListedInOrder(p.graph) && Reachable(p, s)
    requires s.main == InRound && !s.raced && !s.crashed
    ensures Enabled(p, s, step)
  {
    hide BeginInv, AllBlamed, OutsidersSound, MemberOk;
    var tr :| Run(p, tr) && tr[|tr| - 1] == s;
    var layers := RunKeepsBegins(p, tr, |tr| - 1);
    LayersGiveOrder(p.graph, layers);
    if |s.conts[|s.conts| - 1]| < |s.graph| {
      step := Register;
    } else if r: nat, i: nat :| InPhase(s, r, i, Executing) {
      step := Finish(r, i, ReturnsOk);
    } else if r: nat, i: nat :| InPhase(s, r, i, Owing) {
      step := Record(r, i);
    } else {
      step := ProgressWhenIdle(p, OrderedPart(p.graph, layers), s);
    }
  }

  // ---- A round ends ------------------------------------------------------------------------------

  function Weight(c: Cont): nat {
    match c.phase
    case Waiting => 4
    case Executing => 3
    case Thrown => 2
    case Owing => 1
    case Done => 0
  }

  function RowWeight(row: seq<Cont>): nat {
    if row == [] then 0 else RowWeight(row[..|row| - 1]) + Weight(row[|row| - 1])
  }

  function Weights(conts: seq<seq<Cont>>): nat {
    if conts == [] then 0 else Weights(conts[..|conts| - 1]) + RowWeight(conts[|conts| - 1])
  }

  lemma {:induction false} RowWeightUpdate(row: seq<Cont>, i: nat, c: Cont)
    requires i < |row|
    ensures RowWeight(row[i := c]) == RowWeight(row) - Weight(row[i]) + Weight(c)
  {
    var n := |row| - 1;
    if i < n {
      RowWeightUpdate(row[..n], i, c);
      assert row[i := c][..n] == row[..n][i := c];
    } else {
      assert row[i := c][..n] == row[..n];
    }
  }

  lemma {:induction false} WeightsUpdate(conts: seq<seq<Cont>>, r: nat, row: seq<Cont>)
    requires r < |conts|
    ensures Weights(conts[r := row]) == Weights(conts) - RowWeight(conts[r]) + RowWeight(row)
  {
    var n := |conts| - 1;
    if r < n {
      WeightsUpdate(conts[..n], r, row);
      assert conts[r := row][..n] == conts[..n][r := row];
    } else {
      assert conts[r := row][..n] == conts[..n];
    }
  }

  /** What is left to do in the round, leftovers of earlier rounds included. */
  function RoundMeasure(s: State): int {
    Weights(s.conts)
    + (if s.conts == [] then 0 else 5 * (|s.graph| - |s.conts[|s.conts| - 1]|))
    + (if s.main == InRound then 1 else 0) + (if s.crashed then 0 else 1)
  }

  lemma PhaseWeight(s: State, r: nat, i: nat, phase: Phase)
    requires r < |s.conts| && i < |s.conts[r]|
    ensures Weights(SetPhase(s, r, i, phase).conts)
            == Weights(s.conts) - Weight(s.conts[r][i]) + Weight(s.conts[r][i].(phase := phase))
  {
    var c := s.conts[r][i].(phase := phase);
    RowWeightUpdate(s.conts[r], i, c);
    WeightsUpdate(s.conts, r, s.conts[r][i := c]);
  }

  lemma PoolStepFalls(p: LoopPlan, s: State, step: Step)
    requires |s.cells| == |s.graph| && Enabled(p, s, step) && PoolStep(step)
    ensures RoundMeasure(Apply(p, s, step)) < RoundMeasure(s)
  {
    hide Working, Weights;
    var s' := Apply(p, s, step);
    if !s'.crashed {
      PhaseWeight(s, step.r, step.i, s'.conts[step.r][step.i].phase);
    }
  }

  lemma RoundStepFalls(p: LoopPlan, s: State, step: Step)
    requires |s.cells| == |s.graph| && s.main == InRound && Enabled(p, s, step)
    ensures RoundMeasure(Apply(p, s, step)) < RoundMeasure(s)
  {
    hide Working;
    if PoolStep(step) {
      PoolStepFalls(p, s, step);
    } else if step.Register? {
      var r, s' := |s.conts| - 1, Apply(p, s, step);
      WeightsUpdate(s.conts, r, s'.conts[r]);
      assert s'.conts[r][..|s.conts[r]|] == s.conts[r];
    }
  }

  ghost predicate RowsFit(s: State) {
    && |s.cells| == |s.graph|
    && forall r :: 0 <= r < |s.conts| ==> |s.conts[r]| <= |s.graph|
  }

  lemma StepKeepsRows(p: LoopPlan, s: State, step: Step)
    requires RowsFit(s) && Enabled(p, s, step)
    ensures RowsFit(Apply(p, s, step))
  {
    hide Working, Augmented, FutureValue, Current;
    if PoolStep(step) {
      var s' := Apply(p, s, step);
      assert s'.crashed || s'.conts == SetPhase(s, step.r, step.i, s'.conts[step.r][step.i].phase).conts;
    }
  }

  lemma InitialRowsFit(p: LoopPlan)
    ensures RowsFit(Initial(p))
  {
  }

  lemma {:induction false} RunRowsFit(p: LoopPlan, tr: seq<State>, k: nat)
    requires Run(p, tr) && k < |tr|
    ensures RowsFit(tr[k])
  {
    hide RowsFit, Enabled;
    if k == 0 {
      InitialRowsFit(p);
    } else {
      RunRowsFit(p, tr, k - 1);
      assert Next(p, tr[k - 1], tr[k - 1 + 1]);
      var step :| Enabled(p, tr[k - 1], step) && tr[k] == Apply(p, tr[k - 1], step);
      StepKeepsRows(p, tr[k - 1], step);
    }
  }

  /** A round cannot go on for ever: while it is not left, no more steps are taken than its measure
      says at any of its moments. */
  lemma {:induction false} RoundEnds(p: LoopPlan, tr: seq<State>, k: nat, m: nat)
    requires Run(p, tr) && k <= m < |tr| && forall j :: k <= j < m ==> tr[j].main == InRound
    ensures m - k <= RoundMeasure(tr[k])
    decreases m - k
  {
    hide Working, Weights;
    RunRowsFit(p, tr, k);
    if k < m {
      assert Next(p, tr[k], tr[k + 1]);
      var step :| Enabled(p, tr[k], step) && tr[k + 1] == Apply(p, tr[k], step);
      RoundStepFalls(p, tr[k], step);
      RoundEnds(p, tr, k + 1, m);
    }
  }

  // ---- Calls ---------------------------------------------------------------------------------

  lemma ReachableFits(p: LoopPlan, s: State)
    requires Reachable(p, s)
    ensures |s.cells| == |s.graph|
  {
    hide Enabled;
    var tr: seq<State> :| Run(p, tr) && tr[|tr| - 1] == s;
    RunRowsFit(p, tr, |tr| - 1);
  }

  /** Whenever the condition is evaluated, a round may follow, the call may end well or it may end with an
      error, each with all actions as they are; and a call that ended well may be followed by another, with
      two more actions. */
  lemma CallsGoOn(p: LoopPlan, s: State)
    requires Reachable(p, s) && !s.crashed
    ensures s.main == AtTop ==>
              && Reachable(p, s.(main := InRound, conts := s.conts + [[]]))
              && Reachable(p, s.(main := Outside))
              && Reachable(p, s.(main := Failed))
    ensures s.main == Outside ==>
              Reachable(p, s.(graph := Augmented(s.graph), cells := s.cells + [FRESH, FRESH], main := AtTop))
  {
    hide Reachable, Augmented;
    ReachableFits(p, s);
    if s.main == AtTop {
      ReachableStep(p, s, Enter, Apply(p, s, Enter));
      ReachableStep(p, s, Leave, Apply(p, s, Leave));
      ReachableStep(p, s, GiveUp, Apply(p, s, GiveUp));
    } else if s.main == Outside {
      ReachableStep(p, s, Execute, Apply(p, s, Execute));
    }
  }

  /** A call fails exactly where its condition has no value, or where the wait on a round returns and its `rc`
      was written; what has failed is not called again. */
  lemma CallFailsExact(p: LoopPlan, s: State, step: Step)
    requires |s.cells| == |s.graph| && Enabled(p, s, step)
    ensures Apply(p, s, step).main == Failed <==>
            s.main == Failed || step == GiveUp || (step == Wake && Round(s) in s.errors)
    ensures step == GiveUp ==> s.main == AtTop
    ensures s.main == Failed ==> PoolStep(step)
  {
    hide Working, Augmented, FutureValue;
  }
}
