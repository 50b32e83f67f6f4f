/** When the main thread of a loop can read `rc` too early. */
module LoopRaces {
  import opened ActionGraph
  import opened ActionStatus
  import opened LoopSchedule
  import opened LoopInvariant
  import opened LoopLayers

  /** A failure at the head of the path can travel along it to the sink while every continuation on
      the way, and that of the sink, keeps a thread between its two writes.  A body that returns an
      error needs no thread for that; one that throws does. */
  ghost predicate RacingPath(p: LoopPlan, q: seq<nat>) {
    && Path(p.graph, q) && IsLeaf(p.graph, q[|q| - 1])
    && ((q[0] in p.mayError && |q| <= p.workers) || (q[0] in p.mayThrow && |q| < p.workers))
  }

  ghost predicate MayRace(p: LoopPlan) {
    exists q :: RacingPath(p, q)
  }

  /** A path of a sub-plan listed in order visits no action twice. */
  lemma {:induction false} PathIsShort(g: Graph, q: seq<nat>)
    requires ListedInOrder(g) && Path(g, q)
    ensures q[|q| - 1] < |g| && |q| <= q[|q| - 1] + 1
    decreases |q|
  {
    if |q| > 1 {
      var r := PathPrefix(g, q);
      PathIsShort(g, r);
    }
  }

  /** On a pool wider than the sub-plan any possible failure has a racing path. */
  lemma WidePoolMayRace(p: LoopPlan)
    requires ValidLoop(p) && ListedInOrder(p.graph) && p.workers > |p.graph|
    requires p.mayError + p.mayThrow != {}
    ensures MayRace(p)
  {
    var i: nat :| i in p.mayError + p.mayThrow;
    var rank :| Ranks(p.graph, rank);
    var leaf := ReachesLeaf(p.graph, rank, i);
    var q: seq<nat> :| Path(p.graph, q) && q[0] == i && q[|q| - 1] == leaf;
    PathIsShort(p.graph, q);
    assert RacingPath(p, q);
  }

  // ---- Outside the ordered part nothing fails -------------------------------------------

  ghost predicate OutsideStays(g: Graph, part: set<nat>) {
    Closed(g) && forall i: nat, d: nat :: i !in part && Edge(g, d, i) ==> d !in part
  }

  ghost predicate Unbroken(c: Cell) {
    forall k :: 0 <= k < |c.promises| ==> c.promises[k] != Broken
  }

  ghost predicate Sound(g: Graph, part: set<nat>, c: Cont) {
    && (c.phase == Waiting || c.phase == Executing || c.phase == Done)
    && forall f :: f in c.futures ==> f.dee < |g| && f.dee !in part
  }

  /** The Begins depend on Begins only, and their bodies never fail. */
  ghost predicate OutsidersSound(p: LoopPlan, part: set<nat>, s: State) {
    && |s.cells| == |s.graph| && OutsideStays(s.graph, part)
    && (forall i :: i in p.mayError ==> i in part)
    && (forall i :: i in p.mayThrow ==> i in part)
    && (forall i :: 0 <= i < |s.cells| && i !in part ==> Unbroken(s.cells[i]))
    && (forall r, i :: 0 <= r < |s.conts| && 0 <= i < |s.conts[r]| && i !in part ==>
          Sound(s.graph, part, s.conts[r][i]))
  }

  lemma OutsiderNeverFails(p: LoopPlan, part: set<nat>, s: State, step: Step)
    requires OutsidersSound(p, part, s) && Enabled(p, s, step) && PoolStep(step) && step.i !in part
    ensures step.Start? || (step.Finish? && step.o == ReturnsOk)
  {
    hide Working, OutsideStays;
    assert Sound(s.graph, part, s.conts[step.r][step.i]);
  }

  lemma PoolKeepsUnbroken(p: LoopPlan, part: set<nat>, s: State, step: Step)
    requires OutsidersSound(p, part, s) && Enabled(p, s, step) && PoolStep(step)
    ensures |Apply(p, s, step).cells| == |s.cells|
    ensures forall i :: 0 <= i < |s.cells| && i !in part ==> Unbroken(Apply(p, s, step).cells[i])
  {
    hide Working, OutsideStays, Sound;
    if step.i !in part {
      OutsiderNeverFails(p, part, s, step);
    }
  }

  lemma PoolKeepsSound(p: LoopPlan, part: set<nat>, s: State, step: Step)
    requires OutsidersSound(p, part, s) && Enabled(p, s, step) && PoolStep(step)
    ensures var s' := Apply(p, s, step);
            forall r, i :: 0 <= r < |s'.conts| && 0 <= i < |s'.conts[r]| && i !in part ==>
              Sound(s.graph, part, s'.conts[r][i])
  {
    hide Working, OutsideStays, Unbroken;
    if step.i !in part {
      OutsiderNeverFails(p, part, s, step);
    }
  }

  lemma PoolKeepsOutsiders(p: LoopPlan, part: set<nat>, s: State, step: Step)
    requires OutsidersSound(p, part, s) && Enabled(p, s, step) && PoolStep(step)
    ensures OutsidersSound(p, part, Apply(p, s, step))
  {
    hide Working, OutsideStays, Unbroken, Sound;
    PoolKeepsUnbroken(p, part, s, step);
    PoolKeepsSound(p, part, s, step);
  }

  lemma StepKeepsOutsiders(p: LoopPlan, part: set<nat>, s: State, step: Step)
    requires OutsidersSound(p, part, s) && Enabled(p, s, step) && !step.Execute?
    ensures OutsidersSound(p, part, Apply(p, s, step))
  {
    hide Working;
    if PoolStep(step) {
      PoolKeepsOutsiders(p, part, s, step);
    } else if step.Register? {
      var i := |s.conts[|s.conts| - 1]|;
      var cells := s.cells[i := Reset(s.cells[i])];
      forall f | f in FuturesOf(s.graph, cells, i)
        ensures f.dee < |s.graph| && (i !in part ==> f.dee !in part)
      {
        assert Edge(s.graph, f.dee, i);
      }
    }
  }

  lemma ExecuteKeepsOutsiders(p: LoopPlan, part: set<nat>, s: State)
    requires OutsidersSound(p, part, s) && Enabled(p, s, Execute)
    requires forall r :: 0 <= r < |s.conts| ==> |s.conts[r]| <= |s.graph|
    requires forall i :: i in part ==> i < |s.graph|
    ensures OutsidersSound(p, part + {|s.graph|}, Apply(p, s, Execute))
  {
    var g, part' := s.graph, part + {|s.graph|};
    forall i: nat, d: nat | Edge(Augmented(g), d, i)
      ensures d < |g| + 2 && (i !in part' ==> d !in part')
    {
      AugmentedEdge(g, d, i);
    }
  }

  // ---- Every failure in the ordered part has a cause ----------------------------------------

  /** Action `i` of the part has failed, and nothing has written the round's `rc`. */
  ghost predicate FailedQuietly(s: State, i: nat) {
    i < |s.cells| && s.cells[i].status == FAILED && Round(s) !in s.errors
  }

  ghost predicate BrokenDependee(part: set<nat>, s: State, i: nat) {
    exists d :: d in part && Edge(s.graph, d, i) && d < |s.cells| && s.cells[d].status == FAILED
  }

  ghost predicate Blamed(p: LoopPlan, part: set<nat>, s: State, i: nat) {
    Attached(s, i) ==>
      var c := s.conts[|s.conts| - 1][i];
      && (c.phase == Thrown ==> i in p.mayThrow)
      && (c.phase == Owing ==> i in p.mayThrow || BrokenDependee(part, s, i))
  }

  ghost predicate AllBlamed(p: LoopPlan, part: set<nat>, s: State) {
    forall i :: i in part ==> Blamed(p, part, s, i)
  }

  /** Within a round a failed member stays failed. */
  lemma FailedStays(p: LoopPlan, part: set<nat>, s: State, step: Step, d: nat)
    requires StepOk(p, part, s, step) && !step.Execute? && d in part && d < |s.cells| && s.cells[d].status == FAILED
    ensures Apply(p, s, step).cells[d].status == FAILED
  {
    hide Working, Ordered;
    NowOk(p, part, s, d);
    if PoolStep(step) && step.i == d {
      AliveIsNow(p, part, s, step);
    }
  }

  lemma StepKeepsGraph(p: LoopPlan, part: set<nat>, s: State, step: Step)
    requires StepOk(p, part, s, step) && !step.Execute?
    ensures Apply(p, s, step).graph == s.graph && |Apply(p, s, step).cells| == |s.cells|
  {
  }

  lemma BrokenStays(p: LoopPlan, part: set<nat>, s: State, step: Step, i: nat)
    requires StepOk(p, part, s, step) && !step.Execute? && BrokenDependee(part, s, i)
    ensures BrokenDependee(part, Apply(p, s, step), i)
  {
    hide StepOk;
    var d :| d in part && Edge(s.graph, d, i) && d < |s.cells| && s.cells[d].status == FAILED;
    FailedStays(p, part, s, step, d);
    StepKeepsGraph(p, part, s, step);
  }

  /** A continuation of the part fails fast because of a dependee in the part. */
  lemma FailFastIsBlamed(p: LoopPlan, part: set<nat>, s: State, r: nat, i: nat)
    requires StepOk(p, part, s, FailFast(r, i)) && OutsidersSound(p, part, s) && i in part
    ensures BrokenDependee(part, s, i)
  {
    hide Working;
    AliveIsNow(p, part, s, FailFast(r, i));
    var c := s.conts[r][i];
    var f :| f in c.futures && FutureValue(s, f) == Broken;
    var k :| 0 <= k < |c.futures| && c.futures[k] == f;
    assert Edge(s.graph, f.dee, i);
    if f.dee in part {
      NowOk(p, part, s, f.dee);
    }
  }

  lemma StepKeepsBlame(p: LoopPlan, part: set<nat>, s: State, step: Step, i: nat)
    requires StepOk(p, part, s, step) && OutsidersSound(p, part, s) && !step.Execute?
    requires i in part && Blamed(p, part, s, i)
    ensures Blamed(p, part, Apply(p, s, step), i)
  {
    hide Working, BrokenDependee, Ordered, OutsidersSound, FuturesCurrent;
    var s' := Apply(p, s, step);
    if BrokenDependee(part, s, i) {
      BrokenStays(p, part, s, step, i);
    }
    if PoolStep(step) && step.i == i {
      AliveIsNow(p, part, s, step);
      if step.FailFast? {
        FailFastIsBlamed(p, part, s, step.r, i);
        BrokenStays(p, part, s, step, i);
      }
    }
  }

  lemma ExecuteKeepsBlame(p: LoopPlan, part: set<nat>, s: State, i: nat)
    requires Inv(p, part, s) && !s.raced && AllBlamed(p, part, s) && Enabled(p, s, Execute)
    requires i in part + {|s.graph|}
    ensures Blamed(p, part + {|s.graph|}, Apply(p, s, Execute), i)
  {
    if i in part {
      NowOk(p, part, s, i);
    }
  }

  // ---- The pool's threads ---------------------------------------------------------------------

  lemma WorkingAfter(s: State, s': State, r: nat, i: nat, phase: Phase)
    requires r < |s.conts| && i < |s.conts[r]| && s'.conts == SetPhase(s, r, i, phase).conts
    ensures Working(s') <= Working(s) + {(r, i)}
    ensures phase != Executing && phase != Owing ==> Working(s') <= Working(s)
  {
  }

  lemma {:induction false} Larger<T>(a: set<T>, b: set<T>)
    requires a <= b
    ensures |a| <= |b|
  {
    if a != {} {
      var x :| x in a;
      Larger(a - {x}, b - {x});
    }
  }

  lemma SameContsWork(s: State, s': State)
    requires s'.conts == s.conts
    ensures Working(s') == Working(s)
  {
  }

  lemma PoolKeepsWorking(p: LoopPlan, s: State, step: Step)
    requires |s.cells| == |s.graph| && Enabled(p, s, step) && PoolStep(step) && |Working(s)| <= p.workers
    ensures |Working(Apply(p, s, step))| <= p.workers
  {
    hide Working, FutureValue, Current;
    var s' := Apply(p, s, step);
    if s'.conts == s.conts {
      SameContsWork(s, s');
    } else {
      WorkingAfter(s, s', step.r, step.i, s'.conts[step.r][step.i].phase);
      if Working(s') <= Working(s) {
        Larger(Working(s'), Working(s));
      } else {
        Larger(Working(s'), Working(s) + {(step.r, step.i)});
      }
    }
  }

  /** No more continuations are on a thread than the pool has threads. */
  lemma StepKeepsWorking(p: LoopPlan, s: State, step: Step)
    requires |s.cells| == |s.graph| && Enabled(p, s, step) && |Working(s)| <= p.workers
    ensures |Working(Apply(p, s, step))| <= p.workers
  {
    hide FutureValue, Current;
    if PoolStep(step) {
      PoolKeepsWorking(p, s, step);
    } else {
      assert Working(Apply(p, s, step)) <= Working(s);
      Larger(Working(Apply(p, s, step)), Working(s));
    }
  }

  // ---- Every reachable state --------------------------------------------------------------------

  ghost predicate RaceInv(p: LoopPlan, part: set<nat>, s: State) {
    && OutsidersSound(p, part, s)
    && (!s.raced ==> AllBlamed(p, part, s))
    && |Working(s)| <= p.workers
  }

  /** Before the first call nothing but that call can happen. */
  lemma FirstIsExecute(p: LoopPlan, s: State, step: Step, layers: nat)
    requires Built(p, s, layers) && Enabled(p, s, step) && !step.Execute?
    ensures layers > 0
  {
  }

  lemma StepKeepsAllBlamed(p: LoopPlan, part: set<nat>, s: State, step: Step)
    requires Ordered(s.graph, part) && Inv(p, part, s) && RaceInv(p, part, s) && Enabled(p, s, step) && !step.Execute?
    ensures !Apply(p, s, step).raced ==> AllBlamed(p, part, Apply(p, s, step))
  {
    hide Ordered, Blamed, OutsidersSound, Working, MemberOk;
    var s' := Apply(p, s, step);
    if !s'.raced {
      forall i | i in part
        ensures Blamed(p, part, s', i)
      {
        StepKeepsBlame(p, part, s, step, i);
      }
    }
  }

  lemma ExecuteKeepsRaceInv(p: LoopPlan, part: set<nat>, s: State)
    requires Inv(p, part, s) && RaceInv(p, part, s) && Enabled(p, s, Execute)
    requires forall i :: i in part ==> i < |s.graph|
    ensures RaceInv(p, part + {|s.graph|}, Apply(p, s, Execute))
  {
    hide Blamed, OutsidersSound, Working, MemberOk;
    ExecuteKeepsOutsiders(p, part, s);
    StepKeepsWorking(p, s, Execute);
    if !s.raced {
      forall i | i in part + {|s.graph|}
        ensures Blamed(p, part + {|s.graph|}, Apply(p, s, Execute), i)
      {
        ExecuteKeepsBlame(p, part, s, i);
      }
    }
  }

  lemma StepKeepsRaceInv(p: LoopPlan, s: State, step: Step, layers: nat) returns (layers': nat)
    requires ValidLoop(p) && ListedInOrder(p.graph) && Built(p, s, layers) && Enabled(p, s, step)
    requires Inv(p, OrderedPart(p.graph, layers), s) && RaceInv(p, OrderedPart(p.graph, layers), s)
    ensures Built(p, Apply(p, s, step), layers')
    ensures Inv(p, OrderedPart(p.graph, layers'), Apply(p, s, step))
    ensures RaceInv(p, OrderedPart(p.graph, layers'), Apply(p, s, step))
    ensures layers' == if step.Execute? then layers + 1 else layers
  {
    hide Ordered, AllBlamed, OutsidersSound, Working, MemberOk, ListedInOrder, Enabled;
    var part := OrderedPart(p.graph, layers);
    layers' := StepKeepsBuilt(p, s, step, layers);
    if step.Execute? {
      ExecuteKeepsRaceInv(p, part, s);
      assert OrderedPart(p.graph, layers') == part + {|s.graph|};
    } else {
      FirstIsExecute(p, s, step, layers);
      LayersGiveOrder(p.graph, layers);
      StepKeepsWorking(p, s, step);
      StepKeepsOutsiders(p, part, s, step);
      StepKeepsAllBlamed(p, part, s, step);
    }
  }

  lemma InitialRaceInv(p: LoopPlan)
    requires ValidLoop(p)
    ensures RaceInv(p, OrderedPart(p.graph, 0), Initial(p))
  {
    assert Working(Initial(p)) == {};
  }

  lemma {:induction false} RunKeepsRaceInv(p: LoopPlan, tr: seq<State>, k: nat) returns (layers: nat)
    requires ValidLoop(p) && ListedInOrder(p.graph) && Run(p, tr) && k < |tr|
    ensures Built(p, tr[k], layers) && Inv(p, OrderedPart(p.graph, layers), tr[k])
    ensures RaceInv(p, OrderedPart(p.graph, layers), tr[k])
  {
    hide Inv, Built, RaceInv, Enabled, Apply;
    if k == 0 {
      InitialInv(p);
      InitialRaceInv(p);
      layers := 0;
    } else {
      layers := RunKeepsRaceInv(p, tr, k - 1);
      assert Next(p, tr[k - 1], tr[k - 1 + 1]);
      var step :| Enabled(p, tr[k - 1], step) && tr[k] == Apply(p, tr[k - 1], step);
      layers := StepKeepsRaceInv(p, tr[k - 1], step, layers);
    }
  }

  // ---- A race leaves a path of continuations between their two writes -------------------------

  /** In an unraced state of the loop, called at least once. */
  ghost predicate Known(p: LoopPlan, part: set<nat>, s: State) {
    Ordered(s.graph, part) && Inv(p, part, s) && RaceInv(p, part, s) && !s.raced && s.conts != []
  }

  /** Where a quiet failure of the part stands. */
  lemma QuietFailure(p: LoopPlan, part: set<nat>, s: State, i: nat) returns (d: nat)
    requires Known(p, part, s) && i in part && FailedQuietly(s, i)
    ensures Attached(s, i)
    ensures var phase := s.conts[|s.conts| - 1][i].phase;
            || (phase == Done && i in p.mayError)
            || (phase == Owing && i in p.mayThrow)
            || (phase == Owing && d in part && d < i && Edge(s.graph, d, i) && FailedQuietly(s, d))
  {
    NowOk(p, part, s, i);
    assert Blamed(p, part, s, i);
    d := 0;
    if BrokenDependee(part, s, i) {
      d :| d in part && Edge(s.graph, d, i) && d < |s.cells| && s.cells[d].status == FAILED;
    }
  }

  /** The continuation of `i` in the newest round keeps a thread. */
  ghost predicate Held(s: State, i: nat) {
    s.conts != [] && (|s.conts| - 1, i) in Working(s)
  }

  lemma HeldIfOwing(s: State, i: nat)
    requires Attached(s, i) && s.conts[|s.conts| - 1][i].phase == Owing
    ensures Held(s, i)
  {
  }

  ghost predicate Rising(q: seq<nat>) {
    forall a, b :: 0 <= a < b < |q| ==> q[a] < q[b]
  }

  /** The failure of a listed action, traced back to the body it began with. */
  ghost predicate Trace(p: LoopPlan, s: State, q: seq<nat>, i: nat) {
    && Path(p.graph, q) && Rising(q) && q[|q| - 1] == i
    && (forall k :: 0 <= k < |q| ==> FailedQuietly(s, q[k]))
    && (forall k :: 1 <= k < |q| ==> Held(s, q[k]))
    && (q[0] in p.mayError || (q[0] in p.mayThrow && Held(s, q[0])))
  }

  lemma {:induction false} TraceBack(p: LoopPlan, part: set<nat>, s: State, i: nat) returns (q: seq<nat>)
    requires Known(p, part, s) && i in part && i < |p.graph| && FailedQuietly(s, i)
    requires forall i: nat, d: nat :: i < |p.graph| && d < |p.graph| ==> (Edge(s.graph, d, i) <==> Edge(p.graph, d, i))
    ensures Trace(p, s, q, i)
    decreases i
  {
    hide Known, Held, FailedQuietly;
    var d := QuietFailure(p, part, s, i);
    var phase := s.conts[|s.conts| - 1][i].phase;
    if phase == Owing {
      HeldIfOwing(s, i);
    }
    if (phase == Done && i in p.mayError) || (phase == Owing && i in p.mayThrow) {
      q := [i];
    } else {
      var r := TraceBack(p, part, s, d);
      q := r + [i];
      forall k | 0 <= k < |q| - 1
        ensures Edge(p.graph, q[k], q[k + 1])
      {
        if k < |r| - 1 {
          assert Edge(p.graph, r[k], r[k + 1]);
        }
      }
    }
  }

  /** What the End of layer `l` depends on, however many layers there are. */
  lemma {:induction false} EndDependees(g: Graph, layers: nat, l: nat, d: nat)
    requires Acyclic(g) && g != [] && 0 < l <= layers && Edge(Layered(g, layers), d, |g| + 2 * l - 2)
    ensures if l == 1 then d < |g| && IsLeaf(g, d) else d == |g| + 2 * (l - 1) - 2
  {
    hide Augmented, Reaches;
    var h := Layered(g, layers - 1);
    AugmentedEdge(h, d, |g| + 2 * l - 2);
    if l < layers {
      LayeredIsSingle(g, layers - 1);
      assert !IsRoot(h, |g| + 2 * l - 2);
      EndDependees(g, layers - 1, l, d);
    } else if l > 1 {
      LayeredIsSingle(g, l - 1);
    }
  }

  /** From a quiet failure of an End down to the failure of a leaf of the sub-plan. */
  lemma {:induction false} EndTrace(p: LoopPlan, part: set<nat>, s: State, layers: nat, l: nat) returns (d: nat)
    requires ValidLoop(p) && Known(p, part, s) && 0 < l <= layers && s.graph == Layered(p.graph, layers)
    requires |p.graph| + 2 * l - 2 in part && FailedQuietly(s, |p.graph| + 2 * l - 2)
    ensures d in part && d < |p.graph| && IsLeaf(p.graph, d) && FailedQuietly(s, d)
    ensures Held(s, |p.graph|) && Edge(s.graph, d, |p.graph|)
    decreases l
  {
    hide Known, Held, FailedQuietly, IsLeaf;
    var end := |p.graph| + 2 * l - 2;
    d := QuietFailure(p, part, s, end);
    HeldIfOwing(s, end);
    EndDependees(p.graph, layers, l, d);
    if l > 1 {
      d := EndTrace(p, part, s, layers, l - 1);
    }
  }

  lemma {:induction false} HeldCount(s: State, q: seq<nat>, w: set<(nat, nat)>)
    requires Rising(q) && s.conts != [] && forall k :: 0 <= k < |q| ==> (|s.conts| - 1, q[k]) in w
    ensures |q| <= |w|
  {
    if q != [] {
      var x := (|s.conts| - 1, q[|q| - 1]);
      HeldCount(s, q[..|q| - 1], w - {x});
    }
  }

  /** If the sink has failed and `rc` is still unwritten, some failure went all the way unwritten. */
  lemma QuietSinkNeedsPath(p: LoopPlan, part: set<nat>, s: State, layers: nat)
    requires ValidLoop(p) && Known(p, part, s) && layers > 0 && s.graph == Layered(p.graph, layers)
    requires forall i: nat, d: nat :: i < |p.graph| && d < |p.graph| ==> (Edge(s.graph, d, i) <==> Edge(p.graph, d, i))
    requires Sink(s) in part && FailedQuietly(s, Sink(s))
    ensures MayRace(p)
  {
    hide FailedQuietly, IsLeaf, OutsidersSound, Inv, AllBlamed, Ordered, Layered, Working;
    var leaf := EndTrace(p, part, s, layers, layers);
    var q := TraceBack(p, part, s, leaf);
    var all := q + [|p.graph|];
    if q[0] in p.mayThrow && Held(s, q[0]) {
      assert forall k :: 0 <= k < |all| ==> Held(s, all[k]);
      HeldCount(s, all, Working(s));
    } else {
      assert forall k :: 0 <= k < |all[1..]| ==> Held(s, all[1..][k]);
      HeldCount(s, all[1..], Working(s));
    }
    assert RacingPath(p, q);
  }

  lemma StepNeverRaces(p: LoopPlan, s: State, step: Step, layers: nat)
    requires ValidLoop(p) && ListedInOrder(p.graph) && !MayRace(p) && Built(p, s, layers) && Enabled(p, s, step)
    requires Inv(p, OrderedPart(p.graph, layers), s) && RaceInv(p, OrderedPart(p.graph, layers), s) && !s.raced
    ensures !Apply(p, s, step).raced
  {
    hide MayRace, MemberOk, RaceInv, Ordered, IsLeaf, Path;
    if step == Wake {
      LayersGiveOrder(p.graph, layers);
      SinkInPart(p.graph, layers);
      if s.cells[Sink(s)].status == FAILED && Round(s) !in s.errors {
        QuietSinkNeedsPath(p, OrderedPart(p.graph, layers), s, layers);
      }
    }
  }

  /** A loop without a racing path never goes on after a failed round. */
  lemma {:induction false} NeverRaces(p: LoopPlan, tr: seq<State>, k: nat)
    requires ValidLoop(p) && ListedInOrder(p.graph) && !MayRace(p) && Run(p, tr) && k < |tr|
    ensures !tr[k].raced
  {
    hide MayRace, Inv, RaceInv, Built, Enabled, Apply;
    if k > 0 {
      NeverRaces(p, tr, k - 1);
      var layers := RunKeepsRaceInv(p, tr, k - 1);
      assert Next(p, tr[k - 1], tr[k - 1 + 1]);
      var step :| Enabled(p, tr[k - 1], step) && tr[k] == Apply(p, tr[k - 1], step);
      StepNeverRaces(p, tr[k - 1], step, layers);
    }
  }

  /** The one way the loop goes on after a failed round: the wait on the sink returns, and rc is read,
      between the two writes of the sink's own failing continuation. */
  lemma RaceExact(p: LoopPlan, s: State, step: Step)
    requires ValidLoop(p) && ListedInOrder(p.graph) && Reachable(p, s) && !s.raced && Enabled(p, s, step)
    ensures |s.cells| == |s.graph|
    ensures Apply(p, s, step).raced <==>
            && step == Wake
            && 0 <= Sink(s) && InPhase(s, |s.conts| - 1, Sink(s), Owing)
            && |s.conts| - 1 !in s.errors
  {
    hide Working, FuturesCurrent, DependeesSucceeded, Reachable, HasDepender, Layered, OrderedPart;
    var layers := ReachableInv(p, s);
    var part := OrderedPart(p.graph, layers);
    if step == Wake {
      assert layers > 0;
      NowOk(p, part, s, Sink(s));
    }
  }
}
