/** What `LoopAction` guarantees, and exactly when. */
module LoopTheorems {
  import opened ActionGraph
  import opened ActionStatus
  import opened LoopSchedule
  import opened LoopInvariant
  import opened LoopLayers
  import opened LoopRaces
  import opened LoopRounds
  import opened LoopSafety

  // ---- Races -------------------------------------------------------------------------------

  lemma ReachableNeverRaces(p: LoopPlan, s: State)
    requires ValidLoop(p) && ListedInOrder(p.graph) && !MayRace(p) && Reachable(p, s)
    ensures !s.raced
  {
    var tr :| Run(p, tr) && tr[|tr| - 1] == s;
    NeverRaces(p, tr, |tr| - 1);
  }

  /** Some run goes on after a failed round exactly when an action that may fail has a path to a leaf
      that is short enough for the pool.  The run may let a ready continuation overtake others that
      were ready before it; `QueueSchedule` has a pool that does not. */
  lemma RacesExact(p: LoopPlan)
    requires ValidLoop(p) && ListedInOrder(p.graph)
    ensures (exists s :: Reachable(p, s) && s.raced) <==> MayRace(p)
  {
    if !MayRace(p) {
      forall s | Reachable(p, s)
        ensures !s.raced
      {
        ReachableNeverRaces(p, s);
      }
    } else {
      var s := FailureReadTooEarly(p);
    }
  }

  /** In particular where no body can fail.  This rests on `Ended` being one step: were a Begin reset
      between its two writes, its old promise would break although no body failed. */
  lemma NoFailureNoRace(p: LoopPlan)
    requires p.mayError == {} && p.mayThrow == {}
    ensures !MayRace(p)
  {
  }

  /** The state belongs to a run that has not raced; of a loop that cannot race every state does. */
  ghost predicate Unraced(p: LoopPlan, s: State) {
    Reachable(p, s) && (MayRace(p) ==> !s.raced)
  }

  lemma UnracedInv(p: LoopPlan, s: State) returns (layers: nat)
    requires ValidLoop(p) && ListedInOrder(p.graph) && Unraced(p, s)
    ensures Built(p, s, layers) && Inv(p, OrderedPart(p.graph, layers), s) && !s.raced
    ensures layers > 0 ==> Ordered(s.graph, OrderedPart(p.graph, layers))
    ensures forall i: nat :: i < |p.graph| ==> i in OrderedPart(p.graph, layers)
    ensures forall i: nat, d: nat :: i < |p.graph| && d < |p.graph| ==> (Edge(s.graph, d, i) <==> Edge(p.graph, d, i))
  {
    layers := ReachableInv(p, s);
    if !MayRace(p) {
      ReachableNeverRaces(p, s);
    }
  }

  // ---- Order -------------------------------------------------------------------------------

  /** In every round a sub-plan action whose body is entered has status INIT, and all its dependees
      succeeded in that same round. */
  lemma RoundOrder(p: LoopPlan, s: State, r: nat, i: nat)
    requires ValidLoop(p) && ListedInOrder(p.graph) && Unraced(p, s)
    requires Enabled(p, s, Start(r, i)) && i < |p.graph|
    ensures r == Round(s) && i < |s.cells| && s.cells[i].status == INIT
    ensures forall d: nat :: Edge(p.graph, d, i) ==> Succeeded(s, d, r)
  {
    hide MayRace, Working, Ordered, MemberOk, Augmented;
    var layers := UnracedInv(p, s);
    var part := OrderedPart(p.graph, layers);
    StartedInOrder(p, part, s, r, i);
    forall d: nat | Edge(p.graph, d, i)
      ensures Succeeded(s, d, r)
    {
      assert d < i;
      assert Edge(s.graph, d, i);
    }
  }

  /** A sub-plan action that can start has dependees that all succeeded in the same round. */
  ghost predicate OrderHolds(p: LoopPlan, s: State) {
    forall r: nat, i: nat, d: nat ::
      Enabled(p, s, Start(r, i)) && i < |p.graph| && Edge(p.graph, d, i) ==> Succeeded(s, d, r)
  }

  /** The order holds in all runs that have not raced exactly when every dependee is listed before its
      dependers. */
  lemma OrderExact(p: LoopPlan)
    requires ValidLoop(p)
    ensures (forall s :: Reachable(p, s) && !s.raced ==> OrderHolds(p, s)) <==> ListedInOrder(p.graph)
  {
    hide MayRace, Working;
    if ListedInOrder(p.graph) {
      forall s | Reachable(p, s) && !s.raced
        ensures OrderHolds(p, s)
      {
        forall r: nat, i: nat, d: nat | Enabled(p, s, Start(r, i)) && i < |p.graph| && Edge(p.graph, d, i)
          ensures Succeeded(s, d, r)
        {
          RoundOrder(p, s, r, i);
        }
      }
    } else {
      var i: nat, d: nat :| Edge(p.graph, d, i) && i <= d;
      var s := BackwardBreaksOrder(p, i, d);
      assert !Succeeded(s, d, 1);
    }
  }

  // ---- Completeness ------------------------------------------------------------------------

  /** Between two rounds, and between two calls of `doRun`, every sub-plan action has succeeded in the
      last round, and none of its continuations is left over. */
  lemma RoundComplete(p: LoopPlan, s: State, i: nat)
    requires ValidLoop(p) && ListedInOrder(p.graph) && Unraced(p, s)
    requires Resting(s) && s.conts != [] && i < |p.graph|
    ensures Succeeded(s, i, Round(s))
    ensures forall r :: 0 <= r < |s.conts| && i < |s.conts[r]| ==> s.conts[r][i].phase == Done
    ensures i < |s.conts[|s.conts| - 1]|
  {
    hide MayRace, Ordered, FuturesCurrent, Built, Layered;
    var layers := UnracedInv(p, s);
    NowOk(p, OrderedPart(p.graph, layers), s, i);
  }

  // ---- Aborts ------------------------------------------------------------------------------

  /** No continuation of a sub-plan action fails a CHECK of `run()`. */
  lemma SubPlanNeverAborts(p: LoopPlan, s: State, step: Step)
    requires ValidLoop(p) && ListedInOrder(p.graph) && Unraced(p, s)
    requires Enabled(p, s, step) && PoolStep(step) && step.i < |p.graph|
    ensures |s.cells| == |s.graph| && !Apply(p, s, step).crashed
  {
    hide MayRace, Working, Ordered, MemberOk;
    var layers := UnracedInv(p, s);
    ActorMeetsChecks(p, OrderedPart(p.graph, layers), s, step);
  }

  /** However its actions are listed, a loop that has not raced can abort within so many rounds exactly
      when they are three or more. */
  lemma AbortExact(p: LoopPlan, rounds: nat)
    requires ValidLoop(p)
    ensures (exists s :: Reachable(p, s) && s.crashed && !s.raced && |s.conts| <= rounds) <==> rounds >= 3
  {
    hide Reachable;
    if rounds >= 3 {
      var s := LateBeginAborts(p);
    } else {
      forall s | Reachable(p, s) && !s.raced && |s.conts| <= rounds
        ensures !s.crashed
      {
        TwoRoundsNeverAbort(p, s);
      }
    }
  }

  // ---- Every body once per round -------------------------------------------------------------

  function Entries(s: State, i: nat): nat {
    multiset(s.entered)[i]
  }

  /** How often the body of a sub-plan action has been entered; after a failure nothing is said. */
  ghost predicate CountOk(s: State, i: nat) {
    i < |s.cells| ==>
      if s.conts == [] then Entries(s, i) == 0
      else if !Attached(s, i) then Entries(s, i) == |s.conts| - 1
      else match s.cells[i].status
        case INIT => Entries(s, i) == |s.conts| - 1
        case FAILED => true
        case _ => Entries(s, i) == |s.conts|
  }

  /** What a pool step can do to the status of an action and to the list of entries. */
  ghost predicate Moved(s: State, s': State, k: nat, i: nat) {
    && |s'.conts| == |s.conts| && (Attached(s', i) <==> Attached(s, i)) && |s'.cells| == |s.cells|
    && (s'.entered == s.entered || s'.entered == s.entered + [k])
    && (i < |s.cells| && i != k ==> s'.cells[i].status == s.cells[i].status)
    && (i < |s.cells| && i == k ==>
          || (s.cells[i].status == INIT && s'.cells[i].status == RUNNING && s'.entered == s.entered + [i])
          || (s.cells[i].status == RUNNING && s'.cells[i].status == SUCCEEDED && s'.entered == s.entered)
          || (s'.cells[i].status == s.cells[i].status && s'.entered == s.entered)
          || s'.cells[i].status == FAILED)
  }

  lemma PoolMoves(p: LoopPlan, s: State, step: Step, i: nat)
    requires |s.cells| == |s.graph| && Enabled(p, s, step) && PoolStep(step)
    ensures Moved(s, Apply(p, s, step), step.i, i)
  {
    hide Working, FutureValue, Current;
  }

  lemma MovedKeepsCount(p: LoopPlan, part: set<nat>, s: State, s': State, k: nat, i: nat)
    requires Inv(p, part, s) && !s.raced && i in part && CountOk(s, i) && Moved(s, s', k, i)
    requires i == k ==> Attached(s, i)
    ensures CountOk(s', i)
  {
    hide Inv;
    if s'.entered == s.entered + [k] {
      assert multiset(s'.entered)[i] == multiset(s.entered)[i] + (if i == k then 1 else 0);
    }
  }

  lemma PoolKeepsCount(p: LoopPlan, part: set<nat>, s: State, step: Step, i: nat)
    requires StepOk(p, part, s, step) && PoolStep(step) && i in part && CountOk(s, i)
    ensures CountOk(Apply(p, s, step), i)
  {
    hide CountOk, Moved, MemberOk, Ordered, Enabled;
    PoolMoves(p, s, step, i);
    if step.i == i {
      AliveIsNow(p, part, s, step);
    }
    MovedKeepsCount(p, part, s, Apply(p, s, step), step.i, i);
  }

  lemma MainKeepsCount(p: LoopPlan, part: set<nat>, s: State, step: Step, i: nat)
    requires Inv(p, part, s) && !s.raced && Enabled(p, s, step) && !PoolStep(step)
    requires i in part && i < |p.graph| && i < |s.graph| && CountOk(s, i)
    ensures CountOk(Apply(p, s, step), i)
  {
    hide Working, Augmented, FuturesCurrent, DependeesSucceeded;
    NowOk(p, part, s, i);
  }

  lemma InvShape(p: LoopPlan, part: set<nat>, s: State)
    requires Inv(p, part, s)
    ensures |s.cells| == |s.graph|
  {
  }

  lemma StepKeepsCount(p: LoopPlan, part: set<nat>, s: State, step: Step, i: nat)
    requires Inv(p, part, s) && !s.raced && Enabled(p, s, step)
    requires step.Execute? || Ordered(s.graph, part)
    requires i in part && i < |p.graph| && i < |s.graph| && CountOk(s, i)
    ensures CountOk(Apply(p, s, step), i)
  {
    hide Inv, CountOk, Enabled;
    InvShape(p, part, s);
    if PoolStep(step) {
      PoolKeepsCount(p, part, s, step, i);
    } else {
      MainKeepsCount(p, part, s, step, i);
    }
  }

  lemma InitialCount(p: LoopPlan, i: nat)
    ensures CountOk(Initial(p), i)
  {
  }

  lemma {:induction false} RunKeepsCount(p: LoopPlan, tr: seq<State>, k: nat, i: nat)
    requires ValidLoop(p) && ListedInOrder(p.graph) && Run(p, tr) && k < |tr| && !tr[k].raced && i < |p.graph|
    ensures CountOk(tr[k], i)
  {
    hide Working, MemberOk, CountOk, Augmented, Enabled, Apply;
    if k == 0 {
      InitialCount(p, i);
    } else {
      assert Next(p, tr[k - 1], tr[k - 1 + 1]);
      var step :| Enabled(p, tr[k - 1], step) && tr[k] == Apply(p, tr[k - 1], step);
      StepMonotone(p, tr[k - 1], step);
      RunKeepsCount(p, tr, k - 1, i);
      var layers := RunKeepsInv(p, tr, k - 1);
      if !step.Execute? {
        FirstIsExecute(p, tr[k - 1], step, layers);
        LayersGiveOrder(p.graph, layers);
      }
      CoreInPart(p.graph, layers);
      StepKeepsCount(p, OrderedPart(p.graph, layers), tr[k - 1], step, i);
    }
  }

  /** Between two rounds the body of every sub-plan action has been entered exactly once in each round
      so far, in whatever way the continuations interleaved. */
  lemma OncePerRound(p: LoopPlan, s: State, i: nat)
    requires ValidLoop(p) && ListedInOrder(p.graph) && Unraced(p, s) && Resting(s) && i < |p.graph|
    ensures Entries(s, i) == |s.conts|
  {
    hide MayRace;
    var layers := UnracedInv(p, s);
    var tr :| Run(p, tr) && tr[|tr| - 1] == s;
    RunKeepsCount(p, tr, |tr| - 1, i);
    NowOk(p, OrderedPart(p.graph, layers), s, i);
  }
}
