/** What every step of a loop keeps for the actions that are listed in order. */
module LoopInvariant {
  import opened ActionGraph
  import opened ActionStatus
  import opened LoopSchedule

  // ---- The ordered part of a looped plan --------------------------------------

  ghost predicate HasDepender(g: Graph, part: set<nat>, i: nat) {
    exists j :: j in part && Edge(g, i, j)
  }

  /** `part` holds the actions whose order is claimed: within it every dependee is listed before its
      depender, and every action but the newest End has a depender. */
  ghost predicate Ordered(g: Graph, part: set<nat>) {
    && |g| >= 2 && Closed(g)
    && (forall i :: i in part ==> i < |g| && g[i] != [])
    && |g| - 2 in part
    && (forall i, d :: i in part && d in part && Edge(g, d, i) ==> d < i)
    && (forall i {:trigger HasDepender(g, part, i)} :: i in part && i != |g| - 2 ==> HasDepender(g, part, i))
  }

  ghost predicate CellOk(c: Cell) {
    && |c.promises| > 0
    && (c.status == INIT || c.status == RUNNING <==> Current(c) == Unset)
    && (c.status == SUCCEEDED <==> Current(c) == Value)
    && (c.status == FAILED <==> Current(c) == Broken)
  }

  ghost predicate Succeeded(s: State, i: nat, r: int) {
    i < |s.cells| && s.cells[i].status == SUCCEEDED && s.cells[i].okRound == r
  }

  /** All dependees of `i` within the part succeeded in round `r`. */
  ghost predicate DependeesSucceeded(part: set<nat>, s: State, i: nat, r: int) {
    forall d :: d in part && Edge(s.graph, d, i) ==> Succeeded(s, d, r)
  }

  ghost predicate FuturesCurrent(part: set<nat>, s: State, i: nat, fs: seq<Future>)
    requires i < |s.graph|
  {
    && |fs| == |s.graph[i]|
    && forall k :: 0 <= k < |fs| ==>
         && fs[k].dee == s.graph[i][k]
         && (s.graph[i][k] in part && s.graph[i][k] < |s.cells| ==> fs[k].gen == |s.cells[s.graph[i][k]].promises| - 1)
  }

  /** Action `i` has its continuation of the newest round. */
  predicate Attached(s: State, i: nat) {
    s.conts != [] && i < |s.conts[|s.conts| - 1]|
  }

  /** Between two rounds, or between two calls of `doRun`. */
  predicate Resting(s: State) {
    s.main == AtTop || s.main == Outside
  }

  ghost predicate AttachedOk(p: LoopPlan, part: set<nat>, s: State, i: nat, c: Cont)
    requires |s.cells| == |s.graph| && i < |s.graph|
  {
    && FuturesCurrent(part, s, i, c.futures)
    && match c.phase
       case Waiting => s.cells[i].status == INIT
       case Executing => s.cells[i].status == RUNNING && DependeesSucceeded(part, s, i, Round(s))
       case Thrown => s.cells[i].status == RUNNING && DependeesSucceeded(part, s, i, Round(s))
       case Owing => s.cells[i].status == FAILED
       case Done => || (Succeeded(s, i, Round(s)) && DependeesSucceeded(part, s, i, Round(s)))
                    || (s.cells[i].status == FAILED && (i in p.mayError || Round(s) in s.errors))
  }

  ghost predicate MemberOk(p: LoopPlan, part: set<nat>, s: State, i: nat)
    requires |s.cells| == |s.graph| && i < |s.graph|
  {
    && CellOk(s.cells[i])
    && (forall q :: 0 <= q < Round(s) && i < |s.conts[q]| ==> s.conts[q][i].phase == Done)
    && (if Attached(s, i) then
          && AttachedOk(p, part, s, i, s.conts[|s.conts| - 1][i])
          && (Resting(s) ==> Succeeded(s, i, Round(s)))
        else
          && (s.cells[i].status == INIT || s.cells[i].status == SUCCEEDED)
          && (Resting(s) ==> s.cells[i].status == INIT))
    && (i < |p.graph| && s.conts != [] && Resting(s) ==> Attached(s, i))
  }

  ghost predicate Inv(p: LoopPlan, part: set<nat>, s: State) {
    && |s.cells| == |s.graph|
    && (forall r :: 0 <= r < |s.conts| ==> |s.conts[r]| <= |s.graph|)
    && (s.main == InRound ==> s.conts != [])
    && (!s.raced ==>
          forall i {:trigger MemberOk(p, part, s, i)} :: i in part ==> i < |s.graph| && MemberOk(p, part, s, i))
  }

  ghost predicate StepOk(p: LoopPlan, part: set<nat>, s: State, step: Step) {
    Ordered(s.graph, part) && Inv(p, part, s) && Enabled(p, s, step) && !s.raced
  }

  /** The step of a continuation. */
  predicate PoolStep(step: Step) {
    step.Start? || step.FailFast? || step.Finish? || step.Handle? || step.Record?
  }

  lemma NowOk(p: LoopPlan, part: set<nat>, s: State, i: nat)
    requires Inv(p, part, s) && !s.raced && i in part
    ensures i < |s.graph| && MemberOk(p, part, s, i)
  {
  }

  /** Only continuations of the newest round are still alive in the ordered part. */
  lemma AliveIsNow(p: LoopPlan, part: set<nat>, s: State, step: Step)
    requires StepOk(p, part, s, step) && PoolStep(step) && step.i in part
    ensures step.r == Round(s) && step.i < |s.conts[step.r]|
    ensures AttachedOk(p, part, s, step.i, s.conts[step.r][step.i])
  {
    hide Working, Augmented;
    NowOk(p, part, s, step.i);
  }

  /** A future of the ordered part that holds a value was fulfilled in this round. */
  lemma StartedInOrder(p: LoopPlan, part: set<nat>, s: State, r: nat, i: nat)
    requires StepOk(p, part, s, Start(r, i)) && i in part
    ensures r == Round(s) && s.cells[i].status == INIT
    ensures DependeesSucceeded(part, s, i, r)
  {
    hide Working, Augmented;
    AliveIsNow(p, part, s, Start(r, i));
    var c := s.conts[r][i];
    forall d | d in part && Edge(s.graph, d, i)
      ensures Succeeded(s, d, r)
    {
      var k :| 0 <= k < |s.graph[i]| && s.graph[i][k] == d;
      NowOk(p, part, s, d);
      assert c.futures[k] in c.futures;
      assert FutureValue(s, c.futures[k]) == Current(s.cells[d]);
    }
  }

  // ---- What a continuation's step leaves alone -----------------------------------

  /** Everything but cell `k` is as before, no promise was replaced, and a success was not undone. */
  ghost predicate Local(s: State, s': State, k: nat) {
    && s'.graph == s.graph
    && |s'.cells| == |s.cells| && |s'.conts| == |s.conts|
    && s'.main == s.main && s'.raced == s.raced && s.errors <= s'.errors
    && (forall r :: 0 <= r < |s.conts| ==> |s'.conts[r]| == |s.conts[r]|)
    && (forall r, i :: 0 <= r < |s.conts| && 0 <= i < |s.conts[r]| && i != k ==> s'.conts[r][i] == s.conts[r][i])
    && (forall i :: 0 <= i < |s.cells| && i != k ==> s'.cells[i] == s.cells[i])
    && (k < |s.cells| ==> |s'.cells[k].promises| == |s.cells[k].promises|)
    && (k < |s.cells| && s.cells[k].status == SUCCEEDED ==> s'.cells[k] == s.cells[k])
  }

  lemma LocalKeepsFutures(part: set<nat>, s: State, s': State, k: nat, i: nat, fs: seq<Future>)
    requires |s.cells| == |s.graph| && i < |s.graph| && Local(s, s', k) && FuturesCurrent(part, s, i, fs)
    ensures FuturesCurrent(part, s', i, fs)
  {
    forall j | 0 <= j < |fs|
      ensures fs[j].dee == s.graph[i][j]
      ensures s.graph[i][j] in part && s.graph[i][j] < |s'.cells|
              ==> fs[j].gen == |s'.cells[s.graph[i][j]].promises| - 1
    {
    }
  }

  lemma LocalKeepsOther(p: LoopPlan, part: set<nat>, s: State, s': State, k: nat, i: nat)
    requires Ordered(s.graph, part) && |s.cells| == |s.graph|
    requires Local(s, s', k) && i in part && i < |s.graph| && i != k && MemberOk(p, part, s, i)
    ensures MemberOk(p, part, s', i)
  {
    forall d, r | Succeeded(s, d, r)
      ensures Succeeded(s', d, r)
    {
    }
    if Attached(s, i) {
      var c := s.conts[|s.conts| - 1][i];
      assert s'.conts[|s.conts| - 1][i] == c;
      LocalKeepsFutures(part, s, s', k, i, c.futures);
    }
  }

  /** Nothing that concerns the ordered part differs between the two states. */
  ghost predicate SameWithin(part: set<nat>, s: State, s': State) {
    && s'.graph == s.graph
    && |s'.cells| == |s.cells| == |s.graph| && |s'.conts| == |s.conts|
    && s'.main == s.main && s.errors <= s'.errors
    && (forall d :: d in part && d < |s.graph| ==> s'.cells[d] == s.cells[d])
    && (forall r :: 0 <= r < |s.conts| ==> |s'.conts[r]| == |s.conts[r]|)
    && (forall r, i :: 0 <= r < |s.conts| && 0 <= i < |s.conts[r]| && i in part ==> s'.conts[r][i] == s.conts[r][i])
  }

  lemma SameKeeps(p: LoopPlan, part: set<nat>, s: State, s': State, i: nat)
    requires SameWithin(part, s, s') && i in part && i < |s.graph| && MemberOk(p, part, s, i)
    ensures MemberOk(p, part, s', i)
  {
    forall d, r | d in part && Succeeded(s, d, r)
      ensures Succeeded(s', d, r)
    {
    }
    if Attached(s, i) {
      assert s'.conts[|s.conts| - 1][i] == s.conts[|s.conts| - 1][i];
    }
  }

  /** A step outside the ordered part changes no cell inside it. */
  lemma OutsiderKeeps(p: LoopPlan, part: set<nat>, s: State, step: Step, i: nat)
    requires StepOk(p, part, s, step) && PoolStep(step) && step.i !in part && i in part
    ensures i < |s.graph| && MemberOk(p, part, Apply(p, s, step), i)
  {
    hide Working, Augmented;
    NowOk(p, part, s, i);
    assert SameWithin(part, s, Apply(p, s, step));
    SameKeeps(p, part, s, Apply(p, s, step), i);
  }

  /** A pool step that does not abort is local; in the ordered part that needs the invariant. */
  lemma PoolStepIsLocal(p: LoopPlan, part: set<nat>, s: State, step: Step)
    requires StepOk(p, part, s, step) && PoolStep(step)
    ensures step.i in part ==> Local(s, Apply(p, s, step), step.i)
    ensures forall i :: i in part && i != step.i ==> MemberOk(p, part, Apply(p, s, step), i)
  {
    hide Working, Augmented;
    var s' := Apply(p, s, step);
    var k := step.i;
    if k in part {
      AliveIsNow(p, part, s, step);
      NowOk(p, part, s, k);
      assert Local(s, s', k);
      forall i | i in part && i != k
        ensures MemberOk(p, part, s', i)
      {
        NowOk(p, part, s, i);
        LocalKeepsOther(p, part, s, s', k, i);
      }
    } else {
      forall i | i in part
        ensures MemberOk(p, part, s', i)
      {
        NowOk(p, part, s, i);
        OutsiderKeeps(p, part, s, step, i);
      }
    }
  }

  lemma DependeesStay(part: set<nat>, s: State, s': State, i: nat, r: int)
    requires Ordered(s.graph, part) && i in part && Local(s, s', i)
    ensures DependeesSucceeded(part, s, i, r) ==> DependeesSucceeded(part, s', i, r)
  {
    forall d | d in part && Edge(s.graph, d, i) && Succeeded(s, d, r)
      ensures Succeeded(s', d, r)
    {
      assert d != i;
    }
  }

  /** No CHECK of `run()` fails in the ordered part. */
  lemma ActorMeetsChecks(p: LoopPlan, part: set<nat>, s: State, step: Step)
    requires StepOk(p, part, s, step) && PoolStep(step) && step.i in part
    ensures !Apply(p, s, step).crashed
  {
    AliveIsNow(p, part, s, step);
  }

  lemma PoolStepKeepsActor(p: LoopPlan, part: set<nat>, s: State, step: Step)
    requires StepOk(p, part, s, step) && PoolStep(step) && step.i in part
    ensures MemberOk(p, part, Apply(p, s, step), step.i)
    ensures !Apply(p, s, step).crashed
  {
    hide Working, Augmented, FuturesCurrent, DependeesSucceeded, Ordered;
    var s' := Apply(p, s, step);
    var r, i := step.r, step.i;
    AliveIsNow(p, part, s, step);
    ActorMeetsChecks(p, part, s, step);
    NowOk(p, part, s, i);
    PoolStepIsLocal(p, part, s, step);
    LocalKeepsFutures(part, s, s', i, i, s.conts[r][i].futures);
    if step.Start? {
      StartedInOrder(p, part, s, r, i);
    }
    DependeesStay(part, s, s', i, r);
  }

  // ---- The main thread's steps ----------------------------------------------------

  /** When the sink of the round succeeded, so did every action of the ordered part, in this round. */
  lemma {:induction false} SinkSpeaksForAll(p: LoopPlan, part: set<nat>, s: State, i: nat)
    requires Ordered(s.graph, part) && Inv(p, part, s) && !s.raced && s.conts != []
    requires |s.conts[|s.conts| - 1]| == |s.graph|
    requires s.cells[Sink(s)].status == SUCCEEDED && i in part
    ensures Succeeded(s, i, Round(s))
    ensures DependeesSucceeded(part, s, i, Round(s))
    decreases |s.graph| - i
  {
    NowOk(p, part, s, i);
    if i != Sink(s) {
      assert HasDepender(s.graph, part, i);
      var j :| j in part && Edge(s.graph, i, j);
      SinkSpeaksForAll(p, part, s, j);
    }
  }

  lemma EnterKeeps(p: LoopPlan, part: set<nat>, s: State, i: nat)
    requires StepOk(p, part, s, Enter) && i in part
    ensures i < |s.graph| && MemberOk(p, part, Apply(p, s, Enter), i)
  {
    NowOk(p, part, s, i);
  }

  lemma LeaveKeeps(p: LoopPlan, part: set<nat>, s: State, step: Step, i: nat)
    requires StepOk(p, part, s, step) && (step.Leave? || step.GiveUp?) && i in part
    ensures i < |s.graph| && MemberOk(p, part, Apply(p, s, step), i)
  {
    NowOk(p, part, s, i);
    assert forall d, r :: Succeeded(s, d, r) ==> Succeeded(Apply(p, s, step), d, r);
  }

  lemma WakeKeeps(p: LoopPlan, part: set<nat>, s: State, i: nat)
    requires StepOk(p, part, s, Wake) && i in part
    requires !Apply(p, s, Wake).raced
    ensures i < |s.graph| && MemberOk(p, part, Apply(p, s, Wake), i)
  {
    hide Working, Augmented;
    var s' := Apply(p, s, Wake);
    NowOk(p, part, s, i);
    NowOk(p, part, s, Sink(s));
    if s'.main == AtTop {
      SinkSpeaksForAll(p, part, s, i);
    }
    assert forall d, r :: Succeeded(s, d, r) ==> Succeeded(s', d, r);
  }

  lemma RegisterKeepsFutures(p: LoopPlan, part: set<nat>, s: State, i: nat, fs: seq<Future>)
    requires StepOk(p, part, s, Register) && i in part && i < |s.conts[|s.conts| - 1]| && i < |s.graph|
    requires FuturesCurrent(part, s, i, fs)
    ensures FuturesCurrent(part, Apply(p, s, Register), i, fs)
  {
    forall j | 0 <= j < |fs|
      ensures var s' := Apply(p, s, Register);
              s.graph[i][j] in part && s.graph[i][j] < |s'.cells|
              ==> fs[j].gen == |s'.cells[s.graph[i][j]].promises| - 1
    {
      if s.graph[i][j] in part {
        assert Edge(s.graph, s.graph[i][j], i);
      }
    }
  }

  lemma RegisterKeeps(p: LoopPlan, part: set<nat>, s: State, i: nat)
    requires StepOk(p, part, s, Register) && i in part
    ensures i < |s.graph| && MemberOk(p, part, Apply(p, s, Register), i)
  {
    var s' := Apply(p, s, Register);
    var r := |s.conts| - 1;
    var j := |s.conts[r]|;
    NowOk(p, part, s, i);
    forall d, q | d in part && d != j && Succeeded(s, d, q)
      ensures Succeeded(s', d, q)
    {
    }
    if i < j {
      assert s'.conts[r][i] == s.conts[r][i];
      RegisterKeepsFutures(p, part, s, i, s.conts[r][i].futures);
      assert forall d :: d in part && Edge(s.graph, d, i) ==> d != j;
    }
  }

  /** Every step within one call of `doRun` keeps the invariant. */
  lemma StepKeepsInv(p: LoopPlan, part: set<nat>, s: State, step: Step)
    requires Ordered(s.graph, part) && Inv(p, part, s) && Enabled(p, s, step) && !step.Execute?
    ensures Inv(p, part, Apply(p, s, step)) && Apply(p, s, step).graph == s.graph
  {
    hide MemberOk;
    var s' := Apply(p, s, step);
    if !s'.raced {
      forall i | i in part
        ensures i < |s.graph| && MemberOk(p, part, s', i)
      {
        if PoolStep(step) {
          if step.i in part {
            PoolStepIsLocal(p, part, s, step);
            PoolStepKeepsActor(p, part, s, step);
          } else {
            OutsiderKeeps(p, part, s, step, i);
          }
        } else if step.Enter? {
          EnterKeeps(p, part, s, i);
        } else if step.Register? {
          RegisterKeeps(p, part, s, i);
        } else if step.Wake? {
          WakeKeeps(p, part, s, i);
        } else {
          LeaveKeeps(p, part, s, step, i);
        }
      }
    }
  }

  // ---- Another call of doRun -----------------------------------------------------------

  lemma ExecuteKeepsMember(p: LoopPlan, part: set<nat>, s: State, i: nat)
    requires Inv(p, part, s) && !s.raced && Enabled(p, s, Execute) && i in part
    requires s.conts == [] || Ordered(s.graph, part)
    ensures i < |s.graph| && MemberOk(p, part + {|s.graph|}, Apply(p, s, Execute), i)
  {
    NowOk(p, part, s, i);
    var s' := Apply(p, s, Execute);
    var part' := part + {|s.graph|};
    if Attached(s, i) {
      assert s'.graph[i] == s.graph[i];
      var c := s.conts[|s.conts| - 1][i];
      forall d | d in part' && Edge(s'.graph, d, i) && DependeesSucceeded(part, s, i, Round(s))
        ensures Succeeded(s', d, Round(s'))
      {
        assert Edge(s.graph, d, i);
        assert d in part && Succeeded(s, d, Round(s));
      }
      forall k | 0 <= k < |c.futures|
        ensures s'.graph[i][k] in part' && s'.graph[i][k] < |s'.cells|
                ==> c.futures[k].gen == |s'.cells[s'.graph[i][k]].promises| - 1
      {
        assert Edge(s.graph, s.graph[i][k], i);
      }
      assert FuturesCurrent(part', s', i, c.futures);
    }
  }

  lemma NewEndOk(p: LoopPlan, part: set<nat>, s: State)
    requires |s.cells| == |s.graph| && |p.graph| <= |s.graph| && Enabled(p, s, Execute)
    requires forall r :: 0 <= r < |s.conts| ==> |s.conts[r]| <= |s.graph|
    ensures MemberOk(p, part, Apply(p, s, Execute), |s.graph|)
  {
  }

  /** The next call finds its actions settled and with fulfilled promises, as the last one left them. */
  lemma ExecuteKeepsInv(p: LoopPlan, part: set<nat>, s: State)
    requires Inv(p, part, s) && Enabled(p, s, Execute)
    requires s.conts == [] || Ordered(s.graph, part)
    requires |p.graph| <= |s.graph|
    ensures Inv(p, part + {|s.graph|}, Apply(p, s, Execute))
  {
    hide MemberOk;
    var s' := Apply(p, s, Execute);
    if !s'.raced {
      forall i | i in part + {|s.graph|}
        ensures i < |s'.graph| && MemberOk(p, part + {|s.graph|}, s', i)
      {
        if i in part {
          NowOk(p, part, s, i);
          ExecuteKeepsMember(p, part, s, i);
        } else {
          NewEndOk(p, part + {|s.graph|}, s);
        }
      }
    }
  }
}
