/** The counting loop with the rounds as the thread pool runs them. */
module CountingRuns {
  import opened Expressions
  import opened Evaluator
  import opened Options
  import opened LoopActions
  import opened ParserHelper
  import LoopInvariant
  import LoopLayers
  import LoopRaces
  import LoopSchedule
  import LoopTheorems

  /** The variables after the bodies of the listed positions took effect one after the other.  Begin
      and End, at the positions behind the body, assign nothing. */
  function Effects(env: Env, body: seq<Assignment>, log: seq<nat>, vars: Variables): Outcome
    decreases log
  {
    if log == [] then Vars(vars)
    else if log[0] >= |body| then Effects(env, body, log[1..], vars)
    else match Assigned(env, body[log[0]], vars)
      case Vars(next) => Effects(env, body, log[1..], next)
      case Broken => Broken
      case Dead => Dead
  }

  /** The `count` positions from `first` on. */
  function Positions(first: nat, count: nat): (log: seq<nat>)
    decreases count
  {
    if count == 0 then [] else [first] + Positions(first + 1, count - 1)
  }

  /** One body after the other, as listed, is one such order: the round of `LoopActions`. */
  lemma {:induction false} RoundIsListedOrder(env: Env, body: seq<Assignment>, k: nat, vars: Variables)
    requires k <= |body|
    ensures Effects(env, body, Positions(k, |body| - k), vars) == Round(env, body[k..], vars)
    decreases |body| - k
  {
    hide Assigned;
    if k < |body| {
      assert Positions(k, |body| - k)[1..] == Positions(k + 1, |body| - k - 1);
      assert body[k..][1..] == body[k + 1..];
      var r := Assigned(env, body[k], vars);
      if r.Vars? {
        RoundIsListedOrder(env, body, k + 1, r.vars);
      }
    }
  }

  lemma IncrementValue(env: Env, body: seq<Assignment>, at: nat, i: string, vars: Variables, c: int)
    requires Counting(env, body, at, i) && i in vars && vars[i] == IntValue(c) && InInt64(c) && c < MAX_INT
    ensures EvalText(env, vars, body[at].text) == Got(IntValue(c + 1))
  {
    hide ParseText, Eval;
    CounterValue(env.fp, vars, i, c);
  }

  /** A single incrementing body adds as much as it occurs, whatever else takes effect in between. */
  lemma {:induction false} EffectsCount(env: Env, body: seq<Assignment>, at: nat, i: string, log: seq<nat>,
                                        vars: Variables, c: int)
    requires Counting(env, body, at, i) && i in vars && vars[i] == IntValue(c)
    requires InInt64(c) && c + multiset(log)[at] <= MAX_INT
    ensures var r := Effects(env, body, log, vars);
            r.Vars? && i in r.vars && r.vars[i] == IntValue(c + multiset(log)[at])
    decreases log
  {
    hide EvalText;
    if log != [] {
      assert log == [log[0]] + log[1..];
      assert multiset(log)[at] == multiset(log[1..])[at] + (if log[0] == at then 1 else 0);
      if log[0] == at {
        IncrementValue(env, body, at, i, vars, c);
        EffectsCount(env, body, at, i, log[1..], Assigned(env, body[at], vars).vars, c + 1);
      } else if log[0] < |body| {
        assert AlwaysSucceeds(env, body[log[0]].text);
        assert EvalText(env, vars, body[log[0]].text).Got?;
        EffectsCount(env, body, at, i, log[1..], Assigned(env, body[log[0]], vars).vars, c);
      } else {
        EffectsCount(env, body, at, i, log[1..], vars, c);
      }
    }
  }

  lemma CountingIndex(env: Env, body: seq<Assignment>, at: nat, i: string)
    requires Counting(env, body, at, i)
    ensures at < |body|
  {
  }

  /** In every run of the scheduled rounds, and in whatever order the bodies entered so far take effect,
      the counter stands at its start plus the number of rounds when the condition is evaluated.  So
      `$i < N` holds exactly while fewer than N - i0 rounds have been made, over all calls together. */
  lemma ScheduledCount(p: LoopSchedule.LoopPlan, s: LoopSchedule.State, env: Env, condition: string,
                       body: seq<Assignment>, at: nat, i: string, log: seq<nat>, vars: Variables, c: int, limit: int)
    requires LoopSchedule.ValidLoop(p) && LoopLayers.ListedInOrder(p.graph) && |body| == |p.graph|
    requires p.mayError == {} && p.mayThrow == {}
    requires LoopSchedule.Reachable(p, s) && LoopInvariant.Resting(s) && |s.conts| <= Max(0, limit - c)
    requires multiset(log) == multiset(s.entered)
    requires Counting(env, body, at, i) && i in vars && vars[i] == IntValue(c)
    requires InInt64(c) && InInt64(limit)
    requires ParseText(env.toDouble, condition) == Some(Relational(Variable(i), LT, Constant(IntValue(limit))))
    ensures var r := Effects(env, body, log, vars);
            && r.Vars? && i in r.vars && r.vars[i] == IntValue(c + |s.conts|)
            && EvalText(env, r.vars, condition) == Got(BoolValue(|s.conts| < limit - c))
  {
    hide ParseText, Eval, LoopSchedule.Reachable, Counting, LoopRaces.MayRace;
    LoopTheorems.NoFailureNoRace(p);
    CountingIndex(env, body, at, i);
    LoopTheorems.OncePerRound(p, s, at);
    EffectsCount(env, body, at, i, log, vars, c);
    LimitValue(env.fp, Effects(env, body, log, vars).vars, i, c + |s.conts|, limit);
  }

  /** Once the bodies entered so far have taken effect, in some order, the condition has the value `b`. */
  ghost predicate Evaluates(env: Env, condition: string, body: seq<Assignment>, vars: Variables,
                            s: LoopSchedule.State, b: bool) {
    exists log: seq<nat> ::
      && multiset(log) == multiset(s.entered)
      && var r := Effects(env, body, log, vars); r.Vars? && EvalText(env, r.vars, condition) == Got(BoolValue(b))
  }

  /** The main thread does what the condition says: it enters a round only where the condition is true,
      and leaves `doRun` only where it is false. */
  ghost predicate Guided(env: Env, condition: string, body: seq<Assignment>, vars: Variables,
                         tr: seq<LoopSchedule.State>) {
    forall k :: 0 <= k < |tr| - 1 && tr[k].main == LoopSchedule.AtTop ==>
      && (tr[k + 1].main == LoopSchedule.InRound ==> Evaluates(env, condition, body, vars, tr[k], true))
      && (tr[k + 1].main == LoopSchedule.Outside ==> Evaluates(env, condition, body, vars, tr[k], false))
  }

  lemma StepOfMain(p: LoopSchedule.LoopPlan, s: LoopSchedule.State, step: LoopSchedule.Step)
    requires |s.cells| == |s.graph| && LoopSchedule.Enabled(p, s, step)
    ensures var s' := LoopSchedule.Apply(p, s, step);
            |s'.conts| == if step.Enter? then |s.conts| + 1 else |s.conts|
    ensures step.Enter? ==> s.main == LoopSchedule.AtTop && LoopSchedule.Apply(p, s, step).main == LoopSchedule.InRound
  {
    hide LoopSchedule.Working;
  }

  /** What `Guided` finds at the top is what the count says. */
  lemma GuidedValue(p: LoopSchedule.LoopPlan, s: LoopSchedule.State, env: Env, condition: string,
                    body: seq<Assignment>, at: nat, i: string, vars: Variables, c: int, limit: int, b: bool)
    requires LoopSchedule.ValidLoop(p) && LoopLayers.ListedInOrder(p.graph) && |body| == |p.graph|
    requires p.mayError == {} && p.mayThrow == {}
    requires LoopSchedule.Reachable(p, s) && LoopInvariant.Resting(s) && |s.conts| <= Max(0, limit - c)
    requires Counting(env, body, at, i) && i in vars && vars[i] == IntValue(c)
    requires InInt64(c) && InInt64(limit)
    requires ParseText(env.toDouble, condition) == Some(Relational(Variable(i), LT, Constant(IntValue(limit))))
    requires Evaluates(env, condition, body, vars, s, b)
    ensures b <==> |s.conts| < limit - c
  {
    hide ParseText, LoopSchedule.Reachable, Counting, EvalText;
    var log: seq<nat> :|
      && multiset(log) == multiset(s.entered)
      && var r := Effects(env, body, log, vars); r.Vars? && EvalText(env, r.vars, condition) == Got(BoolValue(b));
    ScheduledCount(p, s, env, condition, body, at, i, log, vars, c, limit);
  }

  /** On the pool, too, a guided loop never makes more than max(0, N - i0) rounds, over all calls, and has
      made exactly so many whenever a call returns OK. */
  lemma {:induction false} ScheduledRounds(p: LoopSchedule.LoopPlan, tr: seq<LoopSchedule.State>, k: nat, env: Env,
                                           condition: string, body: seq<Assignment>, at: nat, i: string,
                                           vars: Variables, c: int, limit: int)
    requires LoopSchedule.ValidLoop(p) && LoopLayers.ListedInOrder(p.graph) && |body| == |p.graph|
    requires p.mayError == {} && p.mayThrow == {}
    requires LoopSchedule.Run(p, tr) && k < |tr| && Guided(env, condition, body, vars, tr)
    requires Counting(env, body, at, i) && i in vars && vars[i] == IntValue(c)
    requires InInt64(c) && InInt64(limit)
    requires ParseText(env.toDouble, condition) == Some(Relational(Variable(i), LT, Constant(IntValue(limit))))
    ensures |tr[k].conts| <= Max(0, limit - c)
    ensures k > 0 && tr[k - 1].main == LoopSchedule.AtTop && tr[k].main == LoopSchedule.Outside ==>
              |tr[k].conts| == Max(0, limit - c)
  {
    hide ParseText, Counting, LoopSchedule.Reachable, LoopSchedule.Enabled, LoopSchedule.Apply, Evaluates;
    if k > 0 {
      ScheduledRounds(p, tr, k - 1, env, condition, body, at, i, vars, c, limit);
      assert LoopSchedule.Next(p, tr[k - 1], tr[k - 1 + 1]);
      var step :| LoopSchedule.Enabled(p, tr[k - 1], step) && tr[k] == LoopSchedule.Apply(p, tr[k - 1], step);
      StepOfMain(p, tr[k - 1], step);
      LoopSchedule.PrefixReachable(p, tr, k - 1);
      if tr[k - 1].main == LoopSchedule.AtTop && tr[k - 1 + 1].main == LoopSchedule.InRound {
        GuidedValue(p, tr[k - 1], env, condition, body, at, i, vars, c, limit, true);
      } else if tr[k - 1].main == LoopSchedule.AtTop && tr[k - 1 + 1].main == LoopSchedule.Outside {
        GuidedValue(p, tr[k - 1], env, condition, body, at, i, vars, c, limit, false);
      }
    }
  }
}
