/** The loop action seen from the main thread: a condition, a body that assigns variables, and the
    context both share. */
module LoopActions {
  import opened Expressions
  import opened Options
  import opened Overflow
  import opened Evaluator
  import opened ParserHelper
  import opened Printer
  import opened RoundTrip
  import Scanner

  type Variables = map<string, Value>

  /** The two conversions of doubles the parser and the evaluator need. */
  datatype Env = Env(toDouble: string -> Option<Double>, fp: DoubleOps)

  datatype ResultCode = OK | ERR_FAILED

  /** Parse and evaluate; the evaluation may also end the process. */
  datatype Evaluated = Got(v: Value) | Failed | Aborted

  function EvalText(env: Env, vars: Variables, text: string): Evaluated {
    var e := ParseText(env.toDouble, text);
    if e.None? then Failed
    else match Eval(env.fp, Context(vars), e.value)
      case Ok(v) => Got(v)
      case Error(_) => Failed
      case Fatal => Aborted
      case Undefined => Aborted
  }

  /** `$name = text`. */
  datatype Assignment = Assignment(name: string, text: string)

  // ---- What one pass of the loop does ---------------------------------------------

  datatype Outcome = Vars(vars: Variables) | Broken | Dead

  function Assigned(env: Env, a: Assignment, vars: Variables): Outcome {
    match EvalText(env, vars, a.text)
    case Got(v) => Vars(vars[a.name := v])
    case Failed => Broken
    case Aborted => Dead
  }

  /** The actions of the body one after the other, in an order its dependencies allow. */
  function Round(env: Env, body: seq<Assignment>, vars: Variables): Outcome {
    if body == [] then Vars(vars)
    else match Assigned(env, body[0], vars)
      case Vars(next) => Round(env, body[1..], next)
      case Broken => Broken
      case Dead => Dead
  }

  datatype Pass = Stop | Again(vars: Variables) | Fail | Die

  /** One pass: test the condition, and if it holds run the body. */
  function OnePass(env: Env, condition: string, body: seq<Assignment>, vars: Variables): Pass {
    match EvalText(env, vars, condition)
    case Failed => Fail
    case Aborted => Die
    case Got(v) =>
      if !AsBool(env.fp, v) then Stop
      else match Round(env, body, vars)
        case Vars(next) => Again(next)
        case Broken => Fail
        case Dead => Die
  }

  /** The variables after `n` passes that all went on; `None` if one of them did not. */
  function After(env: Env, condition: string, body: seq<Assignment>, vars: Variables, n: nat): Option<Variables>
    decreases n
  {
    if n == 0 then Some(vars)
    else match OnePass(env, condition, body, vars)
      case Again(next) => After(env, condition, body, next, n - 1)
      case _ => None
  }

  /** Pass number `n` is the first that does not go on, and it does not end the process. */
  ghost predicate EndsAt(env: Env, condition: string, body: seq<Assignment>, vars: Variables, n: nat) {
    var last := After(env, condition, body, vars, n);
    last.Some? && var p := OnePass(env, condition, body, last.value); p.Stop? || p.Fail?
  }

  lemma {:induction false} AfterStep(env: Env, condition: string, body: seq<Assignment>, vars: Variables, n: nat,
                                     next: Variables)
    requires After(env, condition, body, vars, n).Some?
    requires OnePass(env, condition, body, After(env, condition, body, vars, n).value) == Again(next)
    ensures After(env, condition, body, vars, n + 1) == Some(next)
    decreases n
  {
    if n > 0 {
      AfterStep(env, condition, body, OnePass(env, condition, body, vars).vars, n - 1, next);
    } else {
      assert After(env, condition, body, next, 0) == Some(next);
    }
  }

  /** A loop has at most one end. */
  lemma {:induction false} EndUnique(env: Env, condition: string, body: seq<Assignment>, vars: Variables,
                                     n: nat, m: nat)
    requires EndsAt(env, condition, body, vars, n) && After(env, condition, body, vars, m).Some?
    ensures m <= n
    decreases n
  {
    if m > 0 && n > 0 {
      EndUnique(env, condition, body, OnePass(env, condition, body, vars).vars, n - 1, m - 1);
    }
  }

  // ---- Errors and aborts ---------------------------------------------------------------

  /** The text is no expression, or its evaluation returns an error. */
  predicate Errs(env: Env, vars: Variables, text: string) {
    var e := ParseText(env.toDouble, text);
    e.None? || Eval(env.fp, Context(vars), e.value).Error?
  }

  /** Evaluating the text ends the process, or is undefined. */
  predicate Dies(env: Env, vars: Variables, text: string) {
    var e := ParseText(env.toDouble, text);
    e.Some? && (Eval(env.fp, Context(vars), e.value).Fatal? || Eval(env.fp, Context(vars), e.value).Undefined?)
  }

  lemma AssignedOutcome(env: Env, a: Assignment, vars: Variables)
    ensures Assigned(env, a, vars) == Broken <==> Errs(env, vars, a.text)
    ensures Assigned(env, a, vars) == Dead <==> Dies(env, vars, a.text)
  {
  }

  /** The actions before `k` succeed, and action `k` returns an error. */
  predicate ErrsAt(env: Env, body: seq<Assignment>, vars: Variables, k: nat) {
    k < |body| && var r := Round(env, body[..k], vars); r.Vars? && Errs(env, r.vars, body[k].text)
  }

  /** The actions before `k` succeed, and action `k` ends the process. */
  predicate DiesAt(env: Env, body: seq<Assignment>, vars: Variables, k: nat) {
    k < |body| && var r := Round(env, body[..k], vars); r.Vars? && Dies(env, r.vars, body[k].text)
  }

  lemma AtFirst(env: Env, body: seq<Assignment>, vars: Variables)
    requires body != []
    ensures ErrsAt(env, body, vars, 0) <==> Errs(env, vars, body[0].text)
    ensures DiesAt(env, body, vars, 0) <==> Dies(env, vars, body[0].text)
  {
    assert body[..0] == [];
  }

  lemma AtLater(env: Env, body: seq<Assignment>, vars: Variables, k: nat)
    requires 0 < k < |body|
    ensures var r := Assigned(env, body[0], vars);
            && (ErrsAt(env, body, vars, k) <==> r.Vars? && ErrsAt(env, body[1..], r.vars, k - 1))
            && (DiesAt(env, body, vars, k) <==> r.Vars? && DiesAt(env, body[1..], r.vars, k - 1))
  {
    hide Assigned, Errs, Dies;
    assert body[..k][0] == body[0] && body[..k][1..] == body[1..][..k - 1];
  }

  lemma BeyondTheEnd(env: Env, body: seq<Assignment>, vars: Variables, k: nat)
    requires k >= |body|
    ensures !ErrsAt(env, body, vars, k) && !DiesAt(env, body, vars, k)
  {
  }

  /** A round fails exactly if its first action that does not succeed returns an error, and ends the process
      exactly if that action does. */
  lemma {:induction false} RoundOutcome(env: Env, body: seq<Assignment>, vars: Variables)
    ensures Round(env, body, vars) == Broken <==> exists k :: ErrsAt(env, body, vars, k)
    ensures Round(env, body, vars) == Dead <==> exists k :: DiesAt(env, body, vars, k)
  {
    hide Assigned, Errs, Dies, ErrsAt, DiesAt;
    if body == [] {
      forall k: nat
        ensures !ErrsAt(env, body, vars, k) && !DiesAt(env, body, vars, k)
      {
        BeyondTheEnd(env, body, vars, k);
      }
    } else {
      AssignedOutcome(env, body[0], vars);
      AtFirst(env, body, vars);
      var r := Assigned(env, body[0], vars);
      if r.Vars? {
        RoundOutcome(env, body[1..], r.vars);
      }
      forall k: nat | 0 < k
        ensures ErrsAt(env, body, vars, k) <==> r.Vars? && ErrsAt(env, body[1..], r.vars, k - 1)
        ensures DiesAt(env, body, vars, k) <==> r.Vars? && DiesAt(env, body[1..], r.vars, k - 1)
      {
        if k < |body| {
          AtLater(env, body, vars, k);
        } else {
          BeyondTheEnd(env, body, vars, k);
          if r.Vars? {
            BeyondTheEnd(env, body[1..], r.vars, k - 1);
          }
        }
      }
      if k: nat :| r.Vars? && ErrsAt(env, body[1..], r.vars, k) {
        assert ErrsAt(env, body, vars, k + 1);
      }
      if k: nat :| r.Vars? && DiesAt(env, body[1..], r.vars, k) {
        assert DiesAt(env, body, vars, k + 1);
      }
    }
  }

  /** A pass ends the loop with an error, or the process, if its condition does, or if the condition holds
      and its round does. */
  lemma PassOutcome(env: Env, condition: string, body: seq<Assignment>, vars: Variables)
    ensures var p, v := OnePass(env, condition, body, vars), EvalText(env, vars, condition);
            && (p == Fail <==> Errs(env, vars, condition)
                               || (v.Got? && AsBool(env.fp, v.v) && Round(env, body, vars) == Broken))
            && (p == Die <==> Dies(env, vars, condition)
                              || (v.Got? && AsBool(env.fp, v.v) && Round(env, body, vars) == Dead))
            && (p == Stop <==> v.Got? && !AsBool(env.fp, v.v))
  {
    hide ParseText, Eval;
  }

  // ---- The objects -------------------------------------------------------------------

  class ExprContext {
    var variables: Variables

    constructor ()
      ensures variables == map[]
    {
      variables := map[];
    }

    method SetVar(name: string, val: Value)
      modifies this
      ensures variables == old(variables)[name := val]
    {
      variables := variables[name := val];
    }
  }

  class AssignAction {
    const env: Env
    const ctx: ExprContext
    const assignment: Assignment

    constructor (env: Env, ctx: ExprContext, assignment: Assignment)
      ensures this.env == env && this.ctx == ctx && this.assignment == assignment
    {
      this.env, this.ctx, this.assignment := env, ctx, assignment;
    }

    /** The variable gets the value of its text, whether it was set before or not, exactly when the text
        parses and evaluates; nothing else changes. */
    method DoRun() returns (rc: ResultCode)
      requires !EvalText(env, ctx.variables, assignment.text).Aborted?
      modifies ctx
      ensures rc == OK <==> Assigned(env, assignment, old(ctx.variables)).Vars?
      ensures ctx.variables == match Assigned(env, assignment, old(ctx.variables))
                               case Vars(vars) => vars
                               case _ => old(ctx.variables)
      ensures rc == OK ==>
                && assignment.name in ctx.variables
                && EvalText(env, old(ctx.variables), assignment.text) == Got(ctx.variables[assignment.name])
                && ctx.variables - {assignment.name} == old(ctx.variables) - {assignment.name}
      ensures rc != OK ==> EvalText(env, old(ctx.variables), assignment.text).Failed?
    {
      var v := EvalText(env, ctx.variables, assignment.text);
      if v.Failed? {
        return ERR_FAILED;
      }
      ctx.SetVar(assignment.name, v.v);
      return OK;
    }
  }

  function Assignments(actions: seq<AssignAction>): (r: seq<Assignment>)
    ensures |r| == |actions|
  {
    if actions == [] then [] else [actions[0].assignment] + Assignments(actions[1..])
  }

  lemma NoPassYet(env: Env, condition: string, body: seq<Assignment>, vars: Variables)
    ensures After(env, condition, body, vars, 0) == Some(vars)
  {
  }

  lemma PassCases(env: Env, condition: string, body: seq<Assignment>, vars: Variables)
    ensures match EvalText(env, vars, condition)
            case Failed => OnePass(env, condition, body, vars) == Fail
            case Aborted => OnePass(env, condition, body, vars) == Die
            case Got(v) =>
              if !AsBool(env.fp, v) then OnePass(env, condition, body, vars) == Stop
              else match Round(env, body, vars)
                case Vars(next) => OnePass(env, condition, body, vars) == Again(next)
                case Broken => OnePass(env, condition, body, vars) == Fail
                case Dead => OnePass(env, condition, body, vars) == Die
  {
  }

  /** Every pass before the last goes on. */
  lemma {:induction false} GoesOn(env: Env, condition: string, body: seq<Assignment>, vars: Variables, k: nat, n: nat)
    requires k < n && After(env, condition, body, vars, n).Some?
    ensures After(env, condition, body, vars, k).Some?
    ensures OnePass(env, condition, body, After(env, condition, body, vars, k).value).Again?
    decreases n
  {
    if k > 0 {
      GoesOn(env, condition, body, OnePass(env, condition, body, vars).vars, k - 1, n - 1);
    }
  }

  class LoopAction {
    const env: Env
    const ctx: ExprContext
    const condition: string
    const actions: seq<AssignAction>

    constructor (env: Env, ctx: ExprContext, condition: string, actions: seq<AssignAction>)
      ensures this.env == env && this.ctx == ctx && this.condition == condition && this.actions == actions
    {
      this.env, this.ctx, this.condition, this.actions := env, ctx, condition, actions;
    }

    ghost predicate Valid() {
      forall a :: a in actions ==> a.ctx == ctx && a.env == env
    }

    /** One round of the body, up to the first action that fails. */
    method RunRound() returns (rc: ResultCode)
      requires Valid() && !Round(env, Assignments(actions), ctx.variables).Dead?
      modifies ctx
      ensures var r := Round(env, Assignments(actions), old(ctx.variables));
              && (rc == OK <==> r.Vars?)
              && (r.Vars? ==> ctx.variables == r.vars)
    {
      assert actions[0..] == actions;
      for k := 0 to |actions|
        invariant Round(env, Assignments(actions), old(ctx.variables))
                  == Round(env, Assignments(actions[k..]), ctx.variables)
      {
        var rest := actions[k..];
        assert rest[1..] == actions[k + 1..] && Assignments(rest)[1..] == Assignments(rest[1..]);
        assert Assignments(rest)[0] == actions[k].assignment;
        var r := actions[k].DoRun();
        if r != OK {
          return r;
        }
      }
      return OK;
    }

    /** `doRun`: returns OK exactly when the condition comes to fail, after as many rounds as it held. */
    method DoRun(ghost rounds: nat) returns (rc: ResultCode, loopTimes: nat)
      requires Valid() && EndsAt(env, condition, Assignments(actions), ctx.variables, rounds)
      modifies ctx
      ensures loopTimes == rounds || (rc == ERR_FAILED && loopTimes == rounds + 1)
      ensures var body := Assignments(actions);
              var last := After(env, condition, body, old(ctx.variables), rounds).value;
              && (rc == OK <==> OnePass(env, condition, body, last).Stop?)
              && (rc == OK ==> loopTimes == rounds && ctx.variables == last)
    {
      hide EvalText, OnePass, After, Round;
      ghost var body := Assignments(actions);
      loopTimes := 0;
      NoPassYet(env, condition, body, ctx.variables);
      while true
        invariant loopTimes <= rounds
        invariant After(env, condition, body, old(ctx.variables), loopTimes) == Some(ctx.variables)
        decreases rounds - loopTimes
      {
        var val := EvalText(env, ctx.variables, condition);
        PassCases(env, condition, body, ctx.variables);
        if loopTimes < rounds {
          GoesOn(env, condition, body, old(ctx.variables), loopTimes, rounds);
        }
        if val.Failed? {
          return ERR_FAILED, loopTimes;
        }
        if !AsBool(env.fp, val.v) {
          break;
        }
        var rc' := RunRound();
        loopTimes := loopTimes + 1;
        if rc' != OK {
          return ERR_FAILED, loopTimes;
        }
        AfterStep(env, condition, body, old(ctx.variables), loopTimes - 1, ctx.variables);
        EndUnique(env, condition, body, old(ctx.variables), rounds, loopTimes);
      }
      return OK, loopTimes;
    }
  }

  // ---- The counting loop ---------------------------------------------------------------

  ghost predicate AlwaysSucceeds(env: Env, text: string) {
    forall vars: Variables :: EvalText(env, vars, text).Got?
  }

  /** `body[at]` counts `i` up; every other action always succeeds and leaves `i` alone. */
  ghost predicate Counting(env: Env, body: seq<Assignment>, at: nat, i: string) {
    && at < |body|
    && body[at].name == i
    && ParseText(env.toDouble, body[at].text) == Some(Arithmetic(Variable(i), ADD, Constant(IntValue(1))))
    && forall k :: 0 <= k < |body| && k != at ==> body[k].name != i && AlwaysSucceeds(env, body[k].text)
  }

  lemma {:induction false} QuietRound(env: Env, body: seq<Assignment>, i: string, vars: Variables)
    requires i in vars
    requires forall k :: 0 <= k < |body| ==> body[k].name != i && AlwaysSucceeds(env, body[k].text)
    ensures var r := Round(env, body, vars); r.Vars? && i in r.vars && r.vars[i] == vars[i]
  {
    hide EvalText;
    if body != [] {
      assert EvalText(env, vars, body[0].text).Got?;
      QuietRound(env, body[1..], i, Assigned(env, body[0], vars).vars);
    }
  }

  lemma CounterValue(fp: DoubleOps, vars: Variables, i: string, c: int)
    requires i in vars && vars[i] == IntValue(c) && InInt64(c) && c < MAX_INT
    ensures Eval(fp, Context(vars), Arithmetic(Variable(i), ADD, Constant(IntValue(1)))) == Ok(IntValue(c + 1))
  {
    AddExact(c, 1);
    assert Eval(fp, Context(vars), Variable(i)) == Ok(IntValue(c));
    assert Eval(fp, Context(vars), Constant(IntValue(1))) == Ok(IntValue(1));
  }

  lemma LimitValue(fp: DoubleOps, vars: Variables, i: string, c: int, limit: int)
    requires i in vars && vars[i] == IntValue(c)
    ensures Eval(fp, Context(vars), Relational(Variable(i), LT, Constant(IntValue(limit)))) == Ok(BoolValue(c < limit))
  {
    assert Eval(fp, Context(vars), Variable(i)) == Ok(IntValue(c));
    assert Eval(fp, Context(vars), Constant(IntValue(limit))) == Ok(IntValue(limit));
  }

  lemma {:induction false} CountingRound(env: Env, body: seq<Assignment>, at: nat, i: string, vars: Variables, c: int)
    requires Counting(env, body, at, i) && i in vars && vars[i] == IntValue(c)
    requires InInt64(c) && c < MAX_INT
    ensures var r := Round(env, body, vars); r.Vars? && i in r.vars && r.vars[i] == IntValue(c + 1)
    decreases |body|
  {
    hide ParseText, Eval;
    if at == 0 {
      CounterValue(env.fp, vars, i, c);
      assert EvalText(env, vars, body[0].text) == Got(IntValue(c + 1));
      QuietRound(env, body[1..], i, Assigned(env, body[0], vars).vars);
    } else {
      assert EvalText(env, vars, body[0].text).Got?;
      assert Counting(env, body[1..], at - 1, i);
      CountingRound(env, body[1..], at - 1, i, Assigned(env, body[0], vars).vars, c);
    }
  }

  lemma CountingPass(env: Env, condition: string, body: seq<Assignment>, at: nat, i: string,
                     vars: Variables, c: int, limit: int)
    requires Counting(env, body, at, i) && i in vars && vars[i] == IntValue(c)
    requires InInt64(c) && InInt64(limit)
    requires ParseText(env.toDouble, condition) == Some(Relational(Variable(i), LT, Constant(IntValue(limit))))
    ensures var p := OnePass(env, condition, body, vars);
            if c < limit then p.Again? && i in p.vars && p.vars[i] == IntValue(c + 1) else p.Stop?
  {
    hide ParseText, Eval, Round;
    LimitValue(env.fp, vars, i, c, limit);
    assert EvalText(env, vars, condition) == Got(BoolValue(c < limit));
    if c < limit {
      CountingRound(env, body, at, i, vars, c);
    }
  }

  function Max(a: int, b: int): int {
    if a < b then b else a
  }

  /** A loop on `$i < N` whose body counts i up runs exactly max(0, N - i0) rounds and ends with
      i = max(i0, N); no check of the evaluator ever strikes on the way. */
  lemma {:induction false} CountingLoop(env: Env, condition: string, body: seq<Assignment>, at: nat, i: string,
                                        vars: Variables, c: int, limit: int)
    requires Counting(env, body, at, i) && i in vars && vars[i] == IntValue(c)
    requires InInt64(c) && InInt64(limit)
    requires ParseText(env.toDouble, condition) == Some(Relational(Variable(i), LT, Constant(IntValue(limit))))
    ensures var rounds := Max(0, limit - c);
            var last := After(env, condition, body, vars, rounds);
            && EndsAt(env, condition, body, vars, rounds)
            && OnePass(env, condition, body, last.value).Stop?
            && i in last.value && last.value[i] == IntValue(Max(c, limit))
    decreases Max(0, limit - c)
  {
    hide ParseText, OnePass, Counting;
    CountingPass(env, condition, body, at, i, vars, c, limit);
    if c < limit {
      CountingLoop(env, condition, body, at, i, OnePass(env, condition, body, vars).vars, c + 1, limit);
    }
  }

  lemma ConditionReads(i: string, limit: int)
    requires Scanner.IsName(i) && 0 <= limit <= MAX_INT
    ensures var condition := Relational(Variable(i), LT, Constant(IntValue(limit)));
            Producible(condition) && NoDouble(condition) && Readable(condition)
  {
    var x, k := Variable(i), Constant(IntValue(limit));
    assert Producible(x) && Readable(x) && Producible(k) && Readable(k) && NoDouble(k);
  }

  lemma IncrementReads(i: string)
    requires Scanner.IsName(i)
    ensures var increment := Arithmetic(Variable(i), ADD, Constant(IntValue(1)));
            Producible(increment) && NoDouble(increment) && Readable(increment)
  {
    var x, one := Variable(i), Constant(IntValue(1));
    assert Producible(x) && Readable(x) && Producible(one) && Readable(one) && NoDouble(one);
  }

  /** Texts for such a loop exist for every variable name and every limit from 0 on: the two expressions
      as they are written, with blanks and without parentheses, and as they are printed. */
  lemma CountingTexts(env: Env, showDouble: Double -> string, i: string, limit: int)
    requires Scanner.IsName(i) && 0 <= limit <= MAX_INT
    ensures var condition := Relational(Variable(i), LT, Constant(IntValue(limit)));
            && ParseText(env.toDouble, WrittenText(i, '<', limit)) == Some(condition)
            && ParseText(env.toDouble, Text(showDouble, condition)) == Some(condition)
    ensures var increment := Arithmetic(Variable(i), ADD, Constant(IntValue(1)));
            && ParseText(env.toDouble, WrittenText(i, '+', 1)) == Some(increment)
            && ParseText(env.toDouble, Text(showDouble, increment)) == Some(increment)
  {
    hide ParseText, Text, WrittenText, Producible, NoDouble, Readable;
    ConditionReads(i, limit);
    IncrementReads(i);
    WrittenParses(env.toDouble, i, '<', limit);
    WrittenParses(env.toDouble, i, '+', 1);
    PrintParse(env.toDouble, showDouble, Relational(Variable(i), LT, Constant(IntValue(limit))));
    PrintParse(env.toDouble, showDouble, Arithmetic(Variable(i), ADD, Constant(IntValue(1))));
  }
}
