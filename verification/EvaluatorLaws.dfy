/** What the operators of the expression language mean, said of the evaluator as a whole. */
module EvaluatorLaws {
  import opened Expressions
  import opened Evaluator

  // ---- Truth --------------------------------------------------------------------------------

  const TRUE := Constant(BoolValue(true))

  const FALSE := Constant(BoolValue(false))

  /** NOT flips what an exclusive or with true flips. */
  lemma NotIsXor(fp: DoubleOps, ctx: Context, x: Expr)
    ensures Eval(fp, ctx, Unary(NOT, x)) == Eval(fp, ctx, Logical(x, XOR, TRUE))
    ensures Eval(fp, ctx, Unary(NOT, Unary(NOT, x))) == Eval(fp, ctx, Logical(x, XOR, FALSE))
    ensures Eval(fp, ctx, Unary(NOT, TRUE)) == Ok(BoolValue(false))
  {
    assert Eval(fp, ctx, TRUE) == Ok(BoolValue(true)) && Eval(fp, ctx, FALSE) == Ok(BoolValue(false));
    var n := Unary(NOT, x);
    assert Eval(fp, ctx, Unary(NOT, n)) ==
           var v := Eval(fp, ctx, n); if !v.Ok? then v else MachineUnary(fp, NOT, v.v);
  }

  /** NOT gives the opposite truth value, and passes on what is no value. */
  lemma NotValue(fp: DoubleOps, ctx: Context, x: Expr)
    ensures var r, v := Eval(fp, ctx, Unary(NOT, x)), Eval(fp, ctx, x);
            if v.Ok? then r.Ok? && r.v.BoolValue? && (AsBool(fp, r.v) <==> !AsBool(fp, v.v)) else r == v
  {
  }

  /** De Morgan's laws, errors and aborts included: neither connective stops early. */
  lemma DeMorgan(fp: DoubleOps, ctx: Context, x: Expr, y: Expr)
    ensures Eval(fp, ctx, Unary(NOT, Logical(x, AND, y))) == Eval(fp, ctx, Logical(Unary(NOT, x), OR, Unary(NOT, y)))
    ensures Eval(fp, ctx, Unary(NOT, Logical(x, OR, y))) == Eval(fp, ctx, Logical(Unary(NOT, x), AND, Unary(NOT, y)))
  {
    NotValue(fp, ctx, x);
    NotValue(fp, ctx, y);
    NotValue(fp, ctx, Logical(x, AND, y));
    NotValue(fp, ctx, Logical(x, OR, y));
  }

  /** What counts as true: every integer but 0, every string that is empty, and what the conversions of
      doubles and the boolean itself say. */
  lemma TruthTable(fp: DoubleOps, ctx: Context, x: Expr)
    requires Eval(fp, ctx, x).Ok?
    ensures var v, t := Eval(fp, ctx, x).v, Eval(fp, ctx, Logical(x, AND, TRUE));
            && (v.IntValue? ==> t == Ok(BoolValue(v.i < 0 || v.i > 0)))
            && (v.BoolValue? ==> t == Ok(v))
            && (v.DoubleValue? ==> t == Ok(BoolValue(fp.nonZero(v.d))))
            && (v.StringValue? ==> t == Ok(BoolValue(|v.s| == 0)))
  {
    assert Eval(fp, ctx, TRUE) == Ok(BoolValue(true));
  }

  // ---- Signs --------------------------------------------------------------------------------

  /** A plus sign changes nothing, whatever the type; a minus sign is a difference from 0 on integers. */
  lemma SignLaws(fp: DoubleOps, ctx: Context, x: Expr)
    ensures Eval(fp, ctx, Unary(PLUS, x)) == Eval(fp, ctx, x)
    ensures var v, r := Eval(fp, ctx, x), Eval(fp, ctx, Unary(NEGATE, x));
            && (!v.Ok? ==> r == v)
            && (v.Ok? && v.v.IntValue? && InInt64(-v.v.i) ==> r.Ok? && r.v.IntValue? && r.v.i + v.v.i == 0)
            && (v.Ok? && v.v.IntValue? && v.v.i == MIN_INT ==> r == Undefined)
            && (v.Ok? && v.v.DoubleValue? ==> r == Ok(DoubleValue(fp.negate(v.v.d))))
            && (v.Ok? && (v.v.BoolValue? || v.v.StringValue?) ==> r == Error(ERR_UNKNOWN_OP))
  {
  }

  // ---- Arithmetic beside the integers -------------------------------------------------------

  /** Two strings are joined by a sum, left before right; no other operator and no mixture of types with
      a string or a boolean is known. */
  lemma StringLaws(fp: DoubleOps, ctx: Context, x: Expr, op: ArithmeticOp, y: Expr)
    requires Eval(fp, ctx, x).Ok? && Eval(fp, ctx, y).Ok?
    requires var l, r := Eval(fp, ctx, x).v, Eval(fp, ctx, y).v;
             l.StringValue? || r.StringValue? || l.BoolValue? || r.BoolValue?
    ensures var l, r, sum := Eval(fp, ctx, x).v, Eval(fp, ctx, y).v, Eval(fp, ctx, Arithmetic(x, op, y));
            if op == ADD && l.StringValue? && r.StringValue? then
              && sum.Ok? && sum.v.StringValue? && |sum.v.s| == |l.s| + |r.s|
              && l.s <= sum.v.s && r.s == sum.v.s[|l.s|..]
            else sum == Error(ERR_UNKNOWN_OP)
  {
  }

  /** As soon as one operand is a double, both are, in their order; a divisor near zero ends the process. */
  lemma DoubleLaws(fp: DoubleOps, ctx: Context, x: Expr, op: ArithmeticOp, y: Expr, l: Double, r: Double)
    requires Eval(fp, ctx, x).Ok? && Eval(fp, ctx, y).Ok?
    requires var a, b := Eval(fp, ctx, x).v, Eval(fp, ctx, y).v;
             && (a.DoubleValue? || b.DoubleValue?)
             && (a == DoubleValue(l) || (a.IntValue? && fp.ofInt(a.i) == l))
             && (b == DoubleValue(r) || (b.IntValue? && fp.ofInt(b.i) == r))
    ensures op == ADD || op == SUB || op == MUL ==>
              Eval(fp, ctx, Arithmetic(x, op, y)) == Ok(DoubleValue(fp.arithmetic(op, l, r)))
    ensures op == DIV || op == MOD ==>
              Eval(fp, ctx, Arithmetic(x, op, y))
              == if fp.nearZero(r) then Fatal else Ok(DoubleValue(fp.arithmetic(op, l, r)))
  {
  }

  // ---- Comparisons --------------------------------------------------------------------------

  predicate Yes(r: Result) {
    r == Ok(BoolValue(true))
  }

  predicate No(r: Result) {
    r == Ok(BoolValue(false))
  }

  /** The comparisons in pairs, on values of any two types, doubles included. */
  lemma ComparisonPairs(fp: DoubleOps, ctx: Context, x: Expr, y: Expr)
    requires Eval(fp, ctx, x).Ok? && Eval(fp, ctx, y).Ok?
    ensures Eval(fp, ctx, Relational(x, GT, y)) == Eval(fp, ctx, Relational(y, LT, x))
    ensures Eval(fp, ctx, Relational(x, GE, y)) == Eval(fp, ctx, Unary(NOT, Relational(x, LT, y)))
    ensures Eval(fp, ctx, Relational(x, LE, y)) == Eval(fp, ctx, Unary(NOT, Relational(y, LT, x)))
    ensures Eval(fp, ctx, Relational(x, NE, y)) == Eval(fp, ctx, Unary(NOT, Relational(x, EQ, y)))
  {
    NotValue(fp, ctx, Relational(x, LT, y));
    NotValue(fp, ctx, Relational(y, LT, x));
    NotValue(fp, ctx, Relational(x, EQ, y));
  }

  /** Values of different types are ordered by their types alone, and equal only if they are numbers that
      almost coincide. */
  lemma TypeOrder(fp: DoubleOps, ctx: Context, x: Expr, y: Expr)
    requires Eval(fp, ctx, x).Ok? && Eval(fp, ctx, y).Ok?
    ensures var l, r, less := Eval(fp, ctx, x).v, Eval(fp, ctx, y).v, Eval(fp, ctx, Relational(x, LT, y));
            && (l.IntValue? && !r.IntValue? ==> Yes(less))
            && (l.DoubleValue? && (r.BoolValue? || r.StringValue?) ==> Yes(less))
            && (l.BoolValue? && r.StringValue? ==> Yes(less))
            && (r.IntValue? && !l.IntValue? ==> No(less))
            && (r.DoubleValue? && (l.BoolValue? || l.StringValue?) ==> No(less))
            && (r.BoolValue? && l.StringValue? ==> No(less))
    ensures var l, r, same := Eval(fp, ctx, x).v, Eval(fp, ctx, y).v, Eval(fp, ctx, Relational(x, EQ, y));
            && (l.IntValue? && r.DoubleValue? ==> same == Ok(BoolValue(fp.almostEqual(fp.ofInt(l.i), r.d))))
            && (l.DoubleValue? && r.IntValue? ==> same == Ok(BoolValue(fp.almostEqual(l.d, fp.ofInt(r.i)))))
            && (l.DoubleValue? && r.DoubleValue? ==> same == Ok(BoolValue(fp.almostEqual(l.d, r.d))))
            && (l.BoolValue? != r.BoolValue? || l.StringValue? != r.StringValue? ==> No(same))
  {
  }

  /** Position `k` decides: up to it the strings agree, and there the first is over or has the smaller
      character. */
  predicate DecidedAt(s: string, t: string, k: nat) {
    && k <= |s| && k < |t| && s[..k] == t[..k]
    && (k == |s| || s[k] < t[k])
  }

  lemma DecidedLater(s: string, t: string, k: nat)
    requires DecidedAt(s, t, k) && k > 0
    ensures s != "" && t != "" && s[0] == t[0] && DecidedAt(s[1..], t[1..], k - 1)
  {
    assert s[..k][0] == t[..k][0];
    assert s[1..][..k - 1] == s[..k][1..] && t[1..][..k - 1] == t[..k][1..];
  }

  lemma {:induction false} FirstDifference(s: string, t: string)
    ensures StringLess(s, t) <==> exists k :: DecidedAt(s, t, k)
  {
    if k: nat :| DecidedAt(s, t, k) && k > 0 {
      DecidedLater(s, t, k);
    }
    if s != "" && t != "" && s[0] == t[0] {
      FirstDifference(s[1..], t[1..]);
      if k: nat :| DecidedAt(s[1..], t[1..], k) {
        assert s[..k + 1] == [s[0]] + s[1..][..k] && t[..k + 1] == [t[0]] + t[1..][..k];
        assert DecidedAt(s, t, k + 1);
      }
    } else if StringLess(s, t) {
      assert DecidedAt(s, t, 0);
    }
  }

  /** Values of one type: integers by size, doubles as they compare, false before true, strings by their
      first difference; equality is that of the value, and tolerant on doubles. */
  lemma ContentOrder(fp: DoubleOps, ctx: Context, x: Expr, y: Expr)
    requires Eval(fp, ctx, x).Ok? && Eval(fp, ctx, y).Ok?
    ensures var l, r, less := Eval(fp, ctx, x).v, Eval(fp, ctx, y).v, Eval(fp, ctx, Relational(x, LT, y));
            && (l.IntValue? && r.IntValue? ==> less == Ok(BoolValue(l.i < r.i)))
            && (l.DoubleValue? && r.DoubleValue? ==> less == Ok(BoolValue(fp.less(l.d, r.d))))
            && (l.BoolValue? && r.BoolValue? ==> less == Ok(BoolValue(r.b && !l.b)))
            && (l.StringValue? && r.StringValue? ==> (Yes(less) <==> exists k :: DecidedAt(l.s, r.s, k)))
    ensures var l, r, same := Eval(fp, ctx, x).v, Eval(fp, ctx, y).v, Eval(fp, ctx, Relational(x, EQ, y));
            && (l.IntValue? && r.IntValue? ==> same == Ok(BoolValue(l.i == r.i)))
            && (l.BoolValue? && r.BoolValue? ==> same == Ok(BoolValue(l.b == r.b)))
            && (l.StringValue? && r.StringValue? ==> same == Ok(BoolValue(l.s == r.s)))
  {
    var l, r := Eval(fp, ctx, x).v, Eval(fp, ctx, y).v;
    if l.StringValue? && r.StringValue? {
      FirstDifference(l.s, r.s);
    }
  }

  // ---- Variables and errors -----------------------------------------------------------------

  /** A variable has the value that was last given to it; without a context, or before it has one, it is an
      error. */
  lemma VariableLaws(fp: DoubleOps, variables: map<string, Value>, name: string, other: string, v: Value)
    ensures Eval(fp, Context(variables[name := v]), Variable(name)) == Ok(v)
    ensures other != name ==>
              Eval(fp, Context(variables[name := v]), Variable(other)) == Eval(fp, Context(variables), Variable(other))
    ensures name !in variables ==> Eval(fp, Context(variables), Variable(name)) == Error(ERR_NULL)
    ensures Eval(fp, NoContext, Variable(name)) == Error(ERR_BAD_PARAMS)
  {
  }

  /** Operands are taken from left to right, and the first that has no value decides; even AND and OR
      look at both. */
  lemma ErrorsPassOn(fp: DoubleOps, ctx: Context, x: Expr, a: ArithmeticOp, r: RelationalOp, l: LogicalOp, y: Expr)
    ensures var first := if Eval(fp, ctx, x).Ok? then Eval(fp, ctx, y) else Eval(fp, ctx, x);
            !first.Ok? ==> && Eval(fp, ctx, Arithmetic(x, a, y)) == first
                           && Eval(fp, ctx, Relational(x, r, y)) == first
                           && Eval(fp, ctx, Logical(x, l, y)) == first
  {
  }
}
