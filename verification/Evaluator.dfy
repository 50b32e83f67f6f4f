/** Evaluation in int64 with run-time checks, and what it refines. */
module Evaluator {
  import opened Expressions
  import opened Overflow

  // ---- The evaluator of the repository ---------------------------------------

  function Checked(t: Test, exact: int): Result {
    match t
    case Trap => Undefined
    case Answer(overflow) =>
      if overflow then Fatal
      else if InInt64(exact) then Ok(IntValue(exact))
      else Undefined
  }

  /** Integer operations as the code performs them.  A zero divisor is found through `abs`, which is
      undefined for the least integer. */
  function MachineInt(op: ArithmeticOp, l: int, r: int): Result {
    match op
    case ADD => Checked(IsAddOverflow(l, r), l + r)
    case SUB => Checked(IsSubOverflow(l, r), l - r)
    case MUL => Checked(IsMulOverflow(l, r), l * r)
    case DIV =>
      if r == MIN_INT then Undefined
      else if r == 0 then Fatal
      else if l == MIN_INT && r == -1 then Undefined
      else Ok(IntValue(Quotient(l, r)))
    case MOD =>
      if r == MIN_INT then Undefined
      else if r == 0 then Fatal
      else if l == MIN_INT && r == -1 then Undefined
      else Ok(IntValue(Remainder(l, r)))
  }

  /** Everything about an arithmetic operator but its effect on two integers. */
  function Dispatch(fp: DoubleOps, op: ArithmeticOp, l: Value, r: Value, ints: Result): Result {
    if IsArithmetic(l) && IsArithmetic(r) then
      if l.IntValue? && r.IntValue? then ints
      else if (op == DIV || op == MOD) && fp.nearZero(AsDouble(fp, r)) then Fatal
      else Ok(DoubleValue(fp.arithmetic(op, AsDouble(fp, l), AsDouble(fp, r))))
    else if op == ADD && l.StringValue? && r.StringValue? then Ok(StringValue(l.s + r.s))
    else Error(ERR_UNKNOWN_OP)
  }

  function MachineUnary(fp: DoubleOps, op: UnaryOp, v: Value): Result {
    match op
    case PLUS => Ok(v)
    case NEGATE =>
      if v.IntValue? then (if v.i == MIN_INT then Undefined else Ok(IntValue(-v.i)))
      else if v.DoubleValue? then Ok(DoubleValue(fp.negate(v.d)))
      else Error(ERR_UNKNOWN_OP)
    case NOT => Ok(BoolValue(!AsBool(fp, v)))
  }

  function Eval(fp: DoubleOps, ctx: Context, e: Expr): (r: Result) {
    match e
    case Constant(v) => Ok(v)
    case Variable(name) => GetVar(ctx, name)
    case Unary(op, x) =>
      var v := Eval(fp, ctx, x);
      if !v.Ok? then v else MachineUnary(fp, op, v.v)
    case Arithmetic(x, op, y) =>
      var l := Eval(fp, ctx, x);
      if !l.Ok? then l else
      var r := Eval(fp, ctx, y);
      if !r.Ok? then r else
      Dispatch(fp, op, l.v, r.v, if l.v.IntValue? && r.v.IntValue? then MachineInt(op, l.v.i, r.v.i) else Undefined)
    case Relational(x, op, y) =>
      var l := Eval(fp, ctx, x);
      if !l.Ok? then l else
      var r := Eval(fp, ctx, y);
      if !r.Ok? then r else Ok(BoolValue(Compare(fp, op, l.v, r.v)))
    case Logical(x, op, y) =>
      var l := Eval(fp, ctx, x);
      if !l.Ok? then l else
      var r := Eval(fp, ctx, y);
      if !r.Ok? then r else Ok(BoolValue(Connect(op, AsBool(fp, l.v), AsBool(fp, r.v))))
  }

  // ---- The meaning: unbounded integers ------------------------------------------

  function IdealInt(op: ArithmeticOp, l: int, r: int): Result {
    match op
    case ADD => Ok(IntValue(l + r))
    case SUB => Ok(IntValue(l - r))
    case MUL => Ok(IntValue(l * r))
    case DIV => if r == 0 then Fatal else Ok(IntValue(Quotient(l, r)))
    case MOD => if r == 0 then Fatal else Ok(IntValue(Remainder(l, r)))
  }

  function IdealUnary(fp: DoubleOps, op: UnaryOp, v: Value): Result {
    if op == NEGATE && v.IntValue? then Ok(IntValue(-v.i)) else MachineUnary(fp, op, v)
  }

  function Ideal(fp: DoubleOps, ctx: Context, e: Expr): (r: Result) {
    match e
    case Constant(v) => Ok(v)
    case Variable(name) => GetVar(ctx, name)
    case Unary(op, x) =>
      var v := Ideal(fp, ctx, x);
      if !v.Ok? then v else IdealUnary(fp, op, v.v)
    case Arithmetic(x, op, y) =>
      var l := Ideal(fp, ctx, x);
      if !l.Ok? then l else
      var r := Ideal(fp, ctx, y);
      if !r.Ok? then r else
      Dispatch(fp, op, l.v, r.v, if l.v.IntValue? && r.v.IntValue? then IdealInt(op, l.v.i, r.v.i) else Undefined)
    case Relational(x, op, y) =>
      var l := Ideal(fp, ctx, x);
      if !l.Ok? then l else
      var r := Ideal(fp, ctx, y);
      if !r.Ok? then r else Ok(BoolValue(Compare(fp, op, l.v, r.v)))
    case Logical(x, op, y) =>
      var l := Ideal(fp, ctx, x);
      if !l.Ok? then l else
      var r := Ideal(fp, ctx, y);
      if !r.Ok? then r else Ok(BoolValue(Connect(op, AsBool(fp, l.v), AsBool(fp, r.v))))
  }

  // ---- When the two agree ---------------------------------------------------------

  predicate Fits(v: Value) {
    v.IntValue? ==> InInt64(v.i)
  }

  predicate ConstantsFit(e: Expr) {
    match e
    case Constant(v) => Fits(v)
    case Variable(_) => true
    case Unary(_, x) => ConstantsFit(x)
    case Arithmetic(x, _, y) => ConstantsFit(x) && ConstantsFit(y)
    case Relational(x, _, y) => ConstantsFit(x) && ConstantsFit(y)
    case Logical(x, _, y) => ConstantsFit(x) && ConstantsFit(y)
  }

  predicate VariablesFit(ctx: Context) {
    ctx.Context? ==> forall name | name in ctx.variables :: Fits(ctx.variables[name])
  }

  /** The operands for which one integer operation is carried out correctly: the true result fits, and
      the operands are none of those on which a check of the code is itself undefined. */
  predicate SafeInt(op: ArithmeticOp, l: int, r: int) {
    match op
    case ADD => InInt64(l + r)
    case SUB => InInt64(l - r)
    case MUL => InInt64(l * r) && !(l == -1 && r > 0)
    case DIV => r != MIN_INT && !(l == MIN_INT && r == -1)
    case MOD => r != MIN_INT && !(l == MIN_INT && r == -1)
  }

  /** Every integer operation that unbounded evaluation meets is safe.  A right operand is only met
      when the left one has a value. */
  predicate Safe(fp: DoubleOps, ctx: Context, e: Expr) {
    match e
    case Constant(_) => true
    case Variable(_) => true
    case Unary(op, x) =>
      && Safe(fp, ctx, x)
      && var v := Ideal(fp, ctx, x);
         op == NEGATE && v.Ok? && v.v.IntValue? ==> v.v.i != MIN_INT
    case Arithmetic(x, op, y) =>
      && Safe(fp, ctx, x) && (Ideal(fp, ctx, x).Ok? ==> Safe(fp, ctx, y))
      && var l, r := Ideal(fp, ctx, x), Ideal(fp, ctx, y);
         l.Ok? && r.Ok? && l.v.IntValue? && r.v.IntValue? ==> SafeInt(op, l.v.i, r.v.i)
    case Relational(x, _, y) => Safe(fp, ctx, x) && (Ideal(fp, ctx, x).Ok? ==> Safe(fp, ctx, y))
    case Logical(x, _, y) => Safe(fp, ctx, x) && (Ideal(fp, ctx, x).Ok? ==> Safe(fp, ctx, y))
  }

  /** The evaluation comes back with a value or an error code. */
  predicate Returns(r: Result) {
    r.Ok? || r.Error?
  }

  /** One integer operation returns exactly on safe operands, and then the true result. */
  lemma MachineIntExact(op: ArithmeticOp, l: int, r: int)
    requires InInt64(l) && InInt64(r)
    ensures Returns(MachineInt(op, l, r)) <==> SafeInt(op, l, r) && Returns(IdealInt(op, l, r))
    ensures Returns(MachineInt(op, l, r)) ==> MachineInt(op, l, r) == IdealInt(op, l, r)
    ensures MachineInt(op, l, r).Ok? ==> Fits(MachineInt(op, l, r).v)
  {
    match op {
      case ADD => AddExact(l, r);
      case SUB => SubExact(l, r);
      case MUL => MulExact(l, r);
      case DIV =>
        if r != 0 {
          QuotientRange(l, r);
        }
      case MOD =>
        if r != 0 {
          RemainderRange(l, r);
        }
    }
  }

  /** Checked int64 evaluation refines evaluation in unbounded integers: it returns exactly when every
      integer operation on the way is safe and unbounded evaluation returns, and the results agree. */
  lemma {:induction false} EvalRefines(fp: DoubleOps, ctx: Context, e: Expr)
    requires ConstantsFit(e) && VariablesFit(ctx)
    ensures var r := Eval(fp, ctx, e);
            && (Returns(r) <==> Safe(fp, ctx, e) && Returns(Ideal(fp, ctx, e)))
            && (Returns(r) ==> r == Ideal(fp, ctx, e))
            && (r.Ok? ==> Fits(r.v))
  {
    match e {
      case Constant(_) =>
      case Variable(_) =>
      case Unary(_, x) => EvalRefines(fp, ctx, x);
      case Arithmetic(x, op, y) =>
        EvalRefines(fp, ctx, x);
        EvalRefines(fp, ctx, y);
        var l, r := Eval(fp, ctx, x), Eval(fp, ctx, y);
        if l.Ok? && r.Ok? && l.v.IntValue? && r.v.IntValue? {
          MachineIntExact(op, l.v.i, r.v.i);
        }
      case Relational(x, _, y) =>
        EvalRefines(fp, ctx, x);
        EvalRefines(fp, ctx, y);
      case Logical(x, _, y) =>
        EvalRefines(fp, ctx, x);
        EvalRefines(fp, ctx, y);
    }
  }

  /** What the checks do on operands that are not safe: an overflowing sum or product is always
      caught; a difference is caught unless the right operand is the least integer; the remaining
      cases are undefined. */
  lemma UnsafeInt(op: ArithmeticOp, l: int, r: int)
    requires InInt64(l) && InInt64(r) && !SafeInt(op, l, r)
    ensures op == ADD ==> MachineInt(op, l, r) == Fatal
    ensures op == SUB ==> MachineInt(op, l, r) == if r == MIN_INT then Undefined else Fatal
    ensures op == MUL ==> MachineInt(op, l, r) == if l == -1 && r > 0 then Undefined else Fatal
    ensures op == DIV || op == MOD ==> MachineInt(op, l, r) == Undefined
  {
    match op {
      case ADD => AddExact(l, r);
      case SUB => SubExact(l, r);
      case MUL => MulExact(l, r);
      case _ =>
    }
  }
}
