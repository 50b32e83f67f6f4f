/** Expression trees, values, and the context that holds the variables. */
module Expressions {

  const MAX_INT: int := 0x7FFF_FFFF_FFFF_FFFF
  const MIN_INT: int := -0x8000_0000_0000_0000

  predicate InInt64(k: int) {
    MIN_INT <= k <= MAX_INT
  }

  /** A double is only a bit pattern here; what is done with it is given by `DoubleOps`. */
  datatype Double = Double(bits: bv64)

  datatype Value = IntValue(i: int) | DoubleValue(d: Double) | BoolValue(b: bool) | StringValue(s: string)

  datatype ErrorCode = ERR_NULL | ERR_UNKNOWN_TYPE | ERR_UNKNOWN_OP | ERR_UNSUPPORTED_OP | ERR_BAD_PARAMS

  datatype UnaryOp = PLUS | NEGATE | NOT

  datatype ArithmeticOp = ADD | SUB | MUL | DIV | MOD

  datatype RelationalOp = LT | LE | GT | GE | EQ | NE

  datatype LogicalOp = AND | OR | XOR

  datatype Expr =
    | Constant(value: Value)
    | Variable(name: string)
    | Unary(uop: UnaryOp, operand: Expr)
    | Arithmetic(left: Expr, aop: ArithmeticOp, right: Expr)
    | Relational(left: Expr, rop: RelationalOp, right: Expr)
    | Logical(left: Expr, lop: LogicalOp, right: Expr)

  /** The operations on doubles; nothing is assumed about them. */
  datatype DoubleOps = DoubleOps(
    ofInt: int -> Double,
    negate: Double -> Double,
    nonZero: Double -> bool,
    nearZero: Double -> bool,
    arithmetic: (ArithmeticOp, Double, Double) -> Double,
    less: (Double, Double) -> bool,
    almostEqual: (Double, Double) -> bool)

  /** The variables; `NoContext` is a null pointer. */
  datatype Context = NoContext | Context(variables: map<string, Value>)

  /** `Fatal`: the evaluator aborts the process on purpose.  `Undefined`: the evaluation performs an
      operation whose result C++ leaves undefined. */
  datatype Result = Ok(v: Value) | Error(code: ErrorCode) | Fatal | Undefined

  function GetVar(ctx: Context, name: string): (v: Result)
  {
    match ctx
    case NoContext => Error(ERR_BAD_PARAMS)
    case Context(variables) => if name in variables then Ok(variables[name]) else Error(ERR_NULL)
  }

  predicate IsArithmetic(v: Value) {
    v.IntValue? || v.DoubleValue?
  }

  function AsDouble(fp: DoubleOps, v: Value): Double
    requires IsArithmetic(v)
  {
    if v.IntValue? then fp.ofInt(v.i) else v.d
  }

  /** Note the string case: an empty string counts as true. */
  predicate AsBool(fp: DoubleOps, v: Value) {
    match v
    case IntValue(i) => i != 0
    case DoubleValue(d) => fp.nonZero(d)
    case BoolValue(b) => b
    case StringValue(s) => s == ""
  }

  predicate StringLess(s: string, t: string) {
    if t == "" then false
    else if s == "" then true
    else s[0] < t[0] || (s[0] == t[0] && StringLess(s[1..], t[1..]))
  }

  function Kind(v: Value): nat {
    match v
    case IntValue(_) => 0
    case DoubleValue(_) => 1
    case BoolValue(_) => 2
    case StringValue(_) => 3
  }

  /** The order of a variant: first by type, then by content. */
  predicate ValueLess(fp: DoubleOps, l: Value, r: Value) {
    if Kind(l) != Kind(r) then Kind(l) < Kind(r)
    else match l
      case IntValue(i) => i < r.i
      case DoubleValue(d) => fp.less(d, r.d)
      case BoolValue(b) => !b && r.b
      case StringValue(s) => StringLess(s, r.s)
  }

  function Compare(fp: DoubleOps, op: RelationalOp, l: Value, r: Value): bool {
    var fuzzy := IsArithmetic(l) && IsArithmetic(r) && (l.DoubleValue? || r.DoubleValue?);
    match op
    case LT => ValueLess(fp, l, r)
    case LE => !ValueLess(fp, r, l)
    case GT => ValueLess(fp, r, l)
    case GE => !ValueLess(fp, l, r)
    case EQ => if fuzzy then fp.almostEqual(AsDouble(fp, l), AsDouble(fp, r)) else l == r
    case NE => if fuzzy then !fp.almostEqual(AsDouble(fp, l), AsDouble(fp, r)) else l != r
  }

  function Connect(op: LogicalOp, l: bool, r: bool): (b: bool)
    ensures op == AND ==> (b <==> l && r)
    ensures op == OR ==> (b <==> l || r)
    ensures op == XOR ==> (b <==> !(l <==> r))
  {
    match op
    case AND => if !l then false else r
    case OR => if l then true else r
    case XOR => l != r
  }

  // ---- The six comparisons are one order ---------------------------------------------

  lemma {:induction false} StringOrder(s: string, t: string)
    ensures StringLess(s, t) ==> !StringLess(t, s) && s != t
    ensures StringLess(s, t) || StringLess(t, s) || s == t
    decreases |s|
  {
    if s != "" && t != "" {
      StringOrder(s[1..], t[1..]);
      assert s == [s[0]] + s[1..] && t == [t[0]] + t[1..];
    }
  }

  /** Of two values, outside the tolerant comparison of doubles, exactly one of <, ==, > holds, and
      <=, >=, != are the negations of >, <, ==. */
  lemma CompareTrichotomy(fp: DoubleOps, l: Value, r: Value)
    requires !(IsArithmetic(l) && IsArithmetic(r) && (l.DoubleValue? || r.DoubleValue?))
    ensures Compare(fp, LT, l, r) ==> !Compare(fp, EQ, l, r) && !Compare(fp, GT, l, r)
    ensures Compare(fp, GT, l, r) ==> !Compare(fp, EQ, l, r)
    ensures Compare(fp, LT, l, r) || Compare(fp, EQ, l, r) || Compare(fp, GT, l, r)
    ensures Compare(fp, LE, l, r) <==> Compare(fp, LT, l, r) || Compare(fp, EQ, l, r)
    ensures Compare(fp, GE, l, r) <==> Compare(fp, GT, l, r) || Compare(fp, EQ, l, r)
    ensures Compare(fp, NE, l, r) <==> !Compare(fp, EQ, l, r)
    ensures l.IntValue? && r.IntValue? ==> (Compare(fp, LT, l, r) <==> l.i < r.i)
  {
    if l.StringValue? && r.StringValue? {
      StringOrder(l.s, r.s);
      StringOrder(r.s, l.s);
    }
  }
}
