/** The textual form of an expression. */
module Printer {
  import opened Expressions
  import opened Literals

  // ---- From an expression to a text ---------------------------------------------

  function Digit(d: nat): char
    requires d < 10
  {
    (d + '0' as int) as char
  }

  function Decimal(n: nat): (s: string)
    ensures s != "" && AllDigits(10, s)
    ensures s[0] == '0' ==> n == 0 && |s| == 1
  {
    if n < 10 then [Digit(n)] else Decimal(n / 10) + [Digit(n % 10)]
  }

  function ArithmeticText(op: ArithmeticOp): string {
    match op case ADD => "+" case SUB => "-" case MUL => "*" case DIV => "/" case MOD => "%"
  }

  function RelationalText(op: RelationalOp): string {
    match op case LT => "<" case LE => "<=" case GT => ">" case GE => ">=" case EQ => "==" case NE => "!="
  }

  function LogicalText(op: LogicalOp): string {
    match op case AND => "&&" case OR => "||" case XOR => "^"
  }

  function ConstantText(showDouble: Double -> string, v: Value): string {
    match v
    case IntValue(i) => if i < 0 then "-" + Decimal(-i) else Decimal(i)
    case DoubleValue(d) => showDouble(d)
    case BoolValue(b) => if b then "true" else "false"
    case StringValue(s) => s
  }

  function UnaryText(op: UnaryOp): string {
    match op case PLUS => "+" case NEGATE => "-" case NOT => "!"
  }

  /** `toString`; `showDouble` stands for the formatting of doubles. */
  function Text(showDouble: Double -> string, e: Expr): string {
    match e
    case Constant(v) => ConstantText(showDouble, v)
    case Variable(name) => "$" + name
    case Unary(op, x) => UnaryText(op) + "(" + Text(showDouble, x) + ")"
    case Arithmetic(l, op, r) => "(" + Text(showDouble, l) + ArithmeticText(op) + Text(showDouble, r) + ")"
    case Relational(l, op, r) => "(" + Text(showDouble, l) + RelationalText(op) + Text(showDouble, r) + ")"
    case Logical(l, op, r) => "(" + Text(showDouble, l) + LogicalText(op) + Text(showDouble, r) + ")"
  }
}
