/** Printing an expression, and reading the print back. */
module RoundTrip {
  import opened Expressions
  import opened Options
  import opened Tokens
  import opened Literals
  import opened Scanner
  import opened Grammar
  import opened ParserHelper
  import opened Printer

  // ---- Scanning the pieces a print consists of ----------------------------------

  /** Whatever follows a print inside a larger one: nothing, a closing parenthesis or an operator. */
  predicate Ends(rest: string) {
    rest == "" || (!IsIdent(rest[0]) && rest[0] != '.')
  }

  lemma {:induction false} SpanConcat(k: CharClass, w: string, rest: string)
    requires AllIn(k, w) && (rest == "" || !InClass(k, rest[0]))
    ensures Span(k, w + rest) == |w|
  {
    assert (w + rest)[..|w|] == w;
    SpanIsLongest(k, w + rest, |w|);
    SpanMembers(k, w + rest);
    assert rest != "" ==> (w + rest)[|w|] == rest[0];
  }

  /** The token of one lexeme, in front of the tokens of the rest. */
  lemma ScanOne(toDouble: string -> Option<Double>, w: string, rest: string, r: Rule, t: Token)
    requires w != "" && NextLexeme(w + rest) == Lexeme(r, |w|)
    requires Matches(r, w) ==> RuleAction(toDouble, r, w) == Emit(t)
    ensures Scan(toDouble, w + rest) == After([t], Scan(toDouble, rest))
  {
    hide Matches, RuleAction, NextLexeme, Scan;
    ScanUnfolds(toDouble, w + rest, []);
    assert (w + rest)[..|w|] == w && (w + rest)[|w|..] == rest;
    AfterNothing(Scan(toDouble, w + rest));
    assert [] + [t] == [t];
  }

  lemma SingleLexeme(c: char, rest: string)
    requires SingleChar(c).Some? && c != '.'
    requires rest == "" || DoubleChar(c, rest[0]).None?
    ensures NextLexeme([c] + rest) == Lexeme(PUNCTUATION, 1)
  {
    var s := [c] + rest;
    assert s[0] == c && (|s| > 1 ==> s[1] == rest[0]);
  }

  lemma ScanSingle(toDouble: string -> Option<Double>, c: char, rest: string)
    requires SingleChar(c).Some? && c != '.'
    requires rest == "" || DoubleChar(c, rest[0]).None?
    ensures Scan(toDouble, [c] + rest) == After([SingleChar(c).value], Scan(toDouble, rest))
  {
    hide NextLexeme, Scan;
    SingleLexeme(c, rest);
    ScanOne(toDouble, [c], rest, PUNCTUATION, SingleChar(c).value);
  }

  lemma ScanDouble(toDouble: string -> Option<Double>, c: char, d: char, rest: string)
    requires DoubleChar(c, d).Some?
    ensures Scan(toDouble, [c, d] + rest) == After([DoubleChar(c, d).value], Scan(toDouble, rest))
  {
    ScanOne(toDouble, [c, d], rest, PUNCTUATION, DoubleChar(c, d).value);
  }

  lemma ScanName(toDouble: string -> Option<Double>, w: string, rest: string, t: Token)
    requires IsName(w) && Ends(rest)
    requires Matches(WordRule(w), w) ==> RuleAction(toDouble, WordRule(w), w) == Emit(t)
    ensures Scan(toDouble, w + rest) == After([t], Scan(toDouble, rest))
  {
    SpanConcat(IDENT, w, rest);
    assert (w + rest)[..|w|] == w && (w + rest)[0] == w[0];
    ScanOne(toDouble, w, rest, WordRule(w), t);
  }

  lemma ScanVariable(toDouble: string -> Option<Double>, name: string, rest: string)
    requires IsName(name) && Ends(rest)
    ensures Scan(toDouble, "$" + name + rest) == After([VARIABLE(name)], Scan(toDouble, rest))
  {
    SpanConcat(IDENT, name, rest);
    var s := "$" + name + rest;
    assert s[1..] == name + rest && s[0] == '$' && s[1] == name[0];
    assert ("$" + name)[1..] == name;
    ScanOne(toDouble, "$" + name, rest, DOLLAR_NAME, VARIABLE(name));
  }

  lemma {:induction false} DecimalValue(n: nat)
    ensures ValueOf(10, Decimal(n)) == n
  {
    if n >= 10 {
      DecimalValue(n / 10);
      var s := Decimal(n);
      assert s[..|s| - 1] == Decimal(n / 10);
    } else {
      assert Decimal(n)[..0] == "";
    }
  }

  lemma ScanNumber(toDouble: string -> Option<Double>, n: nat, rest: string)
    requires n < MAX_ABS_INTEGER && Ends(rest)
    ensures Scan(toDouble, Decimal(n) + rest) == After([INTEGER(n)], Scan(toDouble, rest))
  {
    hide Scan;
    var w := Decimal(n);
    assert AllIn(DIGIT, w);
    SpanConcat(DIGIT, w, rest);
    DecimalValue(n);
    var s := w + rest;
    assert s[0] == w[0];
    assert |w| < |s| ==> s[|w|] == rest[0];
    ScanOne(toDouble, w, rest, DECIMAL, INTEGER(n));
  }

  // ---- Scanning a whole print --------------------------------------------------------

  predicate NoDouble(e: Expr) {
    match e
    case Constant(v) => !v.DoubleValue?
    case Variable(_) => true
    case Unary(_, x) => NoDouble(x)
    case Arithmetic(l, _, r) => NoDouble(l) && NoDouble(r)
    case Relational(l, _, r) => NoDouble(l) && NoDouble(r)
    case Logical(l, _, r) => NoDouble(l) && NoDouble(r)
  }

  /** A less-than whose right operand is printed with a leading minus: the two characters scan as one
      arrow. */
  predicate Arrow(op: RelationalOp, r: Expr) {
    op == LT && r.Unary? && r.uop == NEGATE
  }

  function OperatorToken(e: Expr): Token
    requires e.Arithmetic? || e.Relational? || e.Logical?
  {
    match e
    case Arithmetic(_, op, _) =>
      (match op case ADD => T_PLUS case SUB => T_MINUS case MUL => T_MUL case DIV => T_DIV case MOD => T_MOD)
    case Relational(_, op, _) =>
      (match op case LT => T_LT case LE => T_LE case GT => T_GT case GE => T_GE case EQ => T_EQ case NE => T_NE)
    case Logical(_, op, _) =>
      (match op case AND => T_AND case OR => T_OR case XOR => T_XOR)
  }

  function PrefixToken(op: UnaryOp): Token {
    match op case PLUS => T_PLUS case NEGATE => T_MINUS case NOT => T_NOT
  }

  function AtomToken(v: Value): Token
    requires ProducibleConstant(v)
  {
    match v
    case IntValue(i) => INTEGER(i)
    case DoubleValue(d) => DOUBLE(d)
    case BoolValue(b) => BOOL(b)
    case StringValue(s) => STRING(s)
  }

  /** The tokens the scanner finds in the print of `e`. */
  function PrintedTokens(e: Expr): (ts: seq<Token>)
    requires Producible(e)
    ensures |ts| > 0
    ensures e.Unary? ==> ts[0] == PrefixToken(e.uop)
  {
    match e
    case Constant(v) => [AtomToken(v)]
    case Variable(name) => [VARIABLE(name)]
    case Unary(op, x) => [PrefixToken(op)] + ([L_PAREN] + (PrintedTokens(x) + [R_PAREN]))
    case Arithmetic(l, _, r) => [L_PAREN] + (PrintedTokens(l) + ([OperatorToken(e)] + (PrintedTokens(r) + [R_PAREN])))
    case Relational(l, op, r) =>
      if Arrow(op, r)
      then [L_PAREN] + (PrintedTokens(l) + ([L_ARROW] + (PrintedTokens(r)[1..] + [R_PAREN])))
      else [L_PAREN] + (PrintedTokens(l) + ([OperatorToken(e)] + (PrintedTokens(r) + [R_PAREN])))
    case Logical(l, _, r) => [L_PAREN] + (PrintedTokens(l) + ([OperatorToken(e)] + (PrintedTokens(r) + [R_PAREN])))
  }

  lemma AfterTwice(a: seq<Token>, b: seq<Token>, rest: Option<seq<Token>>)
    ensures After(a, After(b, rest)) == After(a + b, rest)
  {
    if rest.Some? {
      assert a + (b + rest.value) == a + b + rest.value;
    }
  }

  function OperatorText(e: Expr): string
    requires e.Arithmetic? || e.Relational? || e.Logical?
  {
    match e
    case Arithmetic(_, op, _) => ArithmeticText(op)
    case Relational(_, op, _) => RelationalText(op)
    case Logical(_, op, _) => LogicalText(op)
  }

  /** A print begins with a letter, a digit, `$`, `(` or a prefix operator. */
  lemma {:induction false} FirstOfText(showDouble: Double -> string, e: Expr)
    requires Producible(e) && NoDouble(e)
    ensures var s := Text(showDouble, e);
            && s != "" && s[0] != '>' && s[0] != '=' && s[0] != '|' && s[0] != '&'
            && (s[0] == '-' <==> e.Unary? && e.uop == NEGATE)
  {
    if e.Constant? && e.value.IntValue? {
      assert IsDigitOf(10, Decimal(e.value.i)[0]);
    }
  }

  /** The text of an operator is one lexeme unless the next character makes it longer. */
  lemma OperatorShape(e: Expr)
    requires e.Arithmetic? || e.Relational? || e.Logical?
    ensures var w, t := OperatorText(e), OperatorToken(e);
            || (|w| == 2 && w == [w[0], w[1]] && DoubleChar(w[0], w[1]) == Some(t))
            || (|w| == 1 && w == [w[0]] && w[0] != '.' && SingleChar(w[0]) == Some(t)
                && (w[0] == '<' ==> e.Relational? && e.rop == LT))
  {
  }

  lemma ScanOperator(toDouble: string -> Option<Double>, e: Expr, rest: string)
    requires e.Arithmetic? || e.Relational? || e.Logical?
    requires rest != "" && rest[0] != '>' && rest[0] != '=' && rest[0] != '|' && rest[0] != '&'
    requires !(e.Relational? && e.rop == LT && rest[0] == '-')
    ensures Scan(toDouble, OperatorText(e) + rest) == After([OperatorToken(e)], Scan(toDouble, rest))
  {
    hide Scan, OperatorText, OperatorToken;
    var w := OperatorText(e);
    OperatorShape(e);
    if |w| == 1 {
      assert DoubleChar(w[0], rest[0]).None?;
      ScanSingle(toDouble, w[0], rest);
    } else {
      ScanDouble(toDouble, w[0], w[1], rest);
    }
  }

  lemma ScanConstant(toDouble: string -> Option<Double>, showDouble: Double -> string, v: Value, rest: string)
    requires ProducibleConstant(v) && !v.DoubleValue? && Ends(rest)
    ensures Scan(toDouble, ConstantText(showDouble, v) + rest) == After([AtomToken(v)], Scan(toDouble, rest))
  {
    match v {
      case IntValue(i) => ScanNumber(toDouble, i, rest);
      case BoolValue(b) =>
        ScanName(toDouble, if b then "true" else "false", rest, BOOL(b));
      case StringValue(s) => ScanName(toDouble, s, rest, STRING(s));
    }
  }

  lemma UnaryPrint(showDouble: Double -> string, op: UnaryOp, x: Expr, rest: string)
    ensures var c := UnaryText(op)[0];
            && Text(showDouble, Unary(op, x)) + rest == [c] + ("(" + (Text(showDouble, x) + (")" + rest)))
            && c != '.' && SingleChar(c) == Some(PrefixToken(op)) && DoubleChar(c, '(').None?
  {
  }

  lemma {:induction false} ScanClosed(toDouble: string -> Option<Double>, showDouble: Double -> string, x: Expr, rest: string)
    requires Producible(x) && NoDouble(x) && Ends(rest)
    ensures Scan(toDouble, Text(showDouble, x) + (")" + rest)) == After(PrintedTokens(x) + [R_PAREN], Scan(toDouble, rest))
    decreases x, 2
  {
    hide Scan;
    ScanText(toDouble, showDouble, x, ")" + rest);
    ScanSingle(toDouble, ')', rest);
    AfterTwice(PrintedTokens(x), [R_PAREN], Scan(toDouble, rest));
  }

  lemma {:induction false} ScanInParens(toDouble: string -> Option<Double>, showDouble: Double -> string, x: Expr, rest: string)
    requires Producible(x) && NoDouble(x) && Ends(rest)
    ensures Scan(toDouble, "(" + (Text(showDouble, x) + (")" + rest)))
            == After([L_PAREN] + (PrintedTokens(x) + [R_PAREN]), Scan(toDouble, rest))
    decreases x, 3
  {
    hide Scan;
    ScanSingle(toDouble, '(', Text(showDouble, x) + (")" + rest));
    ScanClosed(toDouble, showDouble, x, rest);
    AfterTwice([L_PAREN], PrintedTokens(x) + [R_PAREN], Scan(toDouble, rest));
  }

  lemma {:induction false} ScanUnary(toDouble: string -> Option<Double>, showDouble: Double -> string,
                                     op: UnaryOp, x: Expr, rest: string)
    requires Producible(x) && NoDouble(x) && Ends(rest)
    ensures Scan(toDouble, Text(showDouble, Unary(op, x)) + rest)
            == After(PrintedTokens(Unary(op, x)), Scan(toDouble, rest))
    decreases x, 4
  {
    hide Scan;
    var s := "(" + (Text(showDouble, x) + (")" + rest));
    UnaryPrint(showDouble, op, x, rest);
    ScanSingle(toDouble, UnaryText(op)[0], s);
    ScanInParens(toDouble, showDouble, x, rest);
    AfterTwice([PrefixToken(op)], [L_PAREN] + (PrintedTokens(x) + [R_PAREN]), Scan(toDouble, rest));
  }

  /** From the operator on: the operator, the right operand, the closing parenthesis. */
  lemma {:induction false} ScanRight(toDouble: string -> Option<Double>, showDouble: Double -> string, e: Expr, r: Expr, rest: string)
    requires e.Arithmetic? || e.Relational? || e.Logical?
    requires r == e.right && Producible(r) && NoDouble(r) && Ends(rest)
    ensures Scan(toDouble, OperatorText(e) + (Text(showDouble, r) + (")" + rest)))
            == if e.Relational? && Arrow(e.rop, r)
               then After([L_ARROW] + (PrintedTokens(r)[1..] + [R_PAREN]), Scan(toDouble, rest))
               else After([OperatorToken(e)] + (PrintedTokens(r) + [R_PAREN]), Scan(toDouble, rest))
    decreases r, 3
  {
    hide Scan;
    FirstOfText(showDouble, r);
    var s := Text(showDouble, r) + (")" + rest);
    if e.Relational? && Arrow(e.rop, r) {
      var x := r.operand;
      assert "<" + s == ['<', '-'] + ("(" + (Text(showDouble, x) + (")" + (")" + rest))));
      ScanDouble(toDouble, '<', '-', "(" + (Text(showDouble, x) + (")" + (")" + rest))));
      ScanInParens(toDouble, showDouble, x, ")" + rest);
      ScanSingle(toDouble, ')', rest);
      var ts := [L_PAREN] + (PrintedTokens(x) + [R_PAREN]);
      assert PrintedTokens(r)[1..] == ts;
      AfterTwice(ts, [R_PAREN], Scan(toDouble, rest));
      AfterTwice([L_ARROW], ts + [R_PAREN], Scan(toDouble, rest));
    } else {
      ScanOperator(toDouble, e, s);
      ScanClosed(toDouble, showDouble, r, rest);
      AfterTwice([OperatorToken(e)], PrintedTokens(r) + [R_PAREN], Scan(toDouble, rest));
    }
  }

  lemma Regroup(a: string, o: string, b: string, rest: string)
    ensures "(" + a + o + b + ")" + rest == ['('] + (a + (o + (b + (")" + rest))))
  {
  }

  lemma InfixPrint(showDouble: Double -> string, e: Expr, rest: string)
    requires e.Arithmetic? || e.Relational? || e.Logical?
    ensures var right := OperatorText(e) + (Text(showDouble, e.right) + (")" + rest));
            && Text(showDouble, e) + rest == ['('] + (Text(showDouble, e.left) + right)
            && Ends(right)
  {
    Regroup(Text(showDouble, e.left), OperatorText(e), Text(showDouble, e.right), rest);
    OperatorShape(e);
  }

  /** The tokens from the operator on. */
  function RightTokens(e: Expr): seq<Token>
    requires (e.Arithmetic? || e.Relational? || e.Logical?) && Producible(e)
  {
    if e.Relational? && Arrow(e.rop, e.right) then [L_ARROW] + (PrintedTokens(e.right)[1..] + [R_PAREN])
    else [OperatorToken(e)] + (PrintedTokens(e.right) + [R_PAREN])
  }

  lemma InfixTokens(e: Expr)
    requires (e.Arithmetic? || e.Relational? || e.Logical?) && Producible(e)
    ensures PrintedTokens(e) == [L_PAREN] + (PrintedTokens(e.left) + RightTokens(e))
  {
  }

  lemma {:induction false} ScanInfix(toDouble: string -> Option<Double>, showDouble: Double -> string,
                                     e: Expr, l: Expr, r: Expr, rest: string)
    requires e.Arithmetic? || e.Relational? || e.Logical?
    requires l == e.left && r == e.right && Producible(e) && NoDouble(e) && Ends(rest)
    ensures Scan(toDouble, Text(showDouble, e) + rest) == After(PrintedTokens(e), Scan(toDouble, rest))
    decreases e, 0
  {
    hide Scan, PrintedTokens;
    var right := OperatorText(e) + (Text(showDouble, r) + (")" + rest));
    InfixPrint(showDouble, e, rest);
    ScanSingle(toDouble, '(', Text(showDouble, l) + right);
    ScanText(toDouble, showDouble, l, right);
    ScanRight(toDouble, showDouble, e, r, rest);
    var ts := RightTokens(e);
    AfterTwice(PrintedTokens(l), ts, Scan(toDouble, rest));
    AfterTwice([L_PAREN], PrintedTokens(l) + ts, Scan(toDouble, rest));
    InfixTokens(e);
  }

  /** The scanner splits a print into the printed tokens, whatever comes after it. */
  lemma {:induction false} ScanText(toDouble: string -> Option<Double>, showDouble: Double -> string, e: Expr, rest: string)
    requires Producible(e) && NoDouble(e) && Ends(rest)
    ensures Scan(toDouble, Text(showDouble, e) + rest) == After(PrintedTokens(e), Scan(toDouble, rest))
    decreases e, 1
  {
    match e {
      case Constant(v) => ScanConstant(toDouble, showDouble, v, rest);
      case Variable(name) => ScanVariable(toDouble, name, rest);
      case Unary(op, x) => ScanUnary(toDouble, showDouble, op, x, rest);
      case Arithmetic(l, _, r) => ScanInfix(toDouble, showDouble, e, l, r, rest);
      case Relational(l, op, r) => ScanInfix(toDouble, showDouble, e, l, r, rest);
      case Logical(l, _, r) => ScanInfix(toDouble, showDouble, e, l, r, rest);
    }
  }

  // ---- The round trip ------------------------------------------------------------------

  /** The prints that can be read back: no NOT (printed as `!`, which the grammar does not know) and no
      arrow. */
  predicate Readable(e: Expr) {
    match e
    case Constant(_) => true
    case Variable(_) => true
    case Unary(op, x) => op != NOT && Readable(x)
    case Arithmetic(l, _, r) => Readable(l) && Readable(r)
    case Relational(l, op, r) => Readable(l) && Readable(r) && !Arrow(op, r)
    case Logical(l, _, r) => Readable(l) && Readable(r)
  }

  /** The derivation of a readable print: operands in parentheses. */
  function Canonical(e: Expr): (t: Tree)
    requires Producible(e)
  {
    match e
    case Constant(v) => Leaf(AtomToken(v))
    case Variable(name) => Leaf(VARIABLE(name))
    case Unary(op, x) => Prefix(PrefixToken(op), Paren(Canonical(x)))
    case Arithmetic(l, _, r) => Paren(Infix(Canonical(l), OperatorToken(e), Canonical(r)))
    case Relational(l, _, r) => Paren(Infix(Canonical(l), OperatorToken(e), Canonical(r)))
    case Logical(l, _, r) => Paren(Infix(Canonical(l), OperatorToken(e), Canonical(r)))
  }

  lemma {:induction false} CanonicalInfix(e: Expr, l: Expr, r: Expr)
    requires e.Arithmetic? || e.Relational? || e.Logical?
    requires l == e.left && r == e.right && Producible(e) && Readable(e)
    ensures Derives(1, Canonical(e))
    decreases e, 0
  {
    CanonicalDerives(l);
    CanonicalDerives(r);
    var k := BinaryLevel(OperatorToken(e));
    DerivesHigher(1, k, Canonical(l));
    DerivesHigher(1, k - 1, Canonical(r));
  }

  lemma {:induction false} CanonicalDerives(e: Expr)
    requires Producible(e) && Readable(e)
    ensures Derives(1, Canonical(e))
  {
    match e {
      case Constant(_) =>
      case Variable(_) =>
      case Unary(_, x) =>
        CanonicalDerives(x);
        DerivesHigher(1, TOP, Canonical(x));
      case Arithmetic(l, _, r) => CanonicalInfix(e, l, r);
      case Relational(l, _, r) => CanonicalInfix(e, l, r);
      case Logical(l, _, r) => CanonicalInfix(e, l, r);
    }
  }

  lemma YieldRegroup(e: Expr)
    requires (e.Arithmetic? || e.Relational? || e.Logical?) && Producible(e)
    ensures Yield(Canonical(e)) == [L_PAREN] + (Yield(Canonical(e.left)) + ([OperatorToken(e)] + (Yield(Canonical(e.right)) + [R_PAREN])))
  {
    var l, r, t := Canonical(e.left), Canonical(e.right), OperatorToken(e);
    assert Yield(Infix(l, t, r)) == Yield(l) + [t] + Yield(r);
    assert Yield(Canonical(e)) == [L_PAREN] + Yield(Infix(l, t, r)) + [R_PAREN];
  }

  lemma {:induction false} CanonicalYields(e: Expr)
    requires Producible(e) && Readable(e)
    ensures Yield(Canonical(e)) == PrintedTokens(e)
  {
    match e {
      case Constant(_) =>
      case Variable(_) =>
      case Unary(op, x) => CanonicalYields(x);
      case Arithmetic(l, _, r) =>
        CanonicalYields(l);
        CanonicalYields(r);
        YieldRegroup(e);
      case Relational(l, _, r) =>
        CanonicalYields(l);
        CanonicalYields(r);
        YieldRegroup(e);
      case Logical(l, _, r) =>
        CanonicalYields(l);
        CanonicalYields(r);
        YieldRegroup(e);
    }
  }

  lemma {:induction false} BuildsInfix(e: Expr, l: Expr, r: Expr)
    requires e.Arithmetic? || e.Relational? || e.Logical?
    requires l == e.left && r == e.right && Producible(e) && Readable(e) && Derives(TOP, Canonical(e))
    ensures Build(Canonical(e)) == e
    decreases e, 0
  {
    CanonicalDerives(l);
    CanonicalDerives(r);
    DerivesHigher(1, TOP, Canonical(l));
    DerivesHigher(1, TOP, Canonical(r));
    CanonicalBuilds(l);
    CanonicalBuilds(r);
  }

  lemma {:induction false} CanonicalBuilds(e: Expr)
    requires Producible(e) && Readable(e) && Derives(TOP, Canonical(e))
    ensures Build(Canonical(e)) == e
  {
    match e {
      case Constant(_) =>
      case Variable(_) =>
      case Unary(_, x) =>
        CanonicalDerives(x);
        DerivesHigher(1, TOP, Canonical(x));
        CanonicalBuilds(x);
      case Arithmetic(l, _, r) => BuildsInfix(e, l, r);
      case Relational(l, _, r) => BuildsInfix(e, l, r);
      case Logical(l, _, r) => BuildsInfix(e, l, r);
    }
  }

  /** No derivation contains `!` or an arrow. */
  lemma {:induction false} YieldLacks(level: nat, t: Tree)
    requires Derives(level, t)
    ensures T_NOT !in Yield(t) && L_ARROW !in Yield(t)
    decreases t
  {
    match t {
      case Leaf(_) =>
      case Paren(inner) => YieldLacks(TOP, inner);
      case Prefix(_, x) => YieldLacks(1, x);
      case Infix(l, op, r) =>
        YieldLacks(BinaryLevel(op), l);
        YieldLacks(BinaryLevel(op) - 1, r);
    }
  }

  lemma {:induction false} UnreadableInfix(e: Expr, l: Expr, r: Expr)
    requires e.Arithmetic? || e.Relational? || e.Logical?
    requires l == e.left && r == e.right && Producible(e) && !Readable(e)
    ensures T_NOT in PrintedTokens(e) || L_ARROW in PrintedTokens(e)
    decreases e, 0
  {
    InfixTokens(e);
    if !Readable(l) {
      UnreadableTokens(l);
    } else if e.Relational? && Arrow(e.rop, r) {
      assert RightTokens(e)[0] == L_ARROW;
    } else {
      UnreadableTokens(r);
    }
  }

  /** The print of anything that is not readable does contain one. */
  lemma {:induction false} UnreadableTokens(e: Expr)
    requires Producible(e) && !Readable(e)
    ensures T_NOT in PrintedTokens(e) || L_ARROW in PrintedTokens(e)
  {
    match e {
      case Constant(_) =>
      case Variable(_) =>
      case Unary(op, x) =>
        if op == NOT {
          assert PrintedTokens(e)[0] == T_NOT;
        } else {
          UnreadableTokens(x);
        }
      case Arithmetic(l, _, r) => UnreadableInfix(e, l, r);
      case Relational(l, _, r) => UnreadableInfix(e, l, r);
      case Logical(l, _, r) => UnreadableInfix(e, l, r);
    }
  }

  /** Print, scan, parse: for every expression without double literals that the parser can produce, the
      print reads back as that very expression, or, exactly when it contains a NOT or a less-than with
      a negated right operand, it does not read back at all. */
  lemma PrintParse(toDouble: string -> Option<Double>, showDouble: Double -> string, e: Expr)
    requires Producible(e) && NoDouble(e)
    ensures ParseText(toDouble, Text(showDouble, e)) == if Readable(e) then Some(e) else None
  {
    var s, ts := Text(showDouble, e), PrintedTokens(e);
    ScanText(toDouble, showDouble, e, "");
    assert s + "" == s && ts + [] == ts;
    assert Scan(toDouble, s) == Some(ts);
    if Readable(e) {
      CanonicalDerives(e);
      DerivesHigher(1, TOP, Canonical(e));
      CanonicalYields(e);
      CanonicalBuilds(e);
      ParseExact(ts, Canonical(e));
    } else {
      UnreadableTokens(e);
      if Parse(ts).Some? {
        ParseExact(ts, Parse(ts).value);
        YieldLacks(TOP, Parse(ts).value);
      }
    }
  }

  /** The same for whatever the parser did produce from some text. */
  lemma ParsePrintParse(toDouble: string -> Option<Double>, showDouble: Double -> string, s: string)
    ensures var e := ParseText(toDouble, s);
            e.Some? && NoDouble(e.value) ==>
              ParseText(toDouble, Text(showDouble, e.value)) == if Readable(e.value) then e else None
  {
    ParsedProducible(toDouble, s);
    var e := ParseText(toDouble, s);
    if e.Some? && NoDouble(e.value) {
      PrintParse(toDouble, showDouble, e.value);
    }
  }

  // ---- The same expression as people write it ----------------------------------------------------

  lemma BlankLexeme(c: char, rest: string)
    requires c in " \t\r\n"
    ensures NextLexeme([c] + rest) == Lexeme(if c == '\n' then NEWLINE else BLANK, 1)
  {
  }

  /** Each blank character is passed over, wherever it stands. */
  lemma BlanksVanish(toDouble: string -> Option<Double>, c: char, rest: string)
    requires c in " \t\r\n"
    ensures Scan(toDouble, [c] + rest) == Scan(toDouble, rest)
  {
    hide Scan;
    var s := [c] + rest;
    BlankLexeme(c, rest);
    ScanUnfolds(toDouble, s, []);
    AfterNothing(Scan(toDouble, s));
    AfterNothing(Scan(toDouble, rest));
    assert s[1..] == rest;
  }

  /** `$name op n`, with blanks around the operator and without parentheses. */
  function WrittenText(name: string, op: char, n: nat): string {
    "$" + name + (" " + ([op] + (" " + (Decimal(n) + ""))))
  }

  lemma WrittenTokens(toDouble: string -> Option<Double>, name: string, op: char, n: nat)
    requires IsName(name) && n < MAX_ABS_INTEGER && op != '.' && SingleChar(op).Some? && DoubleChar(op, ' ').None?
    ensures Scan(toDouble, WrittenText(name, op, n)) == Some([VARIABLE(name), SingleChar(op).value, INTEGER(n)])
  {
    hide Scan;
    var number := Decimal(n) + "";
    ScanVariable(toDouble, name, " " + ([op] + (" " + number)));
    BlanksVanish(toDouble, ' ', [op] + (" " + number));
    ScanSingle(toDouble, op, " " + number);
    BlanksVanish(toDouble, ' ', number);
    ScanNumber(toDouble, n, "");
    ScanEnds(toDouble, []);
    AfterNothing(Scan(toDouble, ""));
    assert [VARIABLE(name)] + ([SingleChar(op).value] + ([INTEGER(n)] + []))
           == [VARIABLE(name), SingleChar(op).value, INTEGER(n)];
  }

  lemma WrittenParses(toDouble: string -> Option<Double>, name: string, op: char, n: nat)
    requires IsName(name) && n < MAX_ABS_INTEGER && op != '.' && SingleChar(op).Some? && DoubleChar(op, ' ').None?
    requires BinaryLevel(SingleChar(op).value) >= 2
    ensures ParseText(toDouble, WrittenText(name, op, n))
            == Some(BuildInfix(Variable(name), SingleChar(op).value, Constant(IntValue(n))))
  {
    hide Scan, Parse, SingleChar, DoubleChar;
    var t := SingleChar(op).value;
    var tree := Infix(Leaf(VARIABLE(name)), t, Leaf(INTEGER(n)));
    var ts := [VARIABLE(name), t, INTEGER(n)];
    WrittenTokens(toDouble, name, op, n);
    assert Yield(tree) == ts;
    assert Derives(TOP, tree);
    ParseExact(ts, tree);
    assert Build(Leaf(VARIABLE(name))) == Variable(name) && Build(Leaf(INTEGER(n))) == Constant(IntValue(n));
    assert Build(tree) == BuildInfix(Variable(name), t, Constant(IntValue(n)));
  }
}
