/** From a text to an expression, and which expressions can come out. */
module ParserHelper {
  import opened Expressions
  import opened Options
  import opened Tokens
  import opened Literals
  import opened Scanner
  import opened Grammar

  // ---- From a text to an expression -------------------------------------------

  function BuildAtom(tok: Token): Expr
    requires IsAtom(tok)
  {
    match tok
    case BOOL(b) => Constant(BoolValue(b))
    case INTEGER(n) => Constant(IntValue(n))
    case DOUBLE(d) => Constant(DoubleValue(d))
    case STRING(text) => Constant(StringValue(text))
    case VARIABLE(name) => Variable(name)
  }

  function BuildInfix(l: Expr, op: Token, r: Expr): Expr
    requires BinaryLevel(op) > 0
  {
    match op
    case T_MUL => Arithmetic(l, MUL, r)
    case T_DIV => Arithmetic(l, DIV, r)
    case T_MOD => Arithmetic(l, MOD, r)
    case T_PLUS => Arithmetic(l, ADD, r)
    case T_MINUS => Arithmetic(l, SUB, r)
    case T_LT => Relational(l, LT, r)
    case T_GT => Relational(l, GT, r)
    case T_LE => Relational(l, LE, r)
    case T_GE => Relational(l, GE, r)
    case T_EQ => Relational(l, EQ, r)
    case T_NE => Relational(l, NE, r)
    case T_AND => Logical(l, AND, r)
    case KW_AND => Logical(l, AND, r)
    case T_OR => Logical(l, OR, r)
    case KW_OR => Logical(l, OR, r)
    case T_XOR => Logical(l, XOR, r)
    case KW_XOR => Logical(l, XOR, r)
  }

  /** The expression the parser's actions build from a derivation. */
  function Build(t: Tree): Expr
    requires Derives(TOP, t)
  {
    match t
    case Leaf(tok) => BuildAtom(tok)
    case Paren(inner) => Build(inner)
    case Prefix(op, x) =>
      DerivesTop(1, x);
      Unary(match op case T_PLUS => PLUS case T_MINUS => NEGATE case _ => NOT, Build(x))
    case Infix(l, op, r) =>
      DerivesTop(BinaryLevel(op), l);
      DerivesTop(BinaryLevel(op) - 1, r);
      BuildInfix(Build(l), op, Build(r))
  }

  /** `ParserHelper::parse`: the whole way from a text to an expression, or a null pointer. */
  function ParseText(toDouble: string -> Option<Double>, s: string): (e: Option<Expr>) {
    var ts := Scan(toDouble, s);
    if ts.None? then None
    else
      var t := Parse(ts.value);
      if t.None? then None
      else
        ParseExact(ts.value, t.value);
        Some(Build(t.value))
  }

  // ---- Which expressions come out of the parser -------------------------------------

  predicate ProducibleConstant(v: Value) {
    match v
    case IntValue(i) => 0 <= i < MAX_ABS_INTEGER
    case DoubleValue(_) => true
    case BoolValue(_) => true
    case StringValue(s) => IsName(s) && WordRule(s) == NAME && |s| <= MAX_STRING
  }

  predicate Producible(e: Expr) {
    match e
    case Constant(v) => ProducibleConstant(v)
    case Variable(name) => IsName(name)
    case Unary(_, x) => Producible(x)
    case Arithmetic(l, _, r) => Producible(l) && Producible(r)
    case Relational(l, _, r) => Producible(l) && Producible(r)
    case Logical(l, _, r) => Producible(l) && Producible(r)
  }

  predicate TokenOk(t: Token) {
    match t
    case STRING(s) => IsName(s) && WordRule(s) == NAME && |s| <= MAX_STRING
    case VARIABLE(name) => IsName(name)
    case _ => true
  }

  lemma EmittedOk(toDouble: string -> Option<Double>, s: string)
    requires s != "" && NextLexeme(s).Lexeme?
    ensures var l := NextLexeme(s);
            && Matches(l.rule, s[..l.length])
            && var a := RuleAction(toDouble, l.rule, s[..l.length]); a.Emit? ==> TokenOk(a.t)
  {
    NextIsLongestFirst(s);
    assert NextLexeme(s).rule == NAME ==> IsAlpha(s[0]) by {
      if NextLexeme(s).rule == NAME {
        FirstChar(NAME, s[..NextLexeme(s).length]);
      }
    }
  }

  /** The scanner only makes well-formed tokens. */
  lemma {:induction false} ScannedOk(toDouble: string -> Option<Double>, s: string)
    ensures var ts := Scan(toDouble, s); ts.Some? ==> forall t :: t in ts.value ==> TokenOk(t)
  {
    if s != "" && NextLexeme(s).Lexeme? {
      var l := NextLexeme(s);
      ScanUnfolds(toDouble, s, []);
      ScannedOk(toDouble, s[l.length..]);
      EmittedOk(toDouble, s);
    }
  }

  lemma {:induction false} BuiltProducible(t: Tree)
    requires Derives(TOP, t) && forall tok :: tok in Yield(t) ==> TokenOk(tok)
    ensures Producible(Build(t))
  {
    match t {
      case Leaf(tok) => assert tok in Yield(t);
      case Paren(inner) => BuiltProducible(inner);
      case Prefix(_, x) =>
        DerivesTop(1, x);
        BuiltProducible(x);
      case Infix(l, op, r) =>
        DerivesTop(BinaryLevel(op), l);
        DerivesTop(BinaryLevel(op) - 1, r);
        BuiltProducible(l);
        BuiltProducible(r);
    }
  }

  lemma ParsedProducible(toDouble: string -> Option<Double>, s: string)
    ensures var e := ParseText(toDouble, s); e.Some? ==> Producible(e.value)
  {
    ScannedOk(toDouble, s);
    var ts := Scan(toDouble, s);
    if ts.Some? && Parse(ts.value).Some? {
      ParseExact(ts.value, Parse(ts.value).value);
      BuiltProducible(Parse(ts.value).value);
    }
  }

  // ---- Integer literals, from the text to the tree ------------------------------------

  function NumberOrNothing(v: nat): Option<Expr> {
    if v < MAX_ABS_INTEGER then Some(Constant(IntValue(v))) else None
  }

  lemma SingleToken(t: Token)
    ensures IsAtom(t) ==> Parse([t]) == Some(Leaf(t))
    ensures !IsAtom(t) ==> Parse([t]) == None
  {
    ParseExact([t], Leaf(t));
    if Parse([t]).Some? {
      var tree := Parse([t]).value;
      ParseExact([t], tree);
      assert tree == Leaf(t);
    }
  }

  /** A whole literal is one lexeme, of the rule for its base. */
  lemma LiteralLexeme(s: string, r: Rule)
    requires r == HEXADECIMAL || r == OCTAL || r == DECIMAL
    requires s != "" && Matches(r, s) && (r == DECIMAL ==> !IsOctText(s))
    ensures NextLexeme(s) == Lexeme(r, |s|)
  {
    NextIsLongestFirst(s);
    assert s[..|s|] == s;
    assert Matches(r, s[..|s|]);
    var l := NextLexeme(s);
    assert Preferred(l.rule, l.length, r, |s|);
    FirstChar(r, s);
    FirstChar(l.rule, s);
  }

  lemma LiteralParse(toDouble: string -> Option<Double>, s: string, r: Rule, v: nat)
    requires s != "" && NextLexeme(s) == Lexeme(r, |s|)
    requires Matches(r, s) ==> RuleAction(toDouble, r, s) == IntegerAction(if v <= MAX_ABS_INTEGER then Literal.Literal(v) else OutOfRange)
    ensures ParseText(toDouble, s) == NumberOrNothing(v)
  {
    ScanUnfolds(toDouble, s, []);
    assert s[..|s|] == s && s[|s|..] == "";
    var ts := Scan(toDouble, s);
    if v <= MAX_ABS_INTEGER {
      assert [] + [INTEGER(v)] + [] == [INTEGER(v)];
      assert After([], ts) == ts by {
        assert ts.Some? ==> [] + ts.value == ts.value;
      }
      assert ts == Some([INTEGER(v)]);
      SingleToken(INTEGER(v));
    }
  }

  /** A hexadecimal, octal or decimal literal of any length, with any number of leading zeros, is
      accepted exactly when its value is below 2^63, and then yields that value. */
  lemma LiteralExact(toDouble: string -> Option<Double>, s: string)
    ensures IsHexText(s) ==> ParseText(toDouble, s) == NumberOrNothing(ValueOf(16, s[2..]))
    ensures IsOctText(s) ==> ParseText(toDouble, s) == NumberOrNothing(ValueOf(8, s[1..]))
    ensures s != "" && AllDigits(10, s) && !IsOctText(s) ==>
              ParseText(toDouble, s) == NumberOrNothing(ValueOf(10, s))
  {
    if IsHexText(s) {
      LiteralLexeme(s, HEXADECIMAL);
      LiteralParse(toDouble, s, HEXADECIMAL, ValueOf(16, s[2..]));
    }
    if IsOctText(s) {
      LiteralLexeme(s, OCTAL);
      LiteralParse(toDouble, s, OCTAL, ValueOf(8, s[1..]));
    }
    if s != "" && AllDigits(10, s) && !IsOctText(s) {
      LiteralLexeme(s, DECIMAL);
      LiteralParse(toDouble, s, DECIMAL, ValueOf(10, s));
    }
  }

  // ---- Keywords and operator signs ---------------------------------------------------------

  /** The sign a keyword operator stands for. */
  function Sign(t: Token): (s: Token)
    ensures BinaryLevel(s) == BinaryLevel(t)
    ensures s != KW_AND && s != KW_OR && s != KW_XOR
  {
    match t case KW_AND => T_AND case KW_OR => T_OR case KW_XOR => T_XOR case _ => t
  }

  function Signs(ts: seq<Token>): (ss: seq<Token>)
    ensures |ss| == |ts|
  {
    if ts == [] then [] else [Sign(ts[0])] + Signs(ts[1..])
  }

  function SignTree(t: Tree): Tree {
    match t
    case Leaf(tok) => t
    case Paren(inner) => Paren(SignTree(inner))
    case Prefix(op, x) => Prefix(op, SignTree(x))
    case Infix(l, op, r) => Infix(SignTree(l), Sign(op), SignTree(r))
  }

  function SignParsed(p: Parsed): Parsed {
    match p case NoParse => NoParse case Parsed(t, rest) => Parsed(SignTree(t), Signs(rest))
  }

  lemma SignFacts(ts: seq<Token>)
    requires ts != []
    ensures var ss := Signs(ts);
            && ss != [] && ss[1..] == Signs(ts[1..]) && ss[0] == Sign(ts[0])
            && (IsAtom(ss[0]) <==> IsAtom(ts[0])) && (IsAtom(ts[0]) ==> ss[0] == ts[0])
            && (IsPrefix(ss[0]) <==> IsPrefix(ts[0])) && (IsPrefix(ts[0]) ==> ss[0] == ts[0])
            && (ss[0] == L_PAREN <==> ts[0] == L_PAREN) && (ss[0] == R_PAREN <==> ts[0] == R_PAREN)
            && BinaryLevel(ss[0]) == BinaryLevel(ts[0])
  {
    assert Signs(ts)[1..] == Signs(ts[1..]);
  }

  lemma SignTreeFacts(l: Tree, op: Token, r: Tree)
    ensures SignTree(Infix(l, op, r)) == Infix(SignTree(l), Sign(op), SignTree(r))
    ensures SignTree(Prefix(op, r)) == Prefix(op, SignTree(r))
  {
  }

  lemma NoSigns()
    ensures Signs([]) == []
  {
  }

  lemma {:induction false} BaseSigns(ts: seq<Token>)
    ensures ParseBase(Signs(ts)) == SignParsed(ParseBase(ts))
    decreases |ts|, 0, 0
  {
    hide Signs, Sign, IsAtom, IsPrefix, BinaryLevel, ParseLevel, Chain;
    if ts == [] {
      NoSigns();
    } else {
      SignFacts(ts);
      if !IsAtom(ts[0]) && ts[0] == L_PAREN {
        LevelSigns(TOP, ts[1..]);
        var e := ParseLevel(TOP, ts[1..]);
        if e.Parsed? && e.rest != [] {
          SignFacts(e.rest);
        } else {
          NoSigns();
        }
      }
    }
  }

  lemma {:induction false} ChainSigns(level: nat, left: Tree, ts: seq<Token>)
    requires level >= 2
    ensures Chain(level, SignTree(left), Signs(ts)) == SignParsed(Chain(level, left, ts))
    decreases |ts|, level, 0
  {
    hide Signs, Sign, SignTree, IsAtom, IsPrefix, BinaryLevel, ParseLevel, ParseBase, Chain;
    ChainStep(level, left, ts);
    ChainStep(level, SignTree(left), Signs(ts));
    if ts == [] {
      NoSigns();
    } else {
      SignFacts(ts);
      if BinaryLevel(ts[0]) == level {
        LevelSigns(level - 1, ts[1..]);
        var r := ParseLevel(level - 1, ts[1..]);
        if r.Parsed? {
          SignTreeFacts(left, ts[0], r.tree);
          ChainSigns(level, Infix(left, ts[0], r.tree), r.rest);
        }
      }
    }
  }

  lemma {:induction false} UnarySigns(ts: seq<Token>)
    ensures ParseLevel(0, Signs(ts)) == SignParsed(ParseLevel(0, ts))
    ensures ParseLevel(1, Signs(ts)) == SignParsed(ParseLevel(1, ts))
    decreases |ts|, 0, 1
  {
    hide Signs, Sign, SignTree, IsAtom, IsPrefix, BinaryLevel, ParseBase, Chain, ParseLevel;
    UnaryStep(ts);
    UnaryStep(Signs(ts));
    BaseSigns(ts);
    if ts == [] {
      NoSigns();
    } else {
      SignFacts(ts);
      if IsPrefix(ts[0]) {
        UnarySigns(ts[1..]);
        var x := ParseLevel(1, ts[1..]);
        if x.Parsed? {
          SignTreeFacts(x.tree, ts[0], x.tree);
        }
      }
    }
  }

  /** A level of binary operators, if the level below it and the operators of its own are so. */
  lemma BinarySigns(level: nat, ts: seq<Token>)
    requires level >= 2 && ParseLevel(level - 1, Signs(ts)) == SignParsed(ParseLevel(level - 1, ts))
    requires var l := ParseLevel(level - 1, ts);
             l.Parsed? ==> Chain(level, SignTree(l.tree), Signs(l.rest)) == SignParsed(Chain(level, l.tree, l.rest))
    ensures ParseLevel(level, Signs(ts)) == SignParsed(ParseLevel(level, ts))
  {
    hide Signs, SignTree, Chain, ParseLevel;
    BinaryStep(level, ts);
    BinaryStep(level, Signs(ts));
  }

  lemma {:induction false} LevelSigns(level: nat, ts: seq<Token>)
    ensures ParseLevel(level, Signs(ts)) == SignParsed(ParseLevel(level, ts))
    decreases |ts|, level, 2
  {
    hide Signs, SignTree, SignParsed, Chain, ParseLevel;
    if level == 0 || level == 1 {
      UnarySigns(ts);
    } else {
      LevelSigns(level - 1, ts);
      var l := ParseLevel(level - 1, ts);
      if l.Parsed? {
        ChainSigns(level, l.tree, l.rest);
      }
      BinarySigns(level, ts);
    }
  }

  lemma {:induction false} SignTreeBuilds(t: Tree)
    requires Derives(TOP, t) && Derives(TOP, SignTree(t))
    ensures Build(SignTree(t)) == Build(t)
  {
    match t {
      case Leaf(_) =>
      case Paren(inner) => SignTreeBuilds(inner);
      case Prefix(_, x) =>
        DerivesTop(1, x);
        DerivesTop(1, SignTree(x));
        SignTreeBuilds(x);
      case Infix(l, op, r) =>
        var k := BinaryLevel(op);
        DerivesTop(k, l);
        DerivesTop(k - 1, r);
        DerivesTop(k, SignTree(l));
        DerivesTop(k - 1, SignTree(r));
        SignTreeBuilds(l);
        SignTreeBuilds(r);
    }
  }

  function BuildTokens(ts: seq<Token>): Option<Expr> {
    var t := Parse(ts);
    if t.None? then None
    else
      ParseExact(ts, t.value);
      Some(Build(t.value))
  }

  /** The words AND, OR and XOR mean exactly what the signs mean, wherever they stand. */
  lemma KeywordsAreSigns(ts: seq<Token>)
    ensures BuildTokens(Signs(ts)) == BuildTokens(ts)
  {
    LevelSigns(TOP, ts);
    if Parse(ts).Some? {
      ParseExact(ts, Parse(ts).value);
      ParseExact(Signs(ts), SignTree(Parse(ts).value));
      NoSigns();
      SignTreeBuilds(Parse(ts).value);
    }
  }
}
