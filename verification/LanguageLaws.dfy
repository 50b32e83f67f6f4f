/** From texts to values: what single words, numbers and small expressions mean as people write them. */
module LanguageLaws {
  import opened Expressions
  import opened Evaluator
  import opened Options
  import opened Tokens
  import opened Literals
  import opened Scanner
  import opened Grammar
  import opened ParserHelper
  import opened Printer
  import opened RoundTrip

  // ---- Characters ---------------------------------------------------------------------------

  const LOWER := "abcdefghijklmnopqrstuvwxyz"

  const UPPER := "ABCDEFGHIJKLMNOPQRSTUVWXYZ"

  lemma Letters(c: char)
    ensures c in LOWER <==> 'a' <= c <= 'z'
  {
  }

  lemma Capitals(c: char)
    ensures c in UPPER <==> 'A' <= c <= 'Z'
  {
  }

  lemma WordCharacters(c: char)
    ensures IsAlpha(c) <==> c in LOWER || c in UPPER
    ensures InClass(IDENT, c) <==> IsAlpha(c) || InClass(DIGIT, c) || c == '_'
  {
    Letters(c);
    Capitals(c);
  }

  lemma NumberCharacters(c: char)
    ensures InClass(DIGIT, c) <==> c in "0123456789"
    ensures InClass(HEX, c) <==> c in "0123456789abcdefABCDEF"
    ensures InClass(OCT, c) <==> c in "01234567"
  {
  }

  /** A digit counts as much as its position in the list of digits says, in small letters or capitals. */
  lemma DigitWorth(k: nat)
    requires k < 16
    ensures DigitValue(16, "0123456789abcdef"[k]) == k && DigitValue(16, "0123456789ABCDEF"[k]) == k
    ensures k < 10 ==> DigitValue(10, "0123456789"[k]) == k
    ensures k < 8 ==> DigitValue(8, "01234567"[k]) == k
  {
  }

  /** The keywords, letter by letter. */
  lemma KeywordLetters(w: string)
    ensures Spells(w, "or") <==> |w| == 2 && w[0] in "oO" && w[1] in "rR"
    ensures Spells(w, "and") <==> |w| == 3 && w[0] in "aA" && w[1] in "nN" && w[2] in "dD"
    ensures Spells(w, "not") <==> |w| == 3 && w[0] in "nN" && w[1] in "oO" && w[2] in "tT"
    ensures Spells(w, "xor") <==> |w| == 3 && w[0] in "xX" && w[1] in "oO" && w[2] in "rR"
    ensures Spells(w, "true") <==> |w| == 4 && w[0] in "tT" && w[1] in "rR" && w[2] in "uU" && w[3] in "eE"
    ensures Spells(w, "false") <==>
            |w| == 5 && w[0] in "fF" && w[1] in "aA" && w[2] in "lL" && w[3] in "sS" && w[4] in "eE"
  {
  }

  // ---- Single lexemes -----------------------------------------------------------------------

  /** The signs and their tokens. */
  function SignToken(k: nat): (string, Token)
    requires k < 29
  {
    match k
    case 0 => (".", DOT) case 1 => (",", COMMA) case 2 => (":", COLON) case 3 => (";", SEMICOLON) case 4 => ("@", AT)
    case 5 => ("+", T_PLUS) case 6 => ("-", T_MINUS) case 7 => ("*", T_MUL) case 8 => ("/", T_DIV)
    case 9 => ("%", T_MOD) case 10 => ("!", T_NOT) case 11 => ("^", T_XOR)
    case 12 => ("<", T_LT) case 13 => ("<=", T_LE) case 14 => (">", T_GT) case 15 => (">=", T_GE)
    case 16 => ("==", T_EQ) case 17 => ("!=", T_NE) case 18 => ("||", T_OR) case 19 => ("&&", T_AND)
    case 20 => ("=", ASSIGN) case 21 => ("(", L_PAREN) case 22 => (")", R_PAREN)
    case 23 => ("[", L_BRACKET) case 24 => ("]", R_BRACKET) case 25 => ("{", L_BRACE) case 26 => ("}", R_BRACE)
    case 27 => ("<-", L_ARROW) case _ => ("->", R_ARROW)
  }

  lemma SignIndex(w: string) returns (k: nat)
    requires IsPunctuation(w)
    ensures k < 29 && SignToken(k).0 == w
  {
    if |w| == 1 {
      assert w == [w[0]];
      k := match w[0]
        case '.' => 0 case ',' => 1 case ':' => 2 case ';' => 3 case '@' => 4 case '+' => 5 case '-' => 6 case '*' => 7
        case '/' => 8 case '%' => 9 case '!' => 10 case '^' => 11 case '<' => 12 case '>' => 14 case '=' => 20
        case '(' => 21 case ')' => 22 case '[' => 23 case ']' => 24 case '{' => 25 case _ => 26;
    } else {
      assert w == [w[0], w[1]];
      k := if w[0] == '<' then (if w[1] == '=' then 13 else 27)
           else match w[0] case '>' => 15 case '=' => 16 case '!' => 17 case '|' => 18 case '&' => 19 case _ => 28;
    }
  }

  lemma OneSign(k: nat)
    requires k < 29 && |SignToken(k).0| == 1
    ensures SingleChar(SignToken(k).0[0]) == Some(SignToken(k).1)
  {
  }

  lemma TwoSigns(k: nat)
    requires k < 29 && |SignToken(k).0| != 1
    ensures |SignToken(k).0| == 2 && DoubleChar(SignToken(k).0[0], SignToken(k).0[1]) == Some(SignToken(k).1)
  {
  }

  lemma OneSignLexeme(w: string)
    requires |w| == 1 && SingleChar(w[0]).Some?
    ensures NextLexeme(w) == Lexeme(PUNCTUATION, 1)
  {
  }

  lemma TwoSignLexeme(w: string)
    requires |w| == 2 && DoubleChar(w[0], w[1]).Some?
    ensures NextLexeme(w) == Lexeme(PUNCTUATION, 2)
  {
  }

  lemma SignLexeme(k: nat)
    requires k < 29
    ensures var w := SignToken(k).0;
            && w != "" && NextLexeme(w) == Lexeme(PUNCTUATION, |w|) && IsPunctuation(w)
            && SignToken(k).1 == if |w| == 2 then DoubleChar(w[0], w[1]).value else SingleChar(w[0]).value
  {
    hide NextLexeme, SingleChar, DoubleChar;
    var w := SignToken(k).0;
    if |w| == 1 {
      OneSign(k);
      OneSignLexeme(w);
    } else {
      TwoSigns(k);
      TwoSignLexeme(w);
    }
  }

  lemma SignScans(toDouble: string -> Option<Double>, k: nat)
    requires k < 29
    ensures Scan(toDouble, SignToken(k).0) == Some([SignToken(k).1])
  {
    var w := SignToken(k).0;
    assert w + "" == w;
    ScanEnds(toDouble, []);
    AfterNothing(Scan(toDouble, ""));
    SignLexeme(k);
    ScanOne(toDouble, w, "", PUNCTUATION, SignToken(k).1);
    assert [SignToken(k).1] + [] == [SignToken(k).1];
  }

  /** Each sign scans to its token, and there are no others. */
  lemma SignTable(toDouble: string -> Option<Double>, w: string)
    ensures forall k: nat :: k < 29 ==> Scan(toDouble, SignToken(k).0) == Some([SignToken(k).1])
    ensures IsPunctuation(w) ==> exists k: nat :: k < 29 && SignToken(k).0 == w
  {
    forall k: nat | k < 29
      ensures Scan(toDouble, SignToken(k).0) == Some([SignToken(k).1])
    {
      SignScans(toDouble, k);
    }
    if IsPunctuation(w) {
      var k := SignIndex(w);
    }
  }

  // ---- Whole texts of one lexeme ------------------------------------------------------------

  predicate IsKeyword(w: string) {
    || Spells(w, "or") || Spells(w, "and") || Spells(w, "not") || Spells(w, "xor")
    || Spells(w, "true") || Spells(w, "false")
  }

  lemma ScanNothing(toDouble: string -> Option<Double>, t: Token)
    ensures After([t], Scan(toDouble, "")) == Some([t])
  {
    ScanEnds(toDouble, [t]);
  }

  lemma WordLexeme(toDouble: string -> Option<Double>, w: string)
    requires IsName(w)
    ensures NextLexeme(w) == Lexeme(WordRule(w), |w|) && Matches(WordRule(w), w)
  {
    SpanConcat(IDENT, w, "");
    assert w + "" == w && w[..|w|] == w;
  }

  /** A word that is no keyword is a string, up to 4096 characters; the two truth values are constants, and
      the four operators alone are no expression.  Capitals make no difference to keywords. */
  lemma WordExact(toDouble: string -> Option<Double>, w: string)
    requires IsName(w)
    ensures ParseText(toDouble, w) ==
            if !IsKeyword(w) then (if |w| <= 4096 then Some(Constant(StringValue(w))) else None)
            else if Spells(w, "true") then Some(Constant(BoolValue(true)))
            else if Spells(w, "false") then Some(Constant(BoolValue(false)))
            else None
  {
    hide Scan, NextLexeme;
    WordLexeme(toDouble, w);
    ScanUnfolds(toDouble, w, []);
    assert w[..|w|] == w && w[|w|..] == "";
    AfterNothing(Scan(toDouble, w));
    var a := RuleAction(toDouble, WordRule(w), w);
    if a.Emit? {
      ScanEnds(toDouble, [a.t]);
      assert [] + [a.t] == [a.t];
      SingleToken(a.t);
      assert IsAtom(a.t) ==> Build(Leaf(a.t)) == BuildAtom(a.t);
    }
  }

  lemma FractionLexeme(w: string, p: nat)
    requires |w| >= 2 && PointAt(w, p)
    ensures NextLexeme(w) == Lexeme(if p == 0 then POINT_BEFORE else POINT_AFTER, |w|)
  {
    var r := if p == 0 then POINT_BEFORE else POINT_AFTER;
    assert w[..|w|] == w;
    assert w[0] == '.' || IsDigit(w[0]);
    NextIsLongestFirst(w);
    assert Matches(r, w[..|w|]);
    var l := NextLexeme(w);
    assert Preferred(l.rule, l.length, r, |w|);
    FirstChar(l.rule, w);
    FirstChar(r, w);
    if p > 0 {
      PointWhere(w, |w|, p);
    }
  }

  /** Digits with one point, which may come first or last, are handed to the conversion as they stand. */
  lemma FractionExact(toDouble: string -> Option<Double>, w: string, p: nat)
    requires |w| >= 2 && PointAt(w, p)
    ensures ParseText(toDouble, w) ==
            if toDouble(w).None? then None else Some(Constant(DoubleValue(toDouble(w).value)))
  {
    hide Scan, NextLexeme;
    FractionLexeme(w, p);
    ScanUnfolds(toDouble, w, []);
    assert w[..|w|] == w && w[|w|..] == "";
    AfterNothing(Scan(toDouble, w));
    if toDouble(w).Some? {
      var t := DOUBLE(toDouble(w).value);
      ScanEnds(toDouble, [t]);
      assert [] + [t] == [t];
      SingleToken(t);
      assert Build(Leaf(t)) == BuildAtom(t);
    }
  }

  lemma {:induction false} ProducibleFits(e: Expr)
    requires Producible(e)
    ensures ConstantsFit(e)
  {
    match e {
      case Constant(_) =>
      case Variable(_) =>
      case Unary(_, x) => ProducibleFits(x);
      case Arithmetic(l, _, r) =>
        ProducibleFits(l);
        ProducibleFits(r);
      case Relational(l, _, r) =>
        ProducibleFits(l);
        ProducibleFits(r);
      case Logical(l, _, r) =>
        ProducibleFits(l);
        ProducibleFits(r);
    }
  }

  /** Whatever was parsed, its evaluation refines evaluation in unbounded integers: the literals fit. */
  lemma ParsedFits(toDouble: string -> Option<Double>, s: string)
    ensures var e := ParseText(toDouble, s); e.Some? ==> ConstantsFit(e.value)
  {
    ParsedProducible(toDouble, s);
    if ParseText(toDouble, s).Some? {
      ProducibleFits(ParseText(toDouble, s).value);
    }
  }

  lemma DecimalToken(toDouble: string -> Option<Double>, n: nat)
    requires n <= MAX_ABS_INTEGER
    ensures Scan(toDouble, Decimal(n) + "") == Some([INTEGER(n)])
  {
    hide Scan;
    var w := Decimal(n);
    assert AllIn(DIGIT, w);
    SpanConcat(DIGIT, w, "");
    DecimalValue(n);
    assert w + "" == w;
    ScanOne(toDouble, w, "", DECIMAL, INTEGER(n));
    ScanNothing(toDouble, INTEGER(n));
  }

  lemma OneToken(t: Tree, tok: Token)
    requires Yield(t) == [tok] && Derives(1, t)
    ensures IsAtom(tok)
  {
  }

  /** A sign and a number are derived in one way only. */
  lemma OnlyPrefix(t: Tree, tok: Token)
    requires Yield(t) == [T_MINUS, tok] && Derives(TOP, t) && tok.INTEGER?
    ensures IsAtom(tok)
  {
    match t {
      case Leaf(_) =>
      case Paren(_) =>
      case Prefix(op, x) =>
        assert Yield(t)[1..] == Yield(x);
        assert Yield(x) == [tok];
        OneToken(x, tok);
      case Infix(_, _, _) =>
    }
  }

  lemma SignedNumber(n: nat)
    ensures BuildTokens([T_MINUS, INTEGER(n)])
            == if n < MAX_ABS_INTEGER then Some(Unary(NEGATE, Constant(IntValue(n)))) else None
  {
    hide Parse;
    var ts := [T_MINUS, INTEGER(n)];
    var tree := Prefix(T_MINUS, Leaf(INTEGER(n)));
    assert Yield(tree) == ts;
    ParseExact(ts, tree);
    if n < MAX_ABS_INTEGER {
      assert Derives(TOP, tree);
      assert Build(Leaf(INTEGER(n))) == Constant(IntValue(n));
    } else if Parse(ts).Some? {
      var t := Parse(ts).value;
      ParseExact(ts, t);
      OnlyPrefix(t, INTEGER(n));
    }
  }

  /** The print of a negative constant reads back as the negation of a positive one, except that of the least
      integer, which reads back as nothing. */
  lemma NegativeConstant(toDouble: string -> Option<Double>, showDouble: Double -> string, n: int)
    requires 0 < n <= MAX_ABS_INTEGER
    ensures ParseText(toDouble, Text(showDouble, Constant(IntValue(-n)))) ==
            if n < MAX_ABS_INTEGER then Some(Unary(NEGATE, Constant(IntValue(n)))) else None
  {
    hide Scan, Parse;
    var s := Decimal(n) + "";
    assert Text(showDouble, Constant(IntValue(-n))) == ['-'] + s;
    ScanSingle(toDouble, '-', s);
    DecimalToken(toDouble, n);
    assert [T_MINUS] + [INTEGER(n)] == [T_MINUS, INTEGER(n)];
    SignedNumber(n);
  }

  // ---- Operators in words -------------------------------------------------------------------

  /** `$a w $b`. */
  function WordText(a: string, w: string, b: string): string {
    "$" + a + (" " + (w + (" " + ("$" + b + ""))))
  }

  lemma WordTokens(toDouble: string -> Option<Double>, a: string, w: string, b: string, t: Token)
    requires IsName(a) && IsName(w) && IsName(b)
    requires Matches(WordRule(w), w) ==> RuleAction(toDouble, WordRule(w), w) == Emit(t)
    ensures Scan(toDouble, WordText(a, w, b)) == Some([VARIABLE(a), t, VARIABLE(b)])
    ensures Scan(toDouble, w + (" " + ("$" + b + ""))) == Some([t, VARIABLE(b)])
  {
    hide Scan, RuleAction, Matches;
    var last := "$" + b + "";
    ScanVariable(toDouble, b, "");
    ScanNothing(toDouble, VARIABLE(b));
    BlanksVanish(toDouble, ' ', last);
    ScanName(toDouble, w, " " + last, t);
    BlanksVanish(toDouble, ' ', w + (" " + last));
    ScanVariable(toDouble, a, " " + (w + (" " + last)));
    assert [t] + [VARIABLE(b)] == [t, VARIABLE(b)];
    assert [VARIABLE(a)] + [t, VARIABLE(b)] == [VARIABLE(a), t, VARIABLE(b)];
  }

  lemma InfixParses(a: string, t: Token, b: string)
    requires BinaryLevel(t) >= 2
    ensures BuildTokens([VARIABLE(a), t, VARIABLE(b)]) == Some(BuildInfix(Variable(a), t, Variable(b)))
  {
    var tree := Infix(Leaf(VARIABLE(a)), t, Leaf(VARIABLE(b)));
    assert Yield(tree) == [VARIABLE(a), t, VARIABLE(b)];
    DerivesHigher(0, BinaryLevel(t) - 1, Leaf(VARIABLE(b)));
    ParseExact(Yield(tree), tree);
    assert Build(Leaf(VARIABLE(a))) == Variable(a) && Build(Leaf(VARIABLE(b))) == Variable(b);
  }

  lemma PrefixParses(t: Token, b: string)
    requires IsPrefix(t)
    ensures BuildTokens([t, VARIABLE(b)])
            == Some(Unary(if t == T_PLUS then PLUS else if t == T_MINUS then NEGATE else NOT, Variable(b)))
  {
    var tree := Prefix(t, Leaf(VARIABLE(b)));
    assert Yield(tree) == [t, VARIABLE(b)];
    assert Derives(TOP, tree);
    ParseExact(Yield(tree), tree);
    assert Build(Leaf(VARIABLE(b))) == Variable(b);
  }

  /** The four operators that are words, in any mixture of small letters and capitals. */
  lemma WordOperators(toDouble: string -> Option<Double>, a: string, w: string, b: string)
    requires IsName(a) && IsName(w) && IsName(b)
    ensures Spells(w, "or") ==>
              ParseText(toDouble, WordText(a, w, b)) == Some(Logical(Variable(a), OR, Variable(b)))
    ensures Spells(w, "and") ==>
              ParseText(toDouble, WordText(a, w, b)) == Some(Logical(Variable(a), AND, Variable(b)))
    ensures Spells(w, "xor") ==>
              ParseText(toDouble, WordText(a, w, b)) == Some(Logical(Variable(a), XOR, Variable(b)))
    ensures Spells(w, "not") ==>
              ParseText(toDouble, w + (" " + ("$" + b + ""))) == Some(Unary(NOT, Variable(b)))
  {
    hide Scan, Parse, Build;
    WordLexeme(toDouble, w);
    var r := RuleAction(toDouble, WordRule(w), w);
    if IsKeyword(w) {
      WordTokens(toDouble, a, w, b, r.t);
      if Spells(w, "not") {
        PrefixParses(r.t, b);
      } else if !Spells(w, "true") && !Spells(w, "false") {
        InfixParses(a, r.t, b);
      }
    }
  }

  // ---- A sum with a product -----------------------------------------------------------------

  /** `k + m * n`. */
  function SumText(k: nat, m: nat, n: nat): string {
    Decimal(k) + (" " + ("+" + (" " + (Decimal(m) + (" " + ("*" + (" " + (Decimal(n) + ""))))))))
  }

  lemma SumTokens(toDouble: string -> Option<Double>, k: nat, m: nat, n: nat)
    requires k < MAX_ABS_INTEGER && m < MAX_ABS_INTEGER && n < MAX_ABS_INTEGER
    ensures Scan(toDouble, SumText(k, m, n)) == Some([INTEGER(k), T_PLUS, INTEGER(m), T_MUL, INTEGER(n)])
  {
    hide Scan;
    var s1 := Decimal(n) + "";
    ScanNumber(toDouble, n, "");
    ScanNothing(toDouble, INTEGER(n));
    var s2 := "*" + (" " + s1);
    BlanksVanish(toDouble, ' ', s1);
    ScanSingle(toDouble, '*', " " + s1);
    var s3 := Decimal(m) + (" " + s2);
    BlanksVanish(toDouble, ' ', s2);
    ScanNumber(toDouble, m, " " + s2);
    var s4 := "+" + (" " + s3);
    BlanksVanish(toDouble, ' ', s3);
    ScanSingle(toDouble, '+', " " + s3);
    BlanksVanish(toDouble, ' ', s4);
    ScanNumber(toDouble, k, " " + s4);
    assert [INTEGER(k)] + ([T_PLUS] + ([INTEGER(m)] + ([T_MUL] + [INTEGER(n)])))
           == [INTEGER(k), T_PLUS, INTEGER(m), T_MUL, INTEGER(n)];
  }

  function SumExpr(k: nat, m: nat, n: nat): Expr {
    Arithmetic(Constant(IntValue(k)), ADD, Arithmetic(Constant(IntValue(m)), MUL, Constant(IntValue(n))))
  }

  lemma SumParses(k: nat, m: nat, n: nat)
    requires k < MAX_ABS_INTEGER && m < MAX_ABS_INTEGER && n < MAX_ABS_INTEGER
    ensures BuildTokens([INTEGER(k), T_PLUS, INTEGER(m), T_MUL, INTEGER(n)]) == Some(SumExpr(k, m, n))
  {
    hide Parse;
    var a, b, c := Leaf(INTEGER(k)), Leaf(INTEGER(m)), Leaf(INTEGER(n));
    assert T_PLUS in Class(1) && T_MUL in Class(0);
    Precedence(a, T_PLUS, b, T_MUL, c);
    var ts, t := [INTEGER(k), T_PLUS, INTEGER(m), T_MUL, INTEGER(n)], Infix(a, T_PLUS, Infix(b, T_MUL, c));
    assert Yield(a) + [T_PLUS] + Yield(b) + [T_MUL] + Yield(c) == ts;
    ParseExact(ts, t);
    DerivesHigher(2, TOP, Infix(b, T_MUL, c));
    assert Build(a) == Constant(IntValue(k)) && Build(b) == Constant(IntValue(m)) && Build(c) == Constant(IntValue(n));
    assert Build(Infix(b, T_MUL, c)) == Arithmetic(Constant(IntValue(m)), MUL, Constant(IntValue(n)));
    assert Build(t) == SumExpr(k, m, n);
  }

  lemma SumValue(fp: DoubleOps, ctx: Context, k: nat, m: nat, n: nat)
    requires k < MAX_ABS_INTEGER && m < MAX_ABS_INTEGER && n < MAX_ABS_INTEGER && InInt64(k + m * n)
    ensures Eval(fp, ctx, SumExpr(k, m, n)) == Ok(IntValue(k + m * n))
  {
    assert m * n >= 0;
    MachineIntExact(MUL, m, n);
    MachineIntExact(ADD, k, m * n);
    assert Eval(fp, ctx, Constant(IntValue(m))) == Ok(IntValue(m));
    assert Eval(fp, ctx, Constant(IntValue(n))) == Ok(IntValue(n));
    assert Eval(fp, ctx, Arithmetic(Constant(IntValue(m)), MUL, Constant(IntValue(n)))) == Ok(IntValue(m * n));
    assert Eval(fp, ctx, Constant(IntValue(k))) == Ok(IntValue(k));
  }

  /** The product comes first: `1 + 2 * 3` is 7. */
  lemma SumOfProduct(toDouble: string -> Option<Double>, fp: DoubleOps, ctx: Context, k: nat, m: nat, n: nat)
    requires k < MAX_ABS_INTEGER && m < MAX_ABS_INTEGER && n < MAX_ABS_INTEGER && InInt64(k + m * n)
    ensures var e := ParseText(toDouble, SumText(k, m, n));
            e.Some? && Eval(fp, ctx, e.value) == Ok(IntValue(k + m * n))
  {
    hide Scan, Parse, Eval;
    SumTokens(toDouble, k, m, n);
    SumParses(k, m, n);
    SumValue(fp, ctx, k, m, n);
  }
}
