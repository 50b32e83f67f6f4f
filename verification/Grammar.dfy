/** The stratified expression grammar: its derivations, a deterministic parser, and the expression a
    derivation builds. */
module Grammar {
  import opened Options
  import opened Tokens

  /** A derivation, up to the chain productions from one level to the next. */
  datatype Tree =
    | Leaf(tok: Token)
    | Paren(inner: Tree)
    | Prefix(op: Token, operand: Tree)
    | Infix(left: Tree, iop: Token, right: Tree)

  // The levels: 0 base, 1 unary, 2 multiplicative, 3 additive, 4 relational, 5 equality, 6 and,
  // 7 or, 8 xor (the start symbol).
  const TOP: nat := 8

  /** The level at which a token is a binary operator; 0 if it is none. */
  function BinaryLevel(t: Token): (level: nat)
    ensures level <= TOP
  {
    match t
    case T_MUL => 2 case T_DIV => 2 case T_MOD => 2
    case T_PLUS => 3 case T_MINUS => 3
    case T_LT => 4 case T_GT => 4 case T_LE => 4 case T_GE => 4
    case T_EQ => 5 case T_NE => 5
    case T_AND => 6 case KW_AND => 6
    case T_OR => 7 case KW_OR => 7
    case T_XOR => 8 case KW_XOR => 8
    case _ => 0
  }

  predicate IsPrefix(t: Token) {
    t == T_PLUS || t == T_MINUS || t == KW_NOT
  }

  /** A token that is an expression by itself.  An integer has to pass the range check. */
  predicate IsAtom(t: Token) {
    match t
    case BOOL(_) => true
    case INTEGER(n) => n < MAX_ABS_INTEGER
    case DOUBLE(_) => true
    case STRING(_) => true
    case VARIABLE(_) => true
    case _ => false
  }

  /** `t` follows the productions of `level` and below. */
  predicate Derives(level: nat, t: Tree)
    decreases t
  {
    match t
    case Leaf(tok) => IsAtom(tok)
    case Paren(inner) => Derives(TOP, inner)
    case Prefix(op, x) => level >= 1 && IsPrefix(op) && Derives(1, x)
    case Infix(l, op, r) =>
      var k := BinaryLevel(op);
      2 <= k <= level && Derives(k, l) && Derives(k - 1, r)
  }

  function Yield(t: Tree): (ts: seq<Token>)
    ensures |ts| > 0
  {
    match t
    case Leaf(tok) => [tok]
    case Paren(inner) => [L_PAREN] + Yield(inner) + [R_PAREN]
    case Prefix(op, x) => [op] + Yield(x)
    case Infix(l, op, r) => Yield(l) + [op] + Yield(r)
  }

  // ---- The parser -----------------------------------------------------------

  datatype Parsed = NoParse | Parsed(tree: Tree, rest: seq<Token>)

  function ParseBase(ts: seq<Token>): (r: Parsed)
    ensures r.Parsed? ==> |r.rest| < |ts|
    decreases |ts|, 0, 0
  {
    if ts == [] then NoParse
    else if IsAtom(ts[0]) then Parsed(Leaf(ts[0]), ts[1..])
    else if ts[0] == L_PAREN then
      var e := ParseLevel(TOP, ts[1..]);
      if e.Parsed? && e.rest != [] && e.rest[0] == R_PAREN then Parsed(Paren(e.tree), e.rest[1..]) else NoParse
    else NoParse
  }

  /** The operators of one level, gathered to the left. */
  function Chain(level: nat, left: Tree, ts: seq<Token>): (r: Parsed)
    requires level >= 2
    ensures r.Parsed? ==> |r.rest| <= |ts|
    decreases |ts|, level, 0
  {
    if ts != [] && BinaryLevel(ts[0]) == level then
      var r := ParseLevel(level - 1, ts[1..]);
      if r.NoParse? then NoParse else Chain(level, Infix(left, ts[0], r.tree), r.rest)
    else Parsed(left, ts)
  }

  function ParseLevel(level: nat, ts: seq<Token>): (r: Parsed)
    ensures r.Parsed? ==> |r.rest| < |ts|
    decreases |ts|, level, 1
  {
    if level == 0 then ParseBase(ts)
    else if level == 1 then
      if ts != [] && IsPrefix(ts[0]) then
        var x := ParseLevel(1, ts[1..]);
        if x.NoParse? then NoParse else Parsed(Prefix(ts[0], x.tree), x.rest)
      else ParseLevel(0, ts)
    else
      var l := ParseLevel(level - 1, ts);
      if l.NoParse? then NoParse else Chain(level, l.tree, l.rest)
  }

  function Parse(ts: seq<Token>): (t: Option<Tree>) {
    var r := ParseLevel(TOP, ts);
    if r.Parsed? && r.rest == [] then Some(r.tree) else None
  }

  // ---- The parser unfolded once ---------------------------------------------------------

  /** One step of the parser's loop over the operators of a level. */
  lemma ChainStep(level: nat, left: Tree, ts: seq<Token>)
    requires level >= 2
    ensures Chain(level, left, ts)
            == if ts != [] && BinaryLevel(ts[0]) == level then
                 var r := ParseLevel(level - 1, ts[1..]);
                 if r.NoParse? then NoParse else Chain(level, Infix(left, ts[0], r.tree), r.rest)
               else Parsed(left, ts)
  {
  }

  lemma UnaryStep(ts: seq<Token>)
    ensures ParseLevel(1, ts)
            == if ts != [] && IsPrefix(ts[0]) then
                 var x := ParseLevel(1, ts[1..]);
                 if x.NoParse? then NoParse else Parsed(Prefix(ts[0], x.tree), x.rest)
               else ParseLevel(0, ts)
    ensures ParseLevel(0, ts) == ParseBase(ts)
  {
  }

  lemma BinaryStep(level: nat, ts: seq<Token>)
    requires level >= 2
    ensures var l := ParseLevel(level - 1, ts);
            ParseLevel(level, ts) == if l.NoParse? then NoParse else Chain(level, l.tree, l.rest)
  {
  }

  // ---- Soundness: what is parsed is a derivation of exactly the consumed tokens ----

  /** A derivation of one level is one of the next. */
  lemma DerivesUp(ts: seq<Token>, level: nat)
    requires level >= 1
    ensures forall t :: Derives(level - 1, t) ==> Derives(level, t)
  {
  }

  lemma {:induction false} BaseSound(ts: seq<Token>)
    ensures var r := ParseBase(ts); r.Parsed? ==> Derives(0, r.tree) && ts == Yield(r.tree) + r.rest
    decreases |ts|, 0, 0
  {
    if ts != [] && !IsAtom(ts[0]) && ts[0] == L_PAREN {
      LevelSound(TOP, ts[1..]);
    }
  }

  lemma InfixYield(l: Tree, op: Token, r: Tree, rest: seq<Token>)
    ensures Yield(Infix(l, op, r)) + rest == Yield(l) + ([op] + (Yield(r) + rest))
  {
    assert Yield(Infix(l, op, r)) == Yield(l) + [op] + Yield(r);
  }

  lemma {:induction false} ChainSound(level: nat, left: Tree, ts: seq<Token>)
    requires 2 <= level <= TOP && Derives(level, left)
    ensures var r := Chain(level, left, ts);
            r.Parsed? ==> Derives(level, r.tree) && Yield(left) + ts == Yield(r.tree) + r.rest
    decreases |ts|, level, 0
  {
    hide Chain, ParseLevel, BinaryLevel;
    ChainStep(level, left, ts);
    if ts != [] && BinaryLevel(ts[0]) == level {
      LevelSound(level - 1, ts[1..]);
      var r := ParseLevel(level - 1, ts[1..]);
      if r.Parsed? {
        ChainSound(level, Infix(left, ts[0], r.tree), r.rest);
        InfixYield(left, ts[0], r.tree, r.rest);
        assert ts == [ts[0]] + ts[1..];
      }
    }
  }

  lemma {:induction false} LevelSound(level: nat, ts: seq<Token>)
    requires level <= TOP
    ensures var r := ParseLevel(level, ts); r.Parsed? ==> Derives(level, r.tree) && ts == Yield(r.tree) + r.rest
    decreases |ts|, level, 1
  {
    if level == 0 {
      BaseSound(ts);
    } else if level == 1 {
      if ts != [] && IsPrefix(ts[0]) {
        LevelSound(1, ts[1..]);
      } else {
        LevelSound(0, ts);
        DerivesUp(ts, level);
      }
    } else {
      LevelSound(level - 1, ts);
      DerivesUp(ts, level);
      var l := ParseLevel(level - 1, ts);
      if l.Parsed? {
        ChainSound(level, l.tree, l.rest);
      }
    }
  }

  /** Every derivation is one of an expression. */
  lemma DerivesTop(level: nat, t: Tree)
    requires level <= TOP && Derives(level, t)
    ensures Derives(TOP, t)
  {
  }

  // ---- Completeness: every derivation is found ---------------------------------------

  /** `rest` does not begin with an operator of any level from 2 to `level`. */
  predicate Stops(level: nat, rest: seq<Token>) {
    rest == [] || !(2 <= BinaryLevel(rest[0]) <= level)
  }

  lemma {:induction false} BaseComplete(t: Tree, rest: seq<Token>)
    requires Derives(0, t)
    ensures ParseBase(Yield(t) + rest) == Parsed(t, rest)
    decreases t, 0, 0
  {
    if t.Paren? {
      LevelComplete(TOP, t.inner, [R_PAREN] + rest);
      assert (Yield(t) + rest)[1..] == Yield(t.inner) + ([R_PAREN] + rest);
    } else {
      assert (Yield(t) + rest)[1..] == rest;
    }
  }

  /** Whatever operator follows, a derivation is gathered whole before it. */
  lemma {:induction false} ChainComplete(level: nat, t: Tree, rest: seq<Token>)
    requires 2 <= level <= TOP && Derives(level, t) && Stops(level - 1, rest)
    ensures ParseLevel(level, Yield(t) + rest) == Chain(level, t, rest)
    decreases t, level, 0
  {
    hide Chain, ParseLevel;
    BinaryStep(level, Yield(t) + rest);
    if t.Infix? && BinaryLevel(t.iop) == level {
      var after := [t.iop] + Yield(t.right) + rest;
      ChainComplete(level, t.left, after);
      LevelComplete(level - 1, t.right, rest);
      InfixYield(t.left, t.iop, t.right, rest);
      assert after == [t.iop] + (Yield(t.right) + rest);
      assert after[1..] == Yield(t.right) + rest;
      ChainStep(level, t.left, after);
    } else {
      LevelComplete(level - 1, t, rest);
    }
  }

  lemma {:induction false} LevelComplete(level: nat, t: Tree, rest: seq<Token>)
    requires level <= TOP && Derives(level, t) && Stops(level, rest)
    ensures ParseLevel(level, Yield(t) + rest) == Parsed(t, rest)
    decreases t, level, 1
  {
    hide Chain, ParseLevel, ParseBase;
    UnaryStep(Yield(t) + rest);
    if level == 0 {
      BaseComplete(t, rest);
    } else if level == 1 {
      if t.Prefix? {
        LevelComplete(1, t.operand, rest);
        assert (Yield(t) + rest)[1..] == Yield(t.operand) + rest;
      } else {
        LevelComplete(0, t, rest);
      }
    } else {
      ChainComplete(level, t, rest);
      ChainStep(level, t, rest);
    }
  }

  /** The deterministic parser accepts exactly the derivable token lists, and returns the derivation. */
  lemma ParseExact(ts: seq<Token>, t: Tree)
    ensures Parse(ts) == Some(t) <==> Derives(TOP, t) && Yield(t) == ts
  {
    if Parse(ts) == Some(t) {
      LevelSound(TOP, ts);
    }
    if Derives(TOP, t) && Yield(t) == ts {
      LevelComplete(TOP, t, []);
      assert Yield(t) + [] == ts;
    }
  }

  /** The grammar is unambiguous. */
  lemma Unambiguous(t1: Tree, t2: Tree)
    requires Derives(TOP, t1) && Derives(TOP, t2) && Yield(t1) == Yield(t2)
    ensures t1 == t2
  {
    ParseExact(Yield(t1), t1);
    ParseExact(Yield(t1), t2);
  }

  // ---- The productions, operator by operator -----------------------------------------------

  const MULTIPLICATIVE: set<Token> := {T_MUL, T_DIV, T_MOD}
  const ADDITIVE: set<Token> := {T_PLUS, T_MINUS}
  const ORDERING: set<Token> := {T_LT, T_GT, T_LE, T_GE}
  const EQUALITY: set<Token> := {T_EQ, T_NE}
  const CONJUNCTION: set<Token> := {T_AND, KW_AND}
  const DISJUNCTION: set<Token> := {T_OR, KW_OR}
  const EXCLUSION: set<Token> := {T_XOR, KW_XOR}

  /** The classes of operators, the tightest first. */
  function Class(k: nat): set<Token> {
    match k
    case 0 => MULTIPLICATIVE
    case 1 => ADDITIVE
    case 2 => ORDERING
    case 3 => EQUALITY
    case 4 => CONJUNCTION
    case 5 => DISJUNCTION
    case 6 => EXCLUSION
    case _ => {}
  }

  /** `t` is an infix tree of one of these operators, over a left and a right operand of the given levels. */
  predicate Production(ops: set<Token>, t: Tree, left: nat, right: nat) {
    t.Infix? && t.iop in ops && Derives(left, t.left) && Derives(right, t.right)
  }

  /** Which operators belong to which level. */
  lemma OperatorLevels(o: Token)
    ensures o in MULTIPLICATIVE <==> BinaryLevel(o) == 2
    ensures o in ADDITIVE <==> BinaryLevel(o) == 3
    ensures o in ORDERING <==> BinaryLevel(o) == 4
    ensures o in EQUALITY <==> BinaryLevel(o) == 5
    ensures o in CONJUNCTION <==> BinaryLevel(o) == 6
    ensures o in DISJUNCTION <==> BinaryLevel(o) == 7
    ensures o in EXCLUSION <==> BinaryLevel(o) == 8
  {
  }

  lemma InfixProduction(level: nat, t: Tree)
    requires level >= 2
    ensures Derives(level, t) <==>
            || Derives(level - 1, t)
            || (t.Infix? && BinaryLevel(t.iop) == level && Derives(level, t.left) && Derives(level - 1, t.right))
  {
    hide BinaryLevel;
  }

  /** What each nonterminal of the grammar derives, from the base expressions up. */
  lemma Productions(t: Tree)
    ensures Derives(0, t) <==> (t.Leaf? && IsAtom(t.tok)) || (t.Paren? && Derives(8, t.inner))
    ensures Derives(1, t) <==>
            Derives(0, t) || (t.Prefix? && t.op in {T_PLUS, T_MINUS, KW_NOT} && Derives(1, t.operand))
    ensures Derives(2, t) <==> Derives(1, t) || Production(MULTIPLICATIVE, t, 2, 1)
    ensures Derives(3, t) <==> Derives(2, t) || Production(ADDITIVE, t, 3, 2)
    ensures Derives(4, t) <==> Derives(3, t) || Production(ORDERING, t, 4, 3)
    ensures Derives(5, t) <==> Derives(4, t) || Production(EQUALITY, t, 5, 4)
    ensures Derives(6, t) <==> Derives(5, t) || Production(CONJUNCTION, t, 6, 5)
    ensures Derives(7, t) <==> Derives(6, t) || Production(DISJUNCTION, t, 7, 6)
    ensures Derives(8, t) <==> Derives(7, t) || Production(EXCLUSION, t, 8, 7)
  {
    UnaryProductions(t);
    hide Derives, BinaryLevel, IsAtom;
    for k := 2 to 9
      invariant forall i :: 2 <= i < k ==>
        (Derives(i, t) <==>
         || Derives(i - 1, t)
         || (t.Infix? && BinaryLevel(t.iop) == i && Derives(i, t.left) && Derives(i - 1, t.right)))
    {
      InfixProduction(k, t);
    }
    if t.Infix? {
      OperatorLevels(t.iop);
    }
  }

  lemma UnaryProductions(t: Tree)
    ensures Derives(0, t) <==> (t.Leaf? && IsAtom(t.tok)) || (t.Paren? && Derives(8, t.inner))
    ensures Derives(1, t) <==>
            Derives(0, t) || (t.Prefix? && t.op in {T_PLUS, T_MINUS, KW_NOT} && Derives(1, t.operand))
  {
  }

  // ---- Who binds tighter ---------------------------------------------------------------------

  ghost predicate IsOperator(o: Token) {
    exists k :: o in Class(k)
  }

  /** `o1` is of an earlier class than `o2`. */
  ghost predicate Tighter(o1: Token, o2: Token) {
    exists j, k :: j < k && o1 in Class(j) && o2 in Class(k)
  }

  lemma ClassIsLevel(o: Token, k: nat)
    ensures o in Class(k) <==> 2 <= BinaryLevel(o) == k + 2
  {
    hide BinaryLevel;
    OperatorLevels(o);
  }

  lemma OperatorClass(o: Token) returns (k: nat)
    requires IsOperator(o)
    ensures o in Class(k) && 2 <= BinaryLevel(o) == k + 2
  {
    hide BinaryLevel, Class;
    k :| o in Class(k);
    ClassIsLevel(o, k);
  }

  lemma TighterClasses(o1: Token, o2: Token) returns (j: nat, k: nat)
    requires Tighter(o1, o2)
    ensures j < k && o1 in Class(j) && o2 in Class(k)
  {
    hide BinaryLevel, Class;
    j, k :| j < k && o1 in Class(j) && o2 in Class(k);
  }

  lemma TighterIsLower(o1: Token, o2: Token)
    requires IsOperator(o1) && IsOperator(o2)
    ensures 2 <= BinaryLevel(o1) <= TOP && 2 <= BinaryLevel(o2) <= TOP
    ensures Tighter(o1, o2) <==> BinaryLevel(o1) < BinaryLevel(o2)
  {
    hide BinaryLevel, Class, IsOperator;
    var j := OperatorClass(o1);
    var k := OperatorClass(o2);
    if Tighter(o1, o2) {
      var j', k' := TighterClasses(o1, o2);
      ClassIsLevel(o1, j');
      ClassIsLevel(o2, k');
    }
  }

  /** A derivation of a lower level is one of every higher level. */
  lemma DerivesHigher(low: nat, high: nat, t: Tree)
    requires low <= high && Derives(low, t)
    ensures Derives(high, t)
  {
  }

  /** Two operators between three operands without parentheses: the second groups first exactly if it is
      of a tighter class; operators of one class group to the left. */
  lemma Precedence(a: Tree, o1: Token, b: Tree, o2: Token, c: Tree)
    requires Derives(1, a) && Derives(1, b) && Derives(1, c) && IsOperator(o1) && IsOperator(o2)
    ensures Parse(Yield(a) + [o1] + Yield(b) + [o2] + Yield(c))
            == Some(if Tighter(o2, o1) then Infix(a, o1, Infix(b, o2, c)) else Infix(Infix(a, o1, b), o2, c))
  {
    hide BinaryLevel, IsOperator, Tighter, Parse;
    TighterIsLower(o2, o1);
    var k1, k2 := BinaryLevel(o1), BinaryLevel(o2);
    DerivesHigher(1, k1, a);
    DerivesHigher(1, k2 - 1, c);
    var ts := Yield(a) + [o1] + Yield(b) + [o2] + Yield(c);
    if k2 < k1 {
      DerivesHigher(1, k2, b);
      assert Derives(k2, Infix(b, o2, c));
      DerivesHigher(k2, k1 - 1, Infix(b, o2, c));
      var t := Infix(a, o1, Infix(b, o2, c));
      DerivesHigher(k1, TOP, t);
      assert Yield(t) == Yield(a) + [o1] + (Yield(b) + [o2] + Yield(c)) == ts;
      ParseExact(ts, t);
    } else {
      DerivesHigher(1, k1 - 1, b);
      assert Derives(k1, Infix(a, o1, b));
      DerivesHigher(k1, k2, Infix(a, o1, b));
      var t := Infix(Infix(a, o1, b), o2, c);
      DerivesHigher(k2, TOP, t);
      ParseExact(ts, t);
    }
  }

  /** A prefix operator takes the next operand only. */
  lemma PrefixBindsTightest(op: Token, a: Tree, o: Token, b: Tree)
    requires Derives(1, a) && Derives(1, b) && op in {T_PLUS, T_MINUS, KW_NOT} && IsOperator(o)
    ensures Parse([op] + Yield(a) + [o] + Yield(b)) == Some(Infix(Prefix(op, a), o, b))
  {
    hide BinaryLevel, IsOperator, Parse;
    TighterIsLower(o, o);
    var k, t := BinaryLevel(o), Infix(Prefix(op, a), o, b);
    assert Derives(1, Prefix(op, a));
    DerivesHigher(1, k, Prefix(op, a));
    DerivesHigher(1, k - 1, b);
    DerivesHigher(k, TOP, t);
    ParseExact(Yield(t), t);
  }
}
