/** The scanner: a table of rules, and the longest match that the first of them wins. */
module Scanner {
  import opened Expressions
  import opened Options
  import opened Tokens
  import opened Literals

  // ---- Character classes -------------------------------------------------------

  predicate IsAlpha(c: char) {
    'a' <= c <= 'z' || 'A' <= c <= 'Z'
  }

  predicate IsDigit(c: char) {
    '0' <= c <= '9'
  }

  predicate IsIdent(c: char) {
    IsAlpha(c) || IsDigit(c) || c == '_'
  }

  datatype CharClass = IDENT | DIGIT | HEX | OCT

  predicate InClass(k: CharClass, c: char) {
    match k
    case IDENT => IsIdent(c)
    case DIGIT => IsDigit(c)
    case HEX => IsDigitOf(16, c)
    case OCT => IsDigitOf(8, c)
  }

  predicate AllIn(k: CharClass, s: string) {
    forall i :: 0 <= i < |s| ==> InClass(k, s[i])
  }

  /** The length of the longest prefix within a class. */
  function Span(k: CharClass, s: string): (n: nat)
    ensures n <= |s| && AllIn(k, s[..n])
    ensures n < |s| ==> !InClass(k, s[n])
  {
    if s == "" || !InClass(k, s[0]) then 0
    else
      var m := Span(k, s[1..]);
      assert forall i :: 0 < i < 1 + m ==> s[i] == s[1..][..m][i - 1];
      1 + m
  }

  // ---- The rules ------------------------------------------------------------------

  /** In the order of the rule file. */
  datatype Rule =
    | WORD_OR | WORD_AND | WORD_NOT | WORD_XOR
    | PUNCTUATION
    | WORD_TRUE | WORD_FALSE
    | NAME | HEXADECIMAL | OCTAL | DECIMAL | POINT_AFTER | POINT_BEFORE
    | DOLLAR_NAME | BLANK | NEWLINE

  function Rank(r: Rule): nat {
    match r
    case WORD_OR => 0 case WORD_AND => 1 case WORD_NOT => 2 case WORD_XOR => 3
    case PUNCTUATION => 4
    case WORD_TRUE => 5 case WORD_FALSE => 6
    case NAME => 7 case HEXADECIMAL => 8 case OCTAL => 9 case DECIMAL => 10
    case POINT_AFTER => 11 case POINT_BEFORE => 12
    case DOLLAR_NAME => 13 case BLANK => 14 case NEWLINE => 15
  }

  function ToUpper(c: char): char {
    if 'a' <= c <= 'z' then ((c as int) - 32) as char else c
  }

  /** `w` spells the lower-case word `t`, in letters of either case. */
  predicate Spells(w: string, t: string) {
    |w| == |t| && forall i :: 0 <= i < |w| ==> w[i] == t[i] || w[i] == ToUpper(t[i])
  }

  predicate IsName(w: string) {
    w != "" && IsAlpha(w[0]) && AllIn(IDENT, w)
  }

  function SingleChar(c: char): (t: Option<Token>) {
    match c
    case '.' => Some(DOT) case ',' => Some(COMMA) case ':' => Some(COLON) case ';' => Some(SEMICOLON)
    case '@' => Some(AT) case '+' => Some(T_PLUS) case '-' => Some(T_MINUS) case '*' => Some(T_MUL)
    case '/' => Some(T_DIV) case '%' => Some(T_MOD) case '!' => Some(T_NOT) case '^' => Some(T_XOR)
    case '<' => Some(T_LT) case '>' => Some(T_GT) case '=' => Some(ASSIGN)
    case '(' => Some(L_PAREN) case ')' => Some(R_PAREN) case '[' => Some(L_BRACKET) case ']' => Some(R_BRACKET)
    case '{' => Some(L_BRACE) case '}' => Some(R_BRACE)
    case _ => None
  }

  function DoubleChar(c: char, d: char): (t: Option<Token>) {
    if c == '<' && d == '=' then Some(T_LE)
    else if c == '>' && d == '=' then Some(T_GE)
    else if c == '=' && d == '=' then Some(T_EQ)
    else if c == '!' && d == '=' then Some(T_NE)
    else if c == '|' && d == '|' then Some(T_OR)
    else if c == '&' && d == '&' then Some(T_AND)
    else if c == '<' && d == '-' then Some(L_ARROW)
    else if c == '-' && d == '>' then Some(R_ARROW)
    else None
  }

  predicate IsPunctuation(w: string) {
    || (|w| == 1 && SingleChar(w[0]).Some?)
    || (|w| == 2 && DoubleChar(w[0], w[1]).Some?)
  }

  /** Digits with one point, which is at position `p`. */
  predicate PointAt(w: string, p: nat) {
    p < |w| && w[p] == '.' && forall i :: 0 <= i < |w| && i != p ==> IsDigit(w[i])
  }

  /** The text `w` as a whole matches the pattern of the rule. */
  ghost predicate Matches(r: Rule, w: string) {
    match r
    case WORD_OR => Spells(w, "or")
    case WORD_AND => Spells(w, "and")
    case WORD_NOT => Spells(w, "not")
    case WORD_XOR => Spells(w, "xor")
    case PUNCTUATION => IsPunctuation(w)
    case WORD_TRUE => Spells(w, "true")
    case WORD_FALSE => Spells(w, "false")
    case NAME => IsName(w)
    case HEXADECIMAL => IsHexText(w)
    case OCTAL => IsOctText(w)
    case DECIMAL => w != "" && AllIn(DIGIT, w)
    case POINT_AFTER => exists p: nat :: p >= 1 && PointAt(w, p)
    case POINT_BEFORE => exists p: nat :: p < |w| - 1 && PointAt(w, p)
    case DOLLAR_NAME => |w| >= 2 && w[0] == '$' && IsName(w[1..])
    case BLANK => w == " " || w == "\r" || w == "\t"
    case NEWLINE => w == "\n"
  }

  /** The match of `r` on `k` characters is preferred to that of `r'` on `k'`, or is the same. */
  predicate Preferred(r: Rule, k: nat, r': Rule, k': nat) {
    k' < k || (k' == k && Rank(r) <= Rank(r'))
  }

  /** Of all rules and all prefixes of the input, `r` on the first `k` characters is the longest match,
      and of those the first in the rule file. */
  ghost predicate LongestFirst(s: string, r: Rule, k: nat) {
    && 1 <= k <= |s| && Matches(r, s[..k])
    && forall r', k': nat {:trigger Matches(r', s[..k'])} :: k' <= |s| && Matches(r', s[..k']) ==> Preferred(r, k, r', k')
  }

  // ---- Finding the match ------------------------------------------------------------

  datatype Lexeme = NoMatch | Lexeme(rule: Rule, length: nat)

  function WordRule(w: string): Rule {
    if Spells(w, "or") then WORD_OR
    else if Spells(w, "and") then WORD_AND
    else if Spells(w, "not") then WORD_NOT
    else if Spells(w, "xor") then WORD_XOR
    else if Spells(w, "true") then WORD_TRUE
    else if Spells(w, "false") then WORD_FALSE
    else NAME
  }

  function NumberLexeme(s: string): Lexeme
    requires s != "" && IsDigit(s[0])
  {
    if s[0] == '0' && |s| > 2 && (s[1] == 'x' || s[1] == 'X') && InClass(HEX, s[2]) then
      Lexeme(HEXADECIMAL, 2 + Span(HEX, s[2..]))
    else
      var d := Span(DIGIT, s);
      if d < |s| && s[d] == '.' then Lexeme(POINT_AFTER, d + 1 + Span(DIGIT, s[d + 1..]))
      else if s[0] == '0' && d >= 2 && Span(OCT, s) == d then Lexeme(OCTAL, d)
      else Lexeme(DECIMAL, d)
  }

  function PunctuationLexeme(s: string): Lexeme
    requires s != ""
  {
    if |s| > 1 && DoubleChar(s[0], s[1]).Some? then Lexeme(PUNCTUATION, 2)
    else if SingleChar(s[0]).Some? then Lexeme(PUNCTUATION, 1)
    else NoMatch
  }

  function NextLexeme(s: string): (l: Lexeme)
    requires s != ""
    ensures l.Lexeme? ==> 1 <= l.length <= |s|
  {
    var c := s[0];
    if IsAlpha(c) then Lexeme(WordRule(s[..Span(IDENT, s)]), Span(IDENT, s))
    else if c == '$' then
      if |s| > 1 && IsAlpha(s[1]) then Lexeme(DOLLAR_NAME, 1 + Span(IDENT, s[1..])) else NoMatch
    else if IsDigit(c) then NumberLexeme(s)
    else if c == '.' && |s| > 1 && IsDigit(s[1]) then Lexeme(POINT_BEFORE, 1 + Span(DIGIT, s[1..]))
    else if c == ' ' || c == '\r' || c == '\t' then Lexeme(BLANK, 1)
    else if c == '\n' then Lexeme(NEWLINE, 1)
    else PunctuationLexeme(s)
  }

  // ---- The match found is the one the rules prescribe -----------------------------------

  /** A prefix within a class is no longer than the span. */
  lemma {:induction false} SpanIsLongest(k: CharClass, s: string, n: nat)
    requires n <= |s| && AllIn(k, s[..n])
    ensures n <= Span(k, s)
  {
    if n > 0 {
      assert s[..n][0] == s[0];
      assert s[1..][..n - 1] == s[..n][1..];
      SpanIsLongest(k, s[1..], n - 1);
    }
  }

  lemma SpanMembers(k: CharClass, s: string)
    ensures forall i :: 0 <= i < Span(k, s) ==> InClass(k, s[i])
  {
    assert forall i :: 0 <= i < Span(k, s) ==> s[i] == s[..Span(k, s)][i];
  }

  /** The first character decides which rules can match at all. */
  lemma FirstChar(r: Rule, w: string)
    requires Matches(r, w)
    ensures w != ""
    ensures IsAlpha(w[0]) <==> r in {WORD_OR, WORD_AND, WORD_NOT, WORD_XOR, WORD_TRUE, WORD_FALSE, NAME}
    ensures w[0] == '$' <==> r == DOLLAR_NAME
    ensures IsDigit(w[0]) <==> r in {HEXADECIMAL, OCTAL, DECIMAL, POINT_AFTER}
                               || (r == POINT_BEFORE && w[0] != '.')
    ensures r == POINT_BEFORE && w[0] == '.' ==> |w| > 1 && IsDigit(w[1])
    ensures (w[0] == ' ' || w[0] == '\r' || w[0] == '\t') <==> r == BLANK
    ensures w[0] == '\n' <==> r == NEWLINE
  {
    match r {
      case POINT_AFTER =>
        var p: nat :| p >= 1 && PointAt(w, p);
      case POINT_BEFORE =>
        var p: nat :| p < |w| - 1 && PointAt(w, p);
      case _ =>
    }
  }

  lemma FirstOfPrefix(r: Rule, s: string, k: nat)
    requires s != "" && k <= |s| && Matches(r, s[..k]) && !IsAlpha(s[0]) && s[0] != '$' && !IsDigit(s[0])
    ensures k >= 1 && r in {PUNCTUATION, POINT_BEFORE, BLANK, NEWLINE}
    ensures r == POINT_BEFORE ==> s[0] == '.' && |s| > 1 && IsDigit(s[1])
    ensures (s[0] == ' ' || s[0] == '\r' || s[0] == '\t') <==> r == BLANK
    ensures s[0] == '\n' <==> r == NEWLINE
  {
    FirstChar(r, s[..k]);
  }

  /** Word rules match identifiers only. */
  lemma WordIsIdent(r: Rule, w: string)
    requires Matches(r, w) && w != "" && IsAlpha(w[0])
    ensures AllIn(IDENT, w) && Rank(WordRule(w)) <= Rank(r)
  {
    FirstChar(r, w);
  }

  ghost predicate NoRuleMatches(s: string) {
    forall r, k: nat :: k <= |s| ==> !Matches(r, s[..k])
  }

  lemma NameLongest(s: string)
    requires s != "" && IsAlpha(s[0])
    ensures var n := Span(IDENT, s); LongestFirst(s, WordRule(s[..n]), n)
  {
    var n := Span(IDENT, s);
    assert n >= 1;
    forall r, k: nat | k <= |s| && Matches(r, s[..k])
      ensures Preferred(WordRule(s[..n]), n, r, k)
    {
      FirstChar(r, s[..k]);
      WordIsIdent(r, s[..k]);
      SpanIsLongest(IDENT, s, k);
    }
  }

  lemma DollarLongest(s: string)
    requires s != "" && s[0] == '$'
    ensures if |s| > 1 && IsAlpha(s[1]) then LongestFirst(s, DOLLAR_NAME, 1 + Span(IDENT, s[1..]))
            else NoRuleMatches(s)
  {
    var n := if |s| > 1 && IsAlpha(s[1]) then 1 + Span(IDENT, s[1..]) else 0;
    forall r, k: nat | k <= |s| && Matches(r, s[..k])
      ensures |s| > 1 && IsAlpha(s[1]) && k <= n && r == DOLLAR_NAME
    {
      FirstChar(r, s[..k]);
      assert s[..k][1..] == s[1..][..k - 1];
      SpanIsLongest(IDENT, s[1..], k - 1);
    }
    if n > 0 {
      assert s[..n][1..] == s[1..][..n - 1];
    }
  }

  lemma PointSpan(s: string, k: nat, p: nat)
    requires k <= |s| && PointAt(s[..k], p)
    ensures s[p] == '.' && p == Span(DIGIT, s)
  {
    assert s[..k][p] == s[p];
    forall i | 0 <= i < p
      ensures InClass(DIGIT, s[..p][i])
    {
      assert s[..k][i] == s[..p][i];
    }
    SpanIsLongest(DIGIT, s, p);
    SpanMembers(DIGIT, s);
    assert !InClass(DIGIT, s[p]);
  }

  lemma PointTail(s: string, k: nat, p: nat)
    requires k <= |s| && PointAt(s[..k], p)
    ensures k - p - 1 <= Span(DIGIT, s[p + 1..])
  {
    var rest := s[p + 1..][..k - p - 1];
    forall i | 0 <= i < |rest|
      ensures InClass(DIGIT, rest[i])
    {
      assert rest[i] == s[..k][p + 1 + i];
    }
    SpanIsLongest(DIGIT, s[p + 1..], k - p - 1);
  }

  lemma PointWhere(s: string, k: nat, p: nat)
    requires k <= |s| && PointAt(s[..k], p)
    ensures p == Span(DIGIT, s) && s[p] == '.' && k - p - 1 <= Span(DIGIT, s[p + 1..])
  {
    PointSpan(s, k, p);
    PointTail(s, k, p);
  }

  lemma HexadecimalBound(s: string, k: nat)
    requires s != "" && k <= |s| && IsHexText(s[..k])
    ensures IsDigit(s[0]) && NumberLexeme(s).rule == HEXADECIMAL && k <= NumberLexeme(s).length
  {
    var w := s[..k];
    assert s[2] == w[2] && w[2..][0] == w[2];
    assert w[2..] == s[2..][..k - 2];
    SpanIsLongest(HEX, s[2..], k - 2);
  }

  lemma OctInDigit(s: string)
    ensures Span(OCT, s) <= Span(DIGIT, s)
  {
    SpanIsLongest(DIGIT, s, Span(OCT, s));
  }

  lemma OctalBound(s: string, k: nat)
    requires s != "" && k <= |s| && IsOctText(s[..k])
    ensures IsDigit(s[0]) && Preferred(NumberLexeme(s).rule, NumberLexeme(s).length, OCTAL, k)
  {
    var w := s[..k];
    assert w[1..][0] == s[1];
    assert forall i :: 1 <= i < k ==> w[1..][i - 1] == s[i];
    assert AllIn(DIGIT, w) && AllIn(OCT, w);
    SpanIsLongest(DIGIT, s, k);
    SpanIsLongest(OCT, s, k);
    OctInDigit(s);
  }

  /** No rule matches more of a number than `NumberLexeme` takes. */
  lemma NumberBound(s: string, r: Rule, k: nat)
    requires s != "" && IsDigit(s[0]) && k <= |s| && Matches(r, s[..k])
    ensures var l := NumberLexeme(s); Preferred(l.rule, l.length, r, k)
  {
    var w := s[..k];
    FirstChar(r, w);
    match r {
      case HEXADECIMAL => HexadecimalBound(s, k);
      case OCTAL => OctalBound(s, k);
      case DECIMAL =>
        SpanIsLongest(DIGIT, s, k);
        if k >= 2 {
          assert w[1] == s[1];
        }
      case POINT_AFTER =>
        var p: nat :| p >= 1 && PointAt(w, p);
        PointWhere(s, k, p);
        assert w[1] == s[1];
      case POINT_BEFORE =>
        var p: nat :| p < |w| - 1 && PointAt(w, p);
        PointWhere(s, k, p);
        assert w[1] == s[1];
    }
  }

  lemma NumberMatches(s: string)
    requires s != "" && IsDigit(s[0])
    ensures var l := NumberLexeme(s); 1 <= l.length <= |s| && Matches(l.rule, s[..l.length])
  {
    var l := NumberLexeme(s);
    var w := s[..l.length];
    match l.rule {
      case HEXADECIMAL =>
        assert w[2..] == s[2..][..l.length - 2];
      case POINT_AFTER =>
        var d := Span(DIGIT, s);
        assert forall i :: 0 <= i < d ==> w[i] == s[..d][i];
        assert forall i :: d < i < |w| ==> w[i] == s[d + 1..][..l.length - d - 1][i - d - 1];
        assert PointAt(w, d);
      case OCTAL =>
        assert forall i :: 0 <= i < |w| - 1 ==> w[1..][i] == s[..Span(OCT, s)][i + 1];
      case DECIMAL =>
    }
  }

  lemma NumberLongest(s: string)
    requires s != "" && IsDigit(s[0])
    ensures var l := NumberLexeme(s); LongestFirst(s, l.rule, l.length)
  {
    NumberMatches(s);
    var l := NumberLexeme(s);
    forall r, k: nat | k <= |s| && Matches(r, s[..k])
      ensures Preferred(l.rule, l.length, r, k)
    {
      NumberBound(s, r, k);
    }
  }

  lemma PointLongest(s: string)
    requires |s| > 1 && s[0] == '.' && IsDigit(s[1])
    ensures LongestFirst(s, POINT_BEFORE, 1 + Span(DIGIT, s[1..]))
  {
    var n := 1 + Span(DIGIT, s[1..]);
    var w := s[..n];
    assert forall i :: 1 <= i < n ==> w[i] == s[1..][..n - 1][i - 1];
    assert n >= 2 && PointAt(w, 0);
    forall r, k: nat | k <= |s| && Matches(r, s[..k])
      ensures Preferred(POINT_BEFORE, n, r, k)
    {
      FirstChar(r, s[..k]);
      if r == POINT_BEFORE {
        var p: nat :| p < k - 1 && PointAt(s[..k], p);
        PointWhere(s, k, p);
      }
    }
  }

  lemma OtherLongest(s: string)
    requires s != "" && !IsAlpha(s[0]) && s[0] != '$' && !IsDigit(s[0])
    requires !(s[0] == '.' && |s| > 1 && IsDigit(s[1]))
    ensures var l := NextLexeme(s); if l.NoMatch? then NoRuleMatches(s) else LongestFirst(s, l.rule, l.length)
  {
    var l := NextLexeme(s);
    if l.Lexeme? {
      var w := s[..l.length];
      assert l.length == 1 ==> w == [s[0]];
      assert l.length == 2 ==> w == [s[0], s[1]];
      assert Matches(l.rule, w);
    }
    forall r, k: nat | k <= |s| && Matches(r, s[..k])
      ensures l.Lexeme? && Preferred(l.rule, l.length, r, k)
    {
      FirstOfPrefix(r, s, k);
    }
  }

  /** The scanner's choice is exactly longest match, earliest rule; it finds none only if no rule
      matches any prefix. */
  lemma NextIsLongestFirst(s: string)
    requires s != ""
    ensures var l := NextLexeme(s); if l.NoMatch? then NoRuleMatches(s) else LongestFirst(s, l.rule, l.length)
  {
    hide Matches, LongestFirst, NoRuleMatches;
    if IsAlpha(s[0]) {
      NameLongest(s);
    } else if s[0] == '$' {
      DollarLongest(s);
    } else if IsDigit(s[0]) {
      NumberLongest(s);
    } else if s[0] == '.' && |s| > 1 && IsDigit(s[1]) {
      PointLongest(s);
    } else {
      OtherLongest(s);
    }
  }

  lemma LexemeMatches(s: string)
    requires s != "" && NextLexeme(s).Lexeme?
    ensures Matches(NextLexeme(s).rule, s[..NextLexeme(s).length])
  {
    NextIsLongestFirst(s);
  }

  // ---- Tokens ---------------------------------------------------------------------------

  const MAX_STRING: nat := 4096

  /** The effect of a rule's action: a token, nothing (blanks), or an exception. */
  datatype Action = Emit(t: Token) | Skip | Throw

  function IntegerAction(l: Literal): Action {
    match l
    case Literal(n) => Emit(INTEGER(n))
    case OutOfRange => Throw
  }

  /** `toDouble` stands for the conversion of a decimal fraction, which may fail. */
  function RuleAction(toDouble: string -> Option<Double>, r: Rule, w: string): Action
    requires Matches(r, w)
  {
    match r
    case WORD_OR => Emit(KW_OR)
    case WORD_AND => Emit(KW_AND)
    case WORD_NOT => Emit(KW_NOT)
    case WORD_XOR => Emit(KW_XOR)
    case PUNCTUATION => Emit(if |w| == 2 then DoubleChar(w[0], w[1]).value else SingleChar(w[0]).value)
    case WORD_TRUE => Emit(BOOL(true))
    case WORD_FALSE => Emit(BOOL(false))
    case NAME => if |w| > MAX_STRING then Throw else Emit(STRING(w))
    case HEXADECIMAL => IntegerAction(Meant(16, w[2..]))
    case OCTAL => IntegerAction(Meant(8, w[1..]))
    case DECIMAL => IntegerAction(Meant(10, w))
    case POINT_AFTER => if toDouble(w).Some? then Emit(DOUBLE(toDouble(w).value)) else Throw
    case POINT_BEFORE => if toDouble(w).Some? then Emit(DOUBLE(toDouble(w).value)) else Throw
    case DOLLAR_NAME => Emit(VARIABLE(w[1..]))
    case BLANK => Skip
    case NEWLINE => Skip
  }

  function After(out: seq<Token>, rest: Option<seq<Token>>): Option<seq<Token>> {
    if rest.None? then None else Some(out + rest.value)
  }

  /** The tokens from a lexeme on, given its action and the tokens behind it. */
  function Then(action: Action, rest: Option<seq<Token>>): Option<seq<Token>> {
    match action
    case Throw => None
    case Skip => rest
    case Emit(t) => After([t], rest)
  }

  /** All tokens of a text; `None` when some character starts no token or an action throws. */
  function Scan(toDouble: string -> Option<Double>, s: string): (ts: Option<seq<Token>>) {
    if s == "" then Some([])
    else
      var l := NextLexeme(s);
      if l.NoMatch? then None
      else
        LexemeMatches(s);
        Then(RuleAction(toDouble, l.rule, s[..l.length]), Scan(toDouble, s[l.length..]))
  }

  method LiteralToken(r: Rule, text: string) returns (l: Literal)
    requires r == HEXADECIMAL || r == OCTAL || r == DECIMAL
    requires Matches(r, text)
    ensures r == HEXADECIMAL ==> l == Meant(16, text[2..])
    ensures r == OCTAL ==> l == Meant(8, text[1..])
    ensures r == DECIMAL ==> l == Meant(10, text)
  {
    if r == HEXADECIMAL {
      l := ScanHex(text);
    } else if r == OCTAL {
      l := ScanOct(text);
    } else {
      l := ScanDec(text);
    }
  }

  method ActionOf(toDouble: string -> Option<Double>, r: Rule, w: string) returns (action: Action)
    requires Matches(r, w)
    ensures action == RuleAction(toDouble, r, w)
  {
    if r == HEXADECIMAL || r == OCTAL || r == DECIMAL {
      var n := LiteralToken(r, w);
      action := IntegerAction(n);
    } else {
      action := RuleAction(toDouble, r, w);
    }
  }

  lemma AfterThen(out: seq<Token>, action: Action, rest: Option<seq<Token>>)
    ensures After(out, Then(action, rest)) ==
            match action
            case Throw => None
            case Skip => After(out, rest)
            case Emit(t) => After(out + [t], rest)
  {
    if action.Emit? && rest.Some? {
      assert out + ([action.t] + rest.value) == out + [action.t] + rest.value;
    }
  }

  /** One lexeme at a time, whatever has been scanned before it. */
  lemma ScanUnfolds(toDouble: string -> Option<Double>, s: string, out: seq<Token>)
    requires s != "" && NextLexeme(s).Lexeme?
    ensures var l := NextLexeme(s);
            && Matches(l.rule, s[..l.length])
            && After(out, Scan(toDouble, s)) ==
               match RuleAction(toDouble, l.rule, s[..l.length])
               case Throw => None
               case Skip => After(out, Scan(toDouble, s[l.length..]))
               case Emit(t) => After(out + [t], Scan(toDouble, s[l.length..]))
  {
    hide Matches, RuleAction, NextLexeme, Then, After;
    LexemeMatches(s);
    var l := NextLexeme(s);
    AfterThen(out, RuleAction(toDouble, l.rule, s[..l.length]), Scan(toDouble, s[l.length..]));
  }

  lemma AfterNothing(rest: Option<seq<Token>>)
    ensures After([], rest) == rest
  {
    if rest.Some? {
      assert [] + rest.value == rest.value;
    }
  }

  lemma ScanEnds(toDouble: string -> Option<Double>, out: seq<Token>)
    ensures After(out, Scan(toDouble, "")) == Some(out)
  {
    assert out + [] == out;
  }

  lemma ScanStops(toDouble: string -> Option<Double>, s: string, out: seq<Token>)
    requires s != "" && NextLexeme(s).NoMatch?
    ensures After(out, Scan(toDouble, s)) == None
  {
  }

  /** The scanner as it runs: a position moving over the input, one action per lexeme. */
  method ScanText(toDouble: string -> Option<Double>, text: string) returns (ts: Option<seq<Token>>)
    ensures ts == Scan(toDouble, text)
  {
    hide Scan, After, RuleAction, Matches, LongestFirst;
    var position := 0;
    var out: seq<Token> := [];
    assert text[0..] == text;
    AfterNothing(Scan(toDouble, text));
    while position < |text|
      invariant 0 <= position <= |text|
      invariant Scan(toDouble, text) == After(out, Scan(toDouble, text[position..]))
    {
      var s := text[position..];
      var l := NextLexeme(s);
      if l.NoMatch? {
        ScanStops(toDouble, s, out);
        return None;
      }
      ScanUnfolds(toDouble, s, out);
      var action := ActionOf(toDouble, l.rule, s[..l.length]);
      if action.Throw? {
        return None;
      }
      if action.Emit? {
        out := out + [action.t];
      }
      assert text[position + l.length..] == s[l.length..];
      position := position + l.length;
    }
    assert text[position..] == "";
    ScanEnds(toDouble, out);
    return Some(out);
  }
}
