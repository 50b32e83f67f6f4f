/** The tokens the scanner hands to the parser. */
module Tokens {
  import opened Expressions

  datatype Token =
    | KW_AND | KW_OR | KW_NOT | KW_XOR
    | L_PAREN | R_PAREN | L_BRACKET | R_BRACKET | L_BRACE | R_BRACE
    | COMMA | DOT | COLON | SEMICOLON | AT | ASSIGN | L_ARROW | R_ARROW
    | T_LT | T_LE | T_GT | T_GE | T_EQ | T_NE
    | T_PLUS | T_MINUS | T_MUL | T_DIV | T_MOD | T_NOT
    | T_OR | T_AND | T_XOR
    | BOOL(b: bool) | INTEGER(n: nat) | DOUBLE(d: Double) | VARIABLE(name: string) | STRING(text: string)

  /** One more than the largest literal the parser accepts. */
  const MAX_ABS_INTEGER: nat := 0x8000_0000_0000_0000
}
