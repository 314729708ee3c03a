/**
 * Tokens as the lexer hands them to the parser. The lexer itself is not
 * modelled: a token is already classified as one of the grammar's
 * string-literal terminals (`"("`, `"Op2"`, `"bvand"`, `"(define-fun"`, ...),
 * a name (`CNAME` or `_ID`) or a `NUMBER`. A name that spells a literal of its
 * grammar is turned into that literal by the lexer, so a `Name` never carries
 * a keyword of the grammar it was lexed for.
 */
module Tokens {

  datatype Token = Lit(text: string) | Name(text: string) | Num(text: string)

  /** A token list that starts with `a` is `a` followed by the rest. */
  lemma Cons1(toks: seq<Token>, a: Token)
    requires |toks| >= 1 && toks[0] == a
    ensures toks == [a] + toks[1..]
  {
  }

  /** A token list that starts with `a`, `b` is those two followed by the rest. */
  lemma Cons2(toks: seq<Token>, a: Token, b: Token)
    requires |toks| >= 2 && toks[0] == a && toks[1] == b
    ensures toks == [a, b] + toks[2..]
  {
  }

  /** A token list that starts with `a`, `b`, `c` is those three followed by the rest. */
  lemma Cons3(toks: seq<Token>, a: Token, b: Token, c: Token)
    requires |toks| >= 3 && toks[0] == a && toks[1] == b && toks[2] == c
    ensures toks == [a, b, c] + toks[3..]
  {
  }
}
