/**
 * The ADT grammar as a recursive-descent parser over tokens. The grammar is
 * decided by its first token or two: `(Op2 ...)`, `(Op1 ...)`, `(P n)` or a
 * constant, so the parser needs no backtracking. It is proved to be the exact
 * inverse of printing a parse tree as tokens.
 */
module AdtGrammar {
  import opened Wrappers
  import opened Tokens
  import opened AdtDialect

  /** The tokens of one `formula`, then `rest`. */
  function FormulaTokens(t: AdtFormula, rest: seq<Token>): seq<Token> {
    match t
    case Op2(op, lhs, rhs) =>
      [Lit("("), Lit("Op2"), Lit(op)] + FormulaTokens(lhs, FormulaTokens(rhs, [Lit(")")] + rest))
    case Op1(op, arg) => [Lit("("), Lit("Op1"), Lit(op)] + FormulaTokens(arg, [Lit(")")] + rest)
    case P(n) => [Lit("("), Lit("P"), Num(n), Lit(")")] + rest
    case Constant(c) => [Lit(c)] + rest
  }

  /** The tokens of `(define-fun name () Formula body)`. */
  function FunTokens(fun: AdtFun): seq<Token> {
    [Lit("(define-fun"), Name(fun.name), Lit("() Formula")] + FormulaTokens(fun.body, [Lit(")")])
  }

  /** One `formula` from the front of `toks`, and the tokens after it. */
  function ParseFormula(toks: seq<Token>): (r: Option<(AdtFormula, seq<Token>)>)
    ensures r.Some? ==> |r.value.1| < |toks|
    decreases |toks|, 0
  {
    if |toks| == 0 then None
    else if toks[0].Lit? && toks[0].text in ADT_CONSTANT_TOKENS then
      Some((Constant(toks[0].text), toks[1..]))
    else if |toks| < 3 || toks[0] != Lit("(") then None
    else if toks[1] == Lit("Op2") && toks[2].Lit? && toks[2].text in ADT_BINARY_TOKENS then
      ParseBinary(toks[2].text, toks[3..])
    else if toks[1] == Lit("Op1") && toks[2].Lit? && toks[2].text in ADT_UNARY_TOKENS then
      ParseUnary(toks[2].text, toks[3..])
    else ParseVariable(toks)
  }

  /** The two operands and the `)` of `(Op2 op lhs rhs)`. */
  function ParseBinary(op: string, toks: seq<Token>): (r: Option<(AdtFormula, seq<Token>)>)
    ensures r.Some? ==> |r.value.1| < |toks|
    decreases |toks|, 1
  {
    match ParseFormula(toks)
    case None => None
    case Some((lhs, afterLhs)) =>
      match ParseFormula(afterLhs)
      case None => None
      case Some((rhs, afterRhs)) => Close(Op2(op, lhs, rhs), afterRhs)
  }

  /** The operand and the `)` of `(Op1 op arg)`. */
  function ParseUnary(op: string, toks: seq<Token>): (r: Option<(AdtFormula, seq<Token>)>)
    ensures r.Some? ==> |r.value.1| < |toks|
    decreases |toks|, 1
  {
    match ParseFormula(toks)
    case None => None
    case Some((arg, afterArg)) => Close(Op1(op, arg), afterArg)
  }

  /** `(P n)`. */
  function ParseVariable(toks: seq<Token>): (r: Option<(AdtFormula, seq<Token>)>)
    ensures r.Some? ==> |r.value.1| < |toks|
  {
    if |toks| >= 4 && toks[0] == Lit("(") && toks[1] == Lit("P") && toks[2].Num? && toks[3] == Lit(")") then
      Some((P(toks[2].text), toks[4..]))
    else None
  }

  /** `t`, once the `)` that ends it has been read. */
  function Close(t: AdtFormula, toks: seq<Token>): (r: Option<(AdtFormula, seq<Token>)>)
    ensures r.Some? <==> |toks| > 0 && toks[0] == Lit(")")
    ensures r.Some? ==> r.value == (t, toks[1..])
  {
    if |toks| > 0 && toks[0] == Lit(")") then Some((t, toks[1..])) else None
  }

  /** `start`: the whole input must be one `(define-fun ...)`. */
  function ParseDefineFun(toks: seq<Token>): Option<AdtFun> {
    if |toks| >= 3 && toks[0] == Lit("(define-fun") && toks[1].Name? && toks[2] == Lit("() Formula") then
      match ParseFormula(toks[3..])
      case None => None
      case Some((body, rest)) =>
        if rest == [Lit(")")] then Some(DefineFun(toks[1].text, body)) else None
    else None
  }

  /** A formula's tokens parse back to that formula, whatever follows them. */
  lemma {:induction false} ParseFormulaTokens(t: AdtFormula, rest: seq<Token>)
    requires Conforms(t)
    ensures ParseFormula(FormulaTokens(t, rest)) == Some((t, rest))
  {
    match t
    case Op2(op, lhs, rhs) =>
      var afterRhs := [Lit(")")] + rest;
      ParseFormulaTokens(rhs, afterRhs);
      ParseFormulaTokens(lhs, FormulaTokens(rhs, afterRhs));
      DispatchBinary(op, FormulaTokens(lhs, FormulaTokens(rhs, afterRhs)));
      assert afterRhs[1..] == rest;
    case Op1(op, arg) =>
      var afterArg := [Lit(")")] + rest;
      ParseFormulaTokens(arg, afterArg);
      DispatchUnary(op, FormulaTokens(arg, afterArg));
      assert afterArg[1..] == rest;
    case P(n) =>
      var toks := FormulaTokens(t, rest);
      assert toks[0] == Lit("(") && toks[1] == Lit("P") && toks[2] == Num(n) && toks[3] == Lit(")");
      assert toks[4..] == rest;
    case Constant(c) =>
      var toks := FormulaTokens(t, rest);
      assert toks[0] == Lit(c) && toks[1..] == rest;
  }

  /** `(Op2 op` followed by anything is handed to `ParseBinary`. */
  lemma DispatchBinary(op: string, tail: seq<Token>)
    requires op in ADT_BINARY_TOKENS
    ensures ParseFormula([Lit("("), Lit("Op2"), Lit(op)] + tail) == ParseBinary(op, tail)
  {
    var toks := [Lit("("), Lit("Op2"), Lit(op)] + tail;
    assert toks[0] == Lit("(") && toks[1] == Lit("Op2") && toks[2] == Lit(op) && toks[3..] == tail;
  }

  /** `(Op1 op` followed by anything is handed to `ParseUnary`. */
  lemma DispatchUnary(op: string, tail: seq<Token>)
    requires op in ADT_UNARY_TOKENS
    ensures ParseFormula([Lit("("), Lit("Op1"), Lit(op)] + tail) == ParseUnary(op, tail)
  {
    var toks := [Lit("("), Lit("Op1"), Lit(op)] + tail;
    assert toks[0] == Lit("(") && toks[1] == Lit("Op1") && toks[2] == Lit(op) && toks[3..] == tail;
  }

  /** What the parser returns is a tree the grammar admits, printed by the consumed tokens. */
  lemma {:induction false} ParseFormulaSound(toks: seq<Token>, t: AdtFormula, rest: seq<Token>)
    requires ParseFormula(toks) == Some((t, rest))
    ensures Conforms(t) && toks == FormulaTokens(t, rest)
    decreases |toks|, 0
  {
    if toks[0].Lit? && toks[0].text in ADT_CONSTANT_TOKENS {
      Cons1(toks, toks[0]);
    } else if toks[1] == Lit("Op2") && toks[2].Lit? && toks[2].text in ADT_BINARY_TOKENS {
      var op := toks[2].text;
      Cons3(toks, Lit("("), Lit("Op2"), Lit(op));
      ParseBinarySound(op, toks[3..], t, rest);
    } else if toks[1] == Lit("Op1") && toks[2].Lit? && toks[2].text in ADT_UNARY_TOKENS {
      var op := toks[2].text;
      Cons3(toks, Lit("("), Lit("Op1"), Lit(op));
      ParseUnarySound(op, toks[3..], t, rest);
    } else {
      assert toks[..4] == [Lit("("), Lit("P"), Num(toks[2].text), Lit(")")];
      assert toks == toks[..4] + toks[4..];
    }
  }

  /** `ParseFormulaSound` for the operands of `(Op2 ...)`. */
  lemma {:induction false} ParseBinarySound(op: string, toks: seq<Token>, t: AdtFormula, rest: seq<Token>)
    requires op in ADT_BINARY_TOKENS
    requires ParseBinary(op, toks) == Some((t, rest))
    ensures Conforms(t) && [Lit("("), Lit("Op2"), Lit(op)] + toks == FormulaTokens(t, rest)
    decreases |toks|, 1
  {
    var (lhs, afterLhs) := ParseFormula(toks).value;
    ParseFormulaSound(toks, lhs, afterLhs);
    var (rhs, afterRhs) := ParseFormula(afterLhs).value;
    ParseFormulaSound(afterLhs, rhs, afterRhs);
    Cons1(afterRhs, Lit(")"));
    assert t == Op2(op, lhs, rhs) && rest == afterRhs[1..];
  }

  /** `ParseFormulaSound` for the operand of `(Op1 ...)`. */
  lemma {:induction false} ParseUnarySound(op: string, toks: seq<Token>, t: AdtFormula, rest: seq<Token>)
    requires op in ADT_UNARY_TOKENS
    requires ParseUnary(op, toks) == Some((t, rest))
    ensures Conforms(t) && [Lit("("), Lit("Op1"), Lit(op)] + toks == FormulaTokens(t, rest)
    decreases |toks|, 1
  {
    var (arg, afterArg) := ParseFormula(toks).value;
    ParseFormulaSound(toks, arg, afterArg);
    Cons1(afterArg, Lit(")"));
    assert t == Op1(op, arg) && rest == afterArg[1..];
  }

  /** Round trip of a whole definition. */
  lemma ParseFunTokens(fun: AdtFun)
    requires Conforms(fun.body)
    ensures ParseDefineFun(FunTokens(fun)) == Some(fun)
  {
    var toks := FunTokens(fun);
    assert toks[3..] == FormulaTokens(fun.body, [Lit(")")]);
    ParseFormulaTokens(fun.body, [Lit(")")]);
  }

  /** The parser accepts exactly the printed definitions. */
  lemma ParseFunSound(toks: seq<Token>)
    requires ParseDefineFun(toks).Some?
    ensures Conforms(ParseDefineFun(toks).value.body)
    ensures toks == FunTokens(ParseDefineFun(toks).value)
  {
    var (body, rest) := ParseFormula(toks[3..]).value;
    ParseFormulaSound(toks[3..], body, rest);
    Cons3(toks, Lit("(define-fun"), Name(toks[1].text), Lit("() Formula"));
  }
}
