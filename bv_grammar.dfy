/**
 * The bit-vector grammar as a recursive-descent parser over tokens, in two
 * readings of the let-block. The rule as written, `_let_vars: _let_vars |
 * let_exp`, relates `_let_vars` to itself without adding a token, so its
 * language is a single `let_exp`: `ParseBvFunAsWritten` reads it so. The
 * corrected reading `_let_vars: _let_vars let_exp | let_exp`, the shape of
 * the neighbouring rule `_vars`, takes one or more definitions: `ParseBvFun`.
 *
 * Each printer takes the tokens that follow what it prints, so that a
 * printed tree followed by more input is again a printer's result.
 */
module BvGrammar {
  import opened Wrappers
  import opened Tokens
  import opened BvDialect

  /** The texts of the name tokens. */
  function NameTexts(toks: seq<Token>): set<string> {
    if toks == [] then {} else (if toks[0].Name? then {toks[0].text} else {}) + NameTexts(toks[1..])
  }

  /** The lexer's guarantee: no name token spells a keyword. */
  predicate Lexed(toks: seq<Token>) {
    NameTexts(toks) !! BV_KEYWORDS
  }

  /** A tree whose names are not keywords uses only the grammar's operators and constants. */
  predicate Admitted(t: BvFormula) {
    Names(t) !! BV_KEYWORDS ==> Conforms(t)
  }

  // ---------------------------------------------------------------- printing

  /** The tokens of one `formula`, then `rest`. */
  function FormulaTokens(t: BvFormula, rest: seq<Token>): seq<Token> {
    match t
    case UnaryExpr(op, arg) => [Lit("("), Lit(op)] + FormulaTokens(arg, [Lit(")")] + rest)
    case BinaryExpr(op, lhs, rhs) =>
      [Lit("("), Lit(op)] + FormulaTokens(lhs, FormulaTokens(rhs, [Lit(")")] + rest))
    case Variable(name) => [Name(name)] + rest
    case Constant(c) => [Lit(c)] + rest
  }

  /** `(_ BitVec width)`, then `rest`. */
  function TypeTokens(width: string, rest: seq<Token>): seq<Token> {
    [Lit("("), Lit("_"), Lit("BitVec"), Num(width), Lit(")")] + rest
  }

  /** One `_var`, then `rest`. */
  function VarTokens(v: VarDecl, rest: seq<Token>): seq<Token> {
    [Lit("("), Name(v.name)] + TypeTokens(v.width, [Lit(")")] + rest)
  }

  /** The `_var`s of the header, then `rest`. */
  function VarsTokens(params: seq<VarDecl>, rest: seq<Token>): seq<Token> {
    if params == [] then rest else VarTokens(params[0], VarsTokens(params[1..], rest))
  }

  /** `phi (params) (_ BitVec width)`, then `rest`. */
  function HeaderTokens(h: FuncDef, rest: seq<Token>): seq<Token> {
    [Lit("phi"), Lit("(")] + VarsTokens(h.params, [Lit(")")] + TypeTokens(h.width, rest))
  }

  /** One `let_exp`, then `rest`. */
  function LetExpTokens(e: LetExp, rest: seq<Token>): seq<Token> {
    [Lit("("), Name(e.name)] + FormulaTokens(e.value, [Lit(")")] + rest)
  }

  /** The `let_exp`s of a let-block, then `rest`. */
  function LetsTokens(lets: seq<LetExp>, rest: seq<Token>): seq<Token> {
    if lets == [] then rest else LetExpTokens(lets[0], LetsTokens(lets[1..], rest))
  }

  /** `let (lets)`, then `rest`. */
  function LetDefTokens(lets: seq<LetExp>, rest: seq<Token>): seq<Token> {
    [Lit("let"), Lit("(")] + LetsTokens(lets, [Lit(")")] + rest)
  }

  /** `_let_formula`: `(let (lets) body)`, or the bare body when there are no definitions; then `rest`. */
  function LetFormulaTokens(lets: seq<LetExp>, body: BvFormula, rest: seq<Token>): seq<Token> {
    if lets == [] then FormulaTokens(body, rest)
    else [Lit("(")] + LetDefTokens(lets, FormulaTokens(body, [Lit(")")] + rest))
  }

  /** `(define-fun phi ... body)`. */
  function FunTokens(fun: BvFun): seq<Token> {
    [Lit("(define-fun")] + HeaderTokens(fun.header, LetFormulaTokens(fun.lets, fun.body, [Lit(")")]))
  }

  // ----------------------------------------------------------------- parsing

  /** `Some(toks[1..])` when `toks` starts with `t`. */
  function Expect(t: Token, toks: seq<Token>): (r: Option<seq<Token>>)
    ensures r.Some? <==> |toks| > 0 && toks[0] == t
    ensures r.Some? ==> r.value == toks[1..]
  {
    if |toks| > 0 && toks[0] == t then Some(toks[1..]) else None
  }

  /** One `formula` from the front of `toks`, and the tokens after it. */
  function ParseFormula(toks: seq<Token>): (r: Option<(BvFormula, seq<Token>)>)
    ensures r.Some? ==> |r.value.1| < |toks|
    decreases |toks|, 0
  {
    if |toks| == 0 then None
    else if toks[0].Lit? && toks[0].text in BV_CONSTANT_TOKENS then Some((Constant(toks[0].text), toks[1..]))
    else if toks[0].Name? then Some((Variable(toks[0].text), toks[1..]))
    else if |toks| < 2 || toks[0] != Lit("(") || !toks[1].Lit? then None
    else if toks[1].text in BV_UNARY_TOKENS then ParseUnary(toks[1].text, toks[2..])
    else if toks[1].text in BV_BINARY_TOKENS then ParseBinary(toks[1].text, toks[2..])
    else None
  }

  /** The operand and the `)` of `(op arg)`. */
  function ParseUnary(op: string, toks: seq<Token>): (r: Option<(BvFormula, seq<Token>)>)
    ensures r.Some? ==> |r.value.1| < |toks|
    decreases |toks|, 1
  {
    match ParseFormula(toks)
    case None => None
    case Some((arg, afterArg)) =>
      match Expect(Lit(")"), afterArg)
      case None => None
      case Some(rest) => Some((UnaryExpr(op, arg), rest))
  }

  /** The operands and the `)` of `(op lhs rhs)`. */
  function ParseBinary(op: string, toks: seq<Token>): (r: Option<(BvFormula, seq<Token>)>)
    ensures r.Some? ==> |r.value.1| < |toks|
    decreases |toks|, 1
  {
    match ParseFormula(toks)
    case None => None
    case Some((lhs, afterLhs)) =>
      match ParseFormula(afterLhs)
      case None => None
      case Some((rhs, afterRhs)) =>
        match Expect(Lit(")"), afterRhs)
        case None => None
        case Some(rest) => Some((BinaryExpr(op, lhs, rhs), rest))
  }

  /** `_type`: `(_ BitVec width)`. */
  function ParseType(toks: seq<Token>): (r: Option<(string, seq<Token>)>)
    ensures r.Some? ==> |r.value.1| < |toks|
  {
    if |toks| >= 5 && toks[0] == Lit("(") && toks[1] == Lit("_") && toks[2] == Lit("BitVec")
       && toks[3].Num? && toks[4] == Lit(")") then
      Some((toks[3].text, toks[5..]))
    else None
  }

  /** `_var`: `(name (_ BitVec width))`. */
  function ParseVar(toks: seq<Token>): (r: Option<(VarDecl, seq<Token>)>)
    ensures r.Some? ==> |r.value.1| < |toks|
  {
    if |toks| >= 2 && toks[0] == Lit("(") && toks[1].Name? then
      match ParseType(toks[2..])
      case None => None
      case Some((width, afterType)) =>
        match Expect(Lit(")"), afterType)
        case None => None
        case Some(rest) => Some((VarDecl(toks[1].text, width), rest))
    else None
  }

  /** `_vars`: one or more `_var`s, as many as start with `(`. */
  function ParseVars(toks: seq<Token>): (r: Option<(seq<VarDecl>, seq<Token>)>)
    ensures r.Some? ==> |r.value.1| < |toks| && |r.value.0| > 0
    decreases |toks|
  {
    match ParseVar(toks)
    case None => None
    case Some((v, rest)) =>
      if |rest| > 0 && rest[0] == Lit("(") then
        match ParseVars(rest)
        case None => None
        case Some((more, rest')) => Some(([v] + more, rest'))
      else Some(([v], rest))
  }

  /** `func_def`: `phi (vars) (_ BitVec width)`. */
  function ParseHeader(toks: seq<Token>): (r: Option<(FuncDef, seq<Token>)>)
    ensures r.Some? ==> |r.value.1| < |toks|
  {
    if |toks| >= 2 && toks[0] == Lit("phi") && toks[1] == Lit("(") then
      match ParseVars(toks[2..])
      case None => None
      case Some((params, afterVars)) =>
        match Expect(Lit(")"), afterVars)
        case None => None
        case Some(afterClose) =>
          match ParseType(afterClose)
          case None => None
          case Some((width, rest)) => Some((FuncDef(params, width), rest))
    else None
  }

  /** `let_exp`: `(name value)`. */
  function ParseLetExp(toks: seq<Token>): (r: Option<(LetExp, seq<Token>)>)
    ensures r.Some? ==> |r.value.1| < |toks|
  {
    if |toks| >= 2 && toks[0] == Lit("(") && toks[1].Name? then
      match ParseFormula(toks[2..])
      case None => None
      case Some((value, afterValue)) =>
        match Expect(Lit(")"), afterValue)
        case None => None
        case Some(rest) => Some((LetExp(toks[1].text, value), rest))
    else None
  }

  /** `_let_vars`, read as intended: one or more `let_exp`s, as many as start with `(`. */
  function ParseLetVars(toks: seq<Token>): (r: Option<(seq<LetExp>, seq<Token>)>)
    ensures r.Some? ==> |r.value.1| < |toks| && |r.value.0| > 0
    decreases |toks|
  {
    match ParseLetExp(toks)
    case None => None
    case Some((e, rest)) =>
      if |rest| > 0 && rest[0] == Lit("(") then
        match ParseLetVars(rest)
        case None => None
        case Some((more, rest')) => Some(([e] + more, rest'))
      else Some(([e], rest))
  }

  /** `_let_def`: `let (lets)`. */
  function ParseLetDef(toks: seq<Token>): (r: Option<(seq<LetExp>, seq<Token>)>)
    ensures r.Some? ==> |r.value.1| < |toks| && |r.value.0| > 0
  {
    if |toks| >= 2 && toks[0] == Lit("let") && toks[1] == Lit("(") then
      match ParseLetVars(toks[2..])
      case None => None
      case Some((lets, afterLets)) =>
        match Expect(Lit(")"), afterLets)
        case None => None
        case Some(rest) => Some((lets, rest))
    else None
  }

  /**
   * `_let_def` as the grammar is written. The alternative `_let_vars:
   * _let_vars` adds no token, so the rule's language is just `let_exp`: the
   * block holds one definition, and a second `(` after it is a syntax error.
   */
  function ParseLetDefAsWritten(toks: seq<Token>): (r: Option<(seq<LetExp>, seq<Token>)>)
    ensures r.Some? ==> |r.value.1| < |toks| && |r.value.0| == 1
  {
    if |toks| >= 2 && toks[0] == Lit("let") && toks[1] == Lit("(") then
      match ParseLetExp(toks[2..])
      case None => None
      case Some((e, afterLet)) =>
        match Expect(Lit(")"), afterLet)
        case None => None
        case Some(rest) => Some(([e], rest))
    else None
  }

  /** `_let_formula`: `(let (lets) body)` or a bare body. */
  function ParseLetFormula(toks: seq<Token>): (r: Option<(seq<LetExp>, BvFormula, seq<Token>)>)
    ensures r.Some? ==> |r.value.2| < |toks|
  {
    if |toks| >= 2 && toks[0] == Lit("(") && toks[1] == Lit("let") then ParseLetBlock(toks[1..])
    else
      match ParseFormula(toks)
      case None => None
      case Some((body, rest)) => Some(([], body, rest))
  }

  /** What follows the `(` of `(let (lets) body)`. */
  function ParseLetBlock(toks: seq<Token>): (r: Option<(seq<LetExp>, BvFormula, seq<Token>)>)
    ensures r.Some? ==> |r.value.2| < |toks|
  {
    match ParseLetDef(toks)
    case None => None
    case Some((lets, afterDef)) =>
      match ParseFormula(afterDef)
      case None => None
      case Some((body, afterBody)) =>
        match Expect(Lit(")"), afterBody)
        case None => None
        case Some(rest) => Some((lets, body, rest))
  }

  /** `start`: the whole input must be one `bv_fun`. */
  function ParseBvFun(toks: seq<Token>): Option<BvFun> {
    if |toks| > 0 && toks[0] == Lit("(define-fun") then
      match ParseHeader(toks[1..])
      case None => None
      case Some((header, afterHeader)) =>
        match ParseLetFormula(afterHeader)
        case None => None
        case Some((lets, body, rest)) =>
          if rest == [Lit(")")] then Some(BvFun(header, lets, body)) else None
    else None
  }

  /** `ParseLetBlock` with the let-block as written. */
  function ParseLetBlockAsWritten(toks: seq<Token>): (r: Option<(seq<LetExp>, BvFormula, seq<Token>)>)
    ensures r.Some? ==> |r.value.2| < |toks|
  {
    match ParseLetDefAsWritten(toks)
    case None => None
    case Some((lets, afterDef)) =>
      match ParseFormula(afterDef)
      case None => None
      case Some((body, afterBody)) =>
        match Expect(Lit(")"), afterBody)
        case None => None
        case Some(rest) => Some((lets, body, rest))
  }

  /** `ParseLetFormula` with the let-block as written. */
  function ParseLetFormulaAsWritten(toks: seq<Token>): (r: Option<(seq<LetExp>, BvFormula, seq<Token>)>)
    ensures r.Some? ==> |r.value.2| < |toks|
  {
    if |toks| >= 2 && toks[0] == Lit("(") && toks[1] == Lit("let") then ParseLetBlockAsWritten(toks[1..])
    else
      match ParseFormula(toks)
      case None => None
      case Some((body, rest)) => Some(([], body, rest))
  }

  /** `start` as the grammar is written: the whole input must be one `bv_fun`. */
  function ParseBvFunAsWritten(toks: seq<Token>): Option<BvFun> {
    if |toks| > 0 && toks[0] == Lit("(define-fun") then
      match ParseHeader(toks[1..])
      case None => None
      case Some((header, afterHeader)) =>
        match ParseLetFormulaAsWritten(afterHeader)
        case None => None
        case Some((lets, body, rest)) =>
          if rest == [Lit(")")] then Some(BvFun(header, lets, body)) else None
    else None
  }

  // ------------------------------------------------- the two readings compared

  /** The let-block as written accepts what the corrected one accepts with one definition, and nothing else. */
  lemma LetDefAgrees(toks: seq<Token>)
    ensures ParseLetDefAsWritten(toks)
      == if ParseLetDef(toks).Some? && |ParseLetDef(toks).value.0| == 1 then ParseLetDef(toks) else None
  {
    if |toks| >= 2 && toks[0] == Lit("let") && toks[1] == Lit("(") {
      var t := toks[2..];
      if ParseLetExp(t).Some? {
        var (e, afterLet) := ParseLetExp(t).value;
        if |afterLet| > 0 && afterLet[0] == Lit("(") {
          assert ParseLetDefAsWritten(toks).None?;
          if ParseLetVars(afterLet).Some? {
            var (more, rest') := ParseLetVars(afterLet).value;
            assert ParseLetVars(t) == Some(([e] + more, rest'));
          }
        } else {
          assert ParseLetVars(t) == Some(([e], afterLet));
        }
      }
    }
  }

  /** `LetDefAgrees` for a let-block and its body. */
  lemma LetBlockAgrees(toks: seq<Token>)
    ensures ParseLetBlockAsWritten(toks)
      == if ParseLetBlock(toks).Some? && |ParseLetBlock(toks).value.0| == 1 then ParseLetBlock(toks) else None
    ensures ParseLetBlock(toks).Some? ==> |ParseLetBlock(toks).value.0| > 0
  {
    LetDefAgrees(toks);
  }

  /** `LetDefAgrees` for a body with or without its let-block. */
  lemma LetFormulaAgrees(toks: seq<Token>)
    ensures ParseLetFormulaAsWritten(toks)
      == if ParseLetFormula(toks).Some? && |ParseLetFormula(toks).value.0| <= 1 then ParseLetFormula(toks) else None
  {
    if |toks| >= 2 && toks[0] == Lit("(") && toks[1] == Lit("let") {
      LetBlockAgrees(toks[1..]);
    }
  }

  /**
   * The grammar as written accepts exactly the definitions the corrected
   * grammar accepts that have at most one let-definition, with the same result.
   */
  lemma ParseBvFunAsWrittenAgrees(toks: seq<Token>)
    ensures ParseBvFunAsWritten(toks)
      == if ParseBvFun(toks).Some? && |ParseBvFun(toks).value.lets| <= 1 then ParseBvFun(toks) else None
  {
    if |toks| > 0 && toks[0] == Lit("(define-fun") && ParseHeader(toks[1..]).Some? {
      LetFormulaAgrees(ParseHeader(toks[1..]).value.1);
    }
  }

  /** As written, a printed definition parses back exactly when it has at most one let-definition. */
  lemma ParseBvFunAsWrittenTokens(fun: BvFun)
    requires FunConforms(fun)
    ensures ParseBvFunAsWritten(FunTokens(fun)) == if |fun.lets| <= 1 then Some(fun) else None
  {
    ParseBvFunTokens(fun);
    ParseBvFunAsWrittenAgrees(FunTokens(fun));
  }

  // ------------------------------------------------------ printing, then parsing

  /** `(op` followed by anything is handed to `ParseUnary`. */
  lemma DispatchUnary(op: string, tail: seq<Token>)
    requires op in BV_UNARY_TOKENS
    ensures ParseFormula([Lit("("), Lit(op)] + tail) == ParseUnary(op, tail)
  {
    var toks := [Lit("("), Lit(op)] + tail;
    assert toks[0] == Lit("(") && toks[1] == Lit(op) && toks[2..] == tail;
  }

  /** `(op` followed by anything is handed to `ParseBinary`. */
  lemma DispatchBinary(op: string, tail: seq<Token>)
    requires op in BV_BINARY_TOKENS
    ensures ParseFormula([Lit("("), Lit(op)] + tail) == ParseBinary(op, tail)
  {
    var toks := [Lit("("), Lit(op)] + tail;
    assert toks[0] == Lit("(") && toks[1] == Lit(op) && toks[2..] == tail;
  }

  /** A formula's tokens parse back to that formula, whatever follows them. */
  lemma {:induction false} ParseFormulaTokens(t: BvFormula, rest: seq<Token>)
    requires Conforms(t)
    ensures ParseFormula(FormulaTokens(t, rest)) == Some((t, rest))
  {
    match t
    case UnaryExpr(op, arg) =>
      var afterArg := [Lit(")")] + rest;
      ParseFormulaTokens(arg, afterArg);
      DispatchUnary(op, FormulaTokens(arg, afterArg));
      assert afterArg[1..] == rest;
    case BinaryExpr(op, lhs, rhs) =>
      var afterRhs := [Lit(")")] + rest;
      ParseFormulaTokens(rhs, afterRhs);
      ParseFormulaTokens(lhs, FormulaTokens(rhs, afterRhs));
      DispatchBinary(op, FormulaTokens(lhs, FormulaTokens(rhs, afterRhs)));
      assert afterRhs[1..] == rest;
    case Variable(name) =>
      assert ([Name(name)] + rest)[1..] == rest;
    case Constant(c) =>
      assert ([Lit(c)] + rest)[1..] == rest;
  }

  /** A type's tokens parse back to its width. */
  lemma ParseTypeTokens(width: string, rest: seq<Token>)
    ensures ParseType(TypeTokens(width, rest)) == Some((width, rest))
  {
    var toks := TypeTokens(width, rest);
    assert toks[5..] == rest;
  }

  /** One parameter's tokens parse back to it. */
  lemma ParseVarTokens(v: VarDecl, rest: seq<Token>)
    ensures ParseVar(VarTokens(v, rest)) == Some((v, rest))
  {
    var afterType := [Lit(")")] + rest;
    ParseTypeTokens(v.width, afterType);
    assert VarTokens(v, rest)[2..] == TypeTokens(v.width, afterType);
    assert afterType[1..] == rest;
  }

  /** `_vars` after a `_var` that another `_var` follows. */
  lemma ParseVarsMore(toks: seq<Token>, params: seq<VarDecl>, afterVar: seq<Token>, rest: seq<Token>)
    requires |params| > 1
    requires ParseVar(toks) == Some((params[0], afterVar))
    requires |afterVar| > 0 && afterVar[0] == Lit("(")
    requires ParseVars(afterVar) == Some((params[1..], rest))
    ensures ParseVars(toks) == Some((params, rest))
  {
    assert [params[0]] + params[1..] == params;
  }

  /** `_vars` after its last `_var`. */
  lemma ParseVarsLast(toks: seq<Token>, params: seq<VarDecl>, afterVar: seq<Token>)
    requires |params| == 1
    requires ParseVar(toks) == Some((params[0], afterVar))
    requires |afterVar| == 0 || afterVar[0] != Lit("(")
    ensures ParseVars(toks) == Some((params, afterVar))
  {
    assert [params[0]] == params;
  }

  /** A parameter list's tokens parse back to it when what follows does not open another `_var`. */
  lemma {:induction false} ParseVarsTokens(params: seq<VarDecl>, rest: seq<Token>)
    requires |params| > 0
    requires |rest| == 0 || rest[0] != Lit("(")
    ensures ParseVars(VarsTokens(params, rest)) == Some((params, rest))
    decreases |params|
  {
    var toks := VarsTokens(params, rest);
    var more := VarsTokens(params[1..], rest);
    assert toks == VarTokens(params[0], more);
    ParseVarTokens(params[0], more);
    if |params| > 1 {
      ParseVarsTokens(params[1..], rest);
      assert more == VarTokens(params[1..][0], VarsTokens(params[1..][1..], rest));
      ParseVarsMore(toks, params, more, rest);
    } else {
      assert more == rest;
      ParseVarsLast(toks, params, more);
    }
  }

  /** A header's tokens parse back to it. */
  lemma ParseHeaderTokens(h: FuncDef, rest: seq<Token>)
    requires |h.params| > 0
    ensures ParseHeader(HeaderTokens(h, rest)) == Some((h, rest))
  {
    var afterVars := [Lit(")")] + TypeTokens(h.width, rest);
    ParseVarsTokens(h.params, afterVars);
    ParseTypeTokens(h.width, rest);
    assert HeaderTokens(h, rest)[2..] == VarsTokens(h.params, afterVars);
    assert afterVars[1..] == TypeTokens(h.width, rest);
  }

  /** A let-definition's tokens parse back to it. */
  lemma ParseLetExpTokens(e: LetExp, rest: seq<Token>)
    requires Conforms(e.value)
    ensures ParseLetExp(LetExpTokens(e, rest)) == Some((e, rest))
  {
    var afterValue := [Lit(")")] + rest;
    ParseFormulaTokens(e.value, afterValue);
    assert LetExpTokens(e, rest)[2..] == FormulaTokens(e.value, afterValue);
    assert afterValue[1..] == rest;
  }

  /** Dropping the first definition keeps the rest conforming. */
  lemma LetsConformTail(lets: seq<LetExp>)
    requires |lets| > 0 && LetsConform(lets)
    ensures LetsConform(lets[1..])
  {
    forall i | 0 <= i < |lets[1..]| ensures lets[1..][i].name !in BV_KEYWORDS && Conforms(lets[1..][i].value) {
      assert lets[1..][i] == lets[i + 1];
    }
  }

  /** `_let_vars` after a `let_exp` that another `let_exp` follows. */
  lemma ParseLetVarsMore(toks: seq<Token>, lets: seq<LetExp>, afterLet: seq<Token>, rest: seq<Token>)
    requires |lets| > 1
    requires ParseLetExp(toks) == Some((lets[0], afterLet))
    requires |afterLet| > 0 && afterLet[0] == Lit("(")
    requires ParseLetVars(afterLet) == Some((lets[1..], rest))
    ensures ParseLetVars(toks) == Some((lets, rest))
  {
    assert [lets[0]] + lets[1..] == lets;
  }

  /** `_let_vars` after its last `let_exp`. */
  lemma ParseLetVarsLast(toks: seq<Token>, lets: seq<LetExp>, afterLet: seq<Token>)
    requires |lets| == 1
    requires ParseLetExp(toks) == Some((lets[0], afterLet))
    requires |afterLet| == 0 || afterLet[0] != Lit("(")
    ensures ParseLetVars(toks) == Some((lets, afterLet))
  {
    assert [lets[0]] == lets;
  }

  /** The definitions' tokens parse back to them when what follows does not open another `let_exp`. */
  lemma {:induction false} ParseLetVarsTokens(lets: seq<LetExp>, rest: seq<Token>)
    requires |lets| > 0 && LetsConform(lets)
    requires |rest| == 0 || rest[0] != Lit("(")
    ensures ParseLetVars(LetsTokens(lets, rest)) == Some((lets, rest))
    decreases |lets|
  {
    var toks := LetsTokens(lets, rest);
    var more := LetsTokens(lets[1..], rest);
    assert toks == LetExpTokens(lets[0], more);
    assert Conforms(lets[0].value);
    ParseLetExpTokens(lets[0], more);
    if |lets| > 1 {
      LetsConformTail(lets);
      ParseLetVarsTokens(lets[1..], rest);
      assert more == LetExpTokens(lets[1..][0], LetsTokens(lets[1..][1..], rest));
      ParseLetVarsMore(toks, lets, more, rest);
    } else {
      assert more == rest;
      ParseLetVarsLast(toks, lets, more);
    }
  }

  /** A let-block's tokens parse back to its definitions. */
  lemma ParseLetDefTokens(lets: seq<LetExp>, rest: seq<Token>)
    requires |lets| > 0 && LetsConform(lets)
    ensures ParseLetDef(LetDefTokens(lets, rest)) == Some((lets, rest))
  {
    var afterLets := [Lit(")")] + rest;
    ParseLetVarsTokens(lets, afterLets);
    assert LetDefTokens(lets, rest)[2..] == LetsTokens(lets, afterLets);
    assert afterLets[1..] == rest;
  }

  /** A body without definitions is not taken for a let-block. */
  lemma BareBodyTokens(body: BvFormula, rest: seq<Token>)
    requires Conforms(body)
    ensures ParseLetFormula(FormulaTokens(body, rest)) == Some(([], body, rest))
  {
    ParseFormulaTokens(body, rest);
    var toks := FormulaTokens(body, rest);
    match body
    case UnaryExpr(op, arg) =>
      assert toks[1] == Lit(op) && op != "let";
    case BinaryExpr(op, lhs, rhs) =>
      assert toks[1] == Lit(op) && op != "let";
    case Variable(name) =>
      assert toks[0] != Lit("(");
    case Constant(c) =>
      assert toks[0] != Lit("(");
  }

  /** `(let (lets) body)` is read as its definitions and its body. */
  lemma LetBlockTokens(lets: seq<LetExp>, body: BvFormula, rest: seq<Token>)
    requires |lets| > 0 && LetsConform(lets) && Conforms(body)
    ensures ParseLetFormula([Lit("(")] + LetDefTokens(lets, FormulaTokens(body, [Lit(")")] + rest)))
         == Some((lets, body, rest))
  {
    var afterBody := [Lit(")")] + rest;
    var afterDef := FormulaTokens(body, afterBody);
    var def := LetDefTokens(lets, afterDef);
    ParseLetDefTokens(lets, afterDef);
    ParseFormulaTokens(body, afterBody);
    assert afterBody[1..] == rest;
    assert ParseLetBlock(def) == Some((lets, body, rest));
    var toks := [Lit("(")] + def;
    assert toks[0] == Lit("(") && toks[1] == Lit("let") && toks[1..] == def;
  }

  /** A let-formula's tokens parse back to its definitions and body. */
  lemma ParseLetFormulaTokens(lets: seq<LetExp>, body: BvFormula, rest: seq<Token>)
    requires LetsConform(lets) && Conforms(body)
    ensures ParseLetFormula(LetFormulaTokens(lets, body, rest)) == Some((lets, body, rest))
  {
    if lets == [] {
      BareBodyTokens(body, rest);
    } else {
      LetBlockTokens(lets, body, rest);
    }
  }

  /** Round trip of a whole definition: the printed tokens parse back to it. */
  lemma ParseBvFunTokens(fun: BvFun)
    requires FunConforms(fun)
    ensures ParseBvFun(FunTokens(fun)) == Some(fun)
  {
    var afterHeader := LetFormulaTokens(fun.lets, fun.body, [Lit(")")]);
    ParseHeaderTokens(fun.header, afterHeader);
    ParseLetFormulaTokens(fun.lets, fun.body, [Lit(")")]);
    assert FunTokens(fun)[1..] == HeaderTokens(fun.header, afterHeader);
  }

  /** As written, a let-block with a second definition is a syntax error; as intended it is read whole. */
  lemma AsWrittenRejectsSecondDefinition(lets: seq<LetExp>, rest: seq<Token>)
    requires |lets| >= 2 && LetsConform(lets)
    ensures ParseLetDefAsWritten(LetDefTokens(lets, rest)).None?
    ensures ParseLetDef(LetDefTokens(lets, rest)) == Some((lets, rest))
  {
    ParseLetDefTokens(lets, rest);
    var more := LetsTokens(lets[1..], [Lit(")")] + rest);
    ParseLetExpTokens(lets[0], more);
    assert LetDefTokens(lets, rest)[2..] == LetExpTokens(lets[0], more);
    assert more[0] == Lit("(");
  }

  /** With one definition the grammar as written and as intended agree. */
  lemma AsWrittenAcceptsOneDefinition(e: LetExp, rest: seq<Token>)
    requires e.name !in BV_KEYWORDS && Conforms(e.value)
    ensures ParseLetDefAsWritten(LetDefTokens([e], rest)) == Some(([e], rest))
    ensures ParseLetDef(LetDefTokens([e], rest)) == Some(([e], rest))
  {
    ParseLetDefTokens([e], rest);
    var afterLet := [Lit(")")] + rest;
    assert LetsTokens([e], afterLet) == LetExpTokens(e, afterLet) by {
      assert [e][1..] == [];
    }
    ParseLetExpTokens(e, afterLet);
    assert LetDefTokens([e], rest)[2..] == LetExpTokens(e, afterLet);
    assert afterLet[1..] == rest;
  }

  // ------------------------------------------------------ parsing, then printing

  /** What the parser returns is printed by the tokens it consumed. */
  lemma {:induction false} ParseFormulaSound(toks: seq<Token>, t: BvFormula, rest: seq<Token>)
    requires ParseFormula(toks) == Some((t, rest))
    ensures toks == FormulaTokens(t, rest)
    decreases |toks|, 0
  {
    if toks[0].Lit? && toks[0].text in BV_CONSTANT_TOKENS {
      Cons1(toks, toks[0]);
    } else if toks[0].Name? {
      Cons1(toks, toks[0]);
    } else if toks[1].text in BV_UNARY_TOKENS {
      Cons2(toks, Lit("("), Lit(toks[1].text));
      ParseUnarySound(toks[1].text, toks[2..], t, rest);
    } else {
      Cons2(toks, Lit("("), Lit(toks[1].text));
      ParseBinarySound(toks[1].text, toks[2..], t, rest);
    }
  }

  /** `ParseFormulaSound` for `(op arg)`. */
  lemma {:induction false} ParseUnarySound(op: string, toks: seq<Token>, t: BvFormula, rest: seq<Token>)
    requires op in BV_UNARY_TOKENS
    requires ParseUnary(op, toks) == Some((t, rest))
    ensures [Lit("("), Lit(op)] + toks == FormulaTokens(t, rest)
    decreases |toks|, 1
  {
    var (arg, afterArg) := ParseFormula(toks).value;
    ParseFormulaSound(toks, arg, afterArg);
    Cons1(afterArg, Lit(")"));
    assert t == UnaryExpr(op, arg) && rest == afterArg[1..];
  }

  /** `ParseFormulaSound` for `(op lhs rhs)`. */
  lemma {:induction false} ParseBinarySound(op: string, toks: seq<Token>, t: BvFormula, rest: seq<Token>)
    requires op in BV_BINARY_TOKENS
    requires ParseBinary(op, toks) == Some((t, rest))
    ensures [Lit("("), Lit(op)] + toks == FormulaTokens(t, rest)
    decreases |toks|, 1
  {
    var (lhs, afterLhs) := ParseFormula(toks).value;
    ParseFormulaSound(toks, lhs, afterLhs);
    var (rhs, afterRhs) := ParseFormula(afterLhs).value;
    ParseFormulaSound(afterLhs, rhs, afterRhs);
    Cons1(afterRhs, Lit(")"));
    assert t == BinaryExpr(op, lhs, rhs) && rest == afterRhs[1..];
  }

  /** A parsed formula whose names are not keywords uses only the grammar's operators and constants. */
  lemma {:induction false} ParseFormulaAdmits(toks: seq<Token>, t: BvFormula, rest: seq<Token>)
    requires ParseFormula(toks) == Some((t, rest))
    ensures Admitted(t)
    decreases |toks|, 0
  {
    if toks[0].Lit? && toks[0].text in BV_CONSTANT_TOKENS {
    } else if toks[0].Name? {
    } else if toks[1].text in BV_UNARY_TOKENS {
      ParseUnaryAdmits(toks[1].text, toks[2..], t, rest);
    } else {
      ParseBinaryAdmits(toks[1].text, toks[2..], t, rest);
    }
  }

  /** `ParseFormulaAdmits` for `(op arg)`. */
  lemma {:induction false} ParseUnaryAdmits(op: string, toks: seq<Token>, t: BvFormula, rest: seq<Token>)
    requires op in BV_UNARY_TOKENS
    requires ParseUnary(op, toks) == Some((t, rest))
    ensures Admitted(t)
    decreases |toks|, 1
  {
    var (arg, afterArg) := ParseFormula(toks).value;
    ParseFormulaAdmits(toks, arg, afterArg);
    assert t == UnaryExpr(op, arg);
  }

  /** `ParseFormulaAdmits` for `(op lhs rhs)`. */
  lemma {:induction false} ParseBinaryAdmits(op: string, toks: seq<Token>, t: BvFormula, rest: seq<Token>)
    requires op in BV_BINARY_TOKENS
    requires ParseBinary(op, toks) == Some((t, rest))
    ensures Admitted(t)
    decreases |toks|, 1
  {
    var (lhs, afterLhs) := ParseFormula(toks).value;
    ParseFormulaAdmits(toks, lhs, afterLhs);
    var (rhs, afterRhs) := ParseFormula(afterLhs).value;
    ParseFormulaAdmits(afterLhs, rhs, afterRhs);
    assert t == BinaryExpr(op, lhs, rhs);
  }

  lemma ParseTypeSound(toks: seq<Token>, width: string, rest: seq<Token>)
    requires ParseType(toks) == Some((width, rest))
    ensures toks == TypeTokens(width, rest)
  {
    assert toks[..5] == [Lit("("), Lit("_"), Lit("BitVec"), Num(width), Lit(")")];
    assert toks == toks[..5] + toks[5..];
  }

  lemma ParseVarSound(toks: seq<Token>, v: VarDecl, rest: seq<Token>)
    requires ParseVar(toks) == Some((v, rest))
    ensures toks == VarTokens(v, rest)
  {
    var (width, afterType) := ParseType(toks[2..]).value;
    ParseTypeSound(toks[2..], width, afterType);
    Cons1(afterType, Lit(")"));
    Cons2(toks, Lit("("), Name(toks[1].text));
    assert v == VarDecl(toks[1].text, width) && rest == afterType[1..];
  }

  lemma {:induction false} ParseVarsSound(toks: seq<Token>, params: seq<VarDecl>, rest: seq<Token>)
    requires ParseVars(toks) == Some((params, rest))
    ensures toks == VarsTokens(params, rest)
    decreases |toks|
  {
    var (v, afterVar) := ParseVar(toks).value;
    ParseVarSound(toks, v, afterVar);
    if |afterVar| > 0 && afterVar[0] == Lit("(") {
      var (more, rest') := ParseVars(afterVar).value;
      ParseVarsSound(afterVar, more, rest');
      assert params == [v] + more && rest == rest';
      assert params[0] == v && params[1..] == more;
    } else {
      assert params == [v] && rest == afterVar;
      assert params[0] == v && params[1..] == [];
    }
  }

  lemma ParseHeaderSound(toks: seq<Token>, h: FuncDef, rest: seq<Token>)
    requires ParseHeader(toks) == Some((h, rest))
    ensures toks == HeaderTokens(h, rest) && |h.params| > 0
  {
    var (params, afterVars) := ParseVars(toks[2..]).value;
    ParseVarsSound(toks[2..], params, afterVars);
    Cons1(afterVars, Lit(")"));
    var (width, rest') := ParseType(afterVars[1..]).value;
    ParseTypeSound(afterVars[1..], width, rest');
    Cons2(toks, Lit("phi"), Lit("("));
    assert h == FuncDef(params, width) && rest == rest';
  }

  lemma ParseLetExpSound(toks: seq<Token>, e: LetExp, rest: seq<Token>)
    requires ParseLetExp(toks) == Some((e, rest))
    ensures toks == LetExpTokens(e, rest)
  {
    var (value, afterValue) := ParseFormula(toks[2..]).value;
    ParseFormulaSound(toks[2..], value, afterValue);
    Cons1(afterValue, Lit(")"));
    Cons2(toks, Lit("("), Name(toks[1].text));
    assert e == LetExp(toks[1].text, value) && rest == afterValue[1..];
  }

  lemma {:induction false} ParseLetVarsSound(toks: seq<Token>, lets: seq<LetExp>, rest: seq<Token>)
    requires ParseLetVars(toks) == Some((lets, rest))
    ensures toks == LetsTokens(lets, rest)
    decreases |toks|
  {
    var (e, afterLet) := ParseLetExp(toks).value;
    ParseLetExpSound(toks, e, afterLet);
    if |afterLet| > 0 && afterLet[0] == Lit("(") {
      var (more, rest') := ParseLetVars(afterLet).value;
      ParseLetVarsSound(afterLet, more, rest');
      assert lets == [e] + more && rest == rest';
      assert lets[0] == e && lets[1..] == more;
    } else {
      assert lets == [e] && rest == afterLet;
      assert lets[0] == e && lets[1..] == [];
    }
  }

  lemma ParseLetDefSound(toks: seq<Token>, lets: seq<LetExp>, rest: seq<Token>)
    requires ParseLetDef(toks) == Some((lets, rest))
    ensures toks == LetDefTokens(lets, rest)
  {
    var (lets', afterLets) := ParseLetVars(toks[2..]).value;
    ParseLetVarsSound(toks[2..], lets', afterLets);
    Cons1(afterLets, Lit(")"));
    Cons2(toks, Lit("let"), Lit("("));
    assert lets == lets' && rest == afterLets[1..];
  }

  lemma ParseLetExpAdmits(toks: seq<Token>, e: LetExp, rest: seq<Token>)
    requires ParseLetExp(toks) == Some((e, rest))
    ensures Admitted(e.value)
  {
    var (value, afterValue) := ParseFormula(toks[2..]).value;
    ParseFormulaAdmits(toks[2..], value, afterValue);
  }

  lemma AdmittedCons(e: LetExp, more: seq<LetExp>)
    requires Admitted(e.value)
    requires forall i :: 0 <= i < |more| ==> Admitted(more[i].value)
    ensures forall i :: 0 <= i < |[e] + more| ==> Admitted(([e] + more)[i].value)
  {
  }

  lemma {:induction false} ParseLetVarsAdmits(toks: seq<Token>, lets: seq<LetExp>, rest: seq<Token>)
    requires ParseLetVars(toks) == Some((lets, rest))
    ensures forall i :: 0 <= i < |lets| ==> Admitted(lets[i].value)
    decreases |toks|
  {
    var (e, afterLet) := ParseLetExp(toks).value;
    ParseLetExpAdmits(toks, e, afterLet);
    if |afterLet| > 0 && afterLet[0] == Lit("(") {
      var (more, rest') := ParseLetVars(afterLet).value;
      ParseLetVarsAdmits(afterLet, more, rest');
      assert ParseLetVars(toks) == Some(([e] + more, rest'));
      AdmittedCons(e, more);
    } else {
      assert lets == [e];
    }
  }

  lemma ParseLetDefAdmits(toks: seq<Token>, lets: seq<LetExp>, rest: seq<Token>)
    requires ParseLetDef(toks) == Some((lets, rest))
    ensures forall i :: 0 <= i < |lets| ==> Admitted(lets[i].value)
  {
    var (lets', afterLets) := ParseLetVars(toks[2..]).value;
    ParseLetVarsAdmits(toks[2..], lets', afterLets);
  }

  lemma ParseLetBlockSound(toks: seq<Token>, lets: seq<LetExp>, body: BvFormula, rest: seq<Token>)
    requires ParseLetBlock(toks) == Some((lets, body, rest))
    ensures toks == LetDefTokens(lets, FormulaTokens(body, [Lit(")")] + rest)) && |lets| > 0
  {
    var (lets', afterDef) := ParseLetDef(toks).value;
    ParseLetDefSound(toks, lets', afterDef);
    var (body', afterBody) := ParseFormula(afterDef).value;
    ParseFormulaSound(afterDef, body', afterBody);
    Cons1(afterBody, Lit(")"));
    assert lets == lets' && body == body' && rest == afterBody[1..];
  }

  lemma ParseLetBlockAdmits(toks: seq<Token>, lets: seq<LetExp>, body: BvFormula, rest: seq<Token>)
    requires ParseLetBlock(toks) == Some((lets, body, rest))
    ensures forall i :: 0 <= i < |lets| ==> Admitted(lets[i].value)
    ensures Admitted(body)
  {
    var (lets', afterDef) := ParseLetDef(toks).value;
    ParseLetDefAdmits(toks, lets', afterDef);
    var (body', afterBody) := ParseFormula(afterDef).value;
    ParseFormulaAdmits(afterDef, body', afterBody);
    assert lets == lets' && body == body';
  }

  lemma ParseLetFormulaSound(toks: seq<Token>, lets: seq<LetExp>, body: BvFormula, rest: seq<Token>)
    requires ParseLetFormula(toks) == Some((lets, body, rest))
    ensures toks == LetFormulaTokens(lets, body, rest)
  {
    if |toks| >= 2 && toks[0] == Lit("(") && toks[1] == Lit("let") {
      assert ParseLetBlock(toks[1..]) == Some((lets, body, rest));
      ParseLetBlockSound(toks[1..], lets, body, rest);
      Cons1(toks, Lit("("));
    } else {
      assert ParseFormula(toks) == Some((body, rest)) && lets == [];
      ParseFormulaSound(toks, body, rest);
    }
  }

  lemma ParseLetFormulaAdmits(toks: seq<Token>, lets: seq<LetExp>, body: BvFormula, rest: seq<Token>)
    requires ParseLetFormula(toks) == Some((lets, body, rest))
    ensures forall i :: 0 <= i < |lets| ==> Admitted(lets[i].value)
    ensures Admitted(body)
  {
    if |toks| >= 2 && toks[0] == Lit("(") && toks[1] == Lit("let") {
      assert ParseLetBlock(toks[1..]) == Some((lets, body, rest));
      ParseLetBlockAdmits(toks[1..], lets, body, rest);
    } else {
      assert ParseFormula(toks) == Some((body, rest)) && lets == [];
      ParseFormulaAdmits(toks, body, rest);
    }
  }

  /** Every definition the parser accepts is printed by exactly the input tokens. */
  lemma ParseBvFunSound(toks: seq<Token>, fun: BvFun)
    requires ParseBvFun(toks) == Some(fun)
    ensures toks == FunTokens(fun) && |fun.header.params| > 0
  {
    var (header, afterHeader) := ParseHeader(toks[1..]).value;
    var (lets, body, rest) := ParseLetFormula(afterHeader).value;
    assert rest == [Lit(")")];
    assert fun == BvFun(header, lets, body);
    ParseHeaderSound(toks[1..], header, afterHeader);
    ParseLetFormulaSound(afterHeader, lets, body, rest);
    Cons1(toks, Lit("(define-fun"));
  }

  /** The parser admits only the grammar's operators and constants. */
  lemma ParseBvFunAdmits(toks: seq<Token>, fun: BvFun)
    requires ParseBvFun(toks) == Some(fun)
    ensures forall i :: 0 <= i < |fun.lets| ==> Admitted(fun.lets[i].value)
    ensures Admitted(fun.body)
  {
    var (header, afterHeader) := ParseHeader(toks[1..]).value;
    var (lets, body, rest) := ParseLetFormula(afterHeader).value;
    assert fun == BvFun(header, lets, body);
    ParseLetFormulaAdmits(afterHeader, lets, body, rest);
  }

  // ------------------------------------------------------------ lexed input

  lemma {:induction false} NameTextsConcat(a: seq<Token>, b: seq<Token>)
    ensures NameTexts(a + b) == NameTexts(a) + NameTexts(b)
  {
    if a == [] {
      assert a + b == b;
    } else {
      assert (a + b)[1..] == a[1..] + b;
      NameTextsConcat(a[1..], b);
    }
  }

  /** Two literal tokens in front add no name. */
  lemma NameTextsLits(a: string, b: string, rest: seq<Token>)
    ensures NameTexts([Lit(a), Lit(b)] + rest) == NameTexts(rest)
  {
    NameTextsConcat([Lit(a), Lit(b)], rest);
    assert [Lit(a), Lit(b)][1..] == [Lit(b)];
  }

  /** The name tokens of a printed formula are its variables and those of what follows. */
  lemma {:induction false} FormulaNameTexts(t: BvFormula, rest: seq<Token>)
    ensures NameTexts(FormulaTokens(t, rest)) == Names(t) + NameTexts(rest)
  {
    match t
    case UnaryExpr(op, arg) =>
      FormulaNameTexts(arg, [Lit(")")] + rest);
      NameTextsLits("(", op, FormulaTokens(arg, [Lit(")")] + rest));
      NameTextsConcat([Lit(")")], rest);
    case BinaryExpr(op, lhs, rhs) =>
      FormulaNameTexts(rhs, [Lit(")")] + rest);
      FormulaNameTexts(lhs, FormulaTokens(rhs, [Lit(")")] + rest));
      NameTextsLits("(", op, FormulaTokens(lhs, FormulaTokens(rhs, [Lit(")")] + rest)));
      NameTextsConcat([Lit(")")], rest);
    case Variable(name) =>
      NameTextsConcat([Name(name)], rest);
    case Constant(c) =>
      NameTextsConcat([Lit(c)], rest);
  }

  /** A token that is not a name adds no name. */
  lemma NameTextsDrop(toks: seq<Token>)
    requires |toks| > 0 && !toks[0].Name?
    ensures NameTexts(toks) == NameTexts(toks[1..])
  {
  }

  /** A type adds no name. */
  lemma TypeNameTexts(width: string, rest: seq<Token>)
    ensures NameTexts(TypeTokens(width, rest)) == NameTexts(rest)
  {
    var toks := TypeTokens(width, rest);
    assert toks[1..][1..] == toks[2..] && toks[2..][1..] == toks[3..];
    assert toks[3..][1..] == toks[4..] && toks[4..][1..] == rest;
    NameTextsDrop(toks);
    NameTextsDrop(toks[1..]);
    NameTextsDrop(toks[2..]);
    NameTextsDrop(toks[3..]);
    NameTextsDrop(toks[4..]);
  }

  /** Every parameter name, and every name of what follows, is a name token of the printed parameters. */
  lemma {:induction false} VarsNameTexts(params: seq<VarDecl>, rest: seq<Token>)
    ensures forall i :: 0 <= i < |params| ==> params[i].name in NameTexts(VarsTokens(params, rest))
    ensures NameTexts(rest) <= NameTexts(VarsTokens(params, rest))
  {
    if params != [] {
      var v := params[0];
      var more := VarsTokens(params[1..], rest);
      VarsNameTexts(params[1..], rest);
      TypeNameTexts(v.width, [Lit(")")] + more);
      NameTextsConcat([Lit(")")], more);
      NameTextsConcat([Lit("("), Name(v.name)], TypeTokens(v.width, [Lit(")")] + more));
      assert NameTexts(VarsTokens(params, rest)) == {v.name} + NameTexts(more);
      forall i | 0 <= i < |params| ensures params[i].name in NameTexts(VarsTokens(params, rest)) {
        if i > 0 { assert params[i] == params[1..][i - 1]; }
      }
    }
  }

  /** Every bound name and every name a bound value uses is a name token of the printed bindings. */
  lemma {:induction false} LetsNameTexts(lets: seq<LetExp>, rest: seq<Token>)
    ensures forall i :: 0 <= i < |lets| ==> lets[i].name in NameTexts(LetsTokens(lets, rest))
    ensures forall i :: 0 <= i < |lets| ==> Names(lets[i].value) <= NameTexts(LetsTokens(lets, rest))
    ensures NameTexts(rest) <= NameTexts(LetsTokens(lets, rest))
  {
    if lets != [] {
      var e := lets[0];
      var more := LetsTokens(lets[1..], rest);
      LetsNameTexts(lets[1..], rest);
      FormulaNameTexts(e.value, [Lit(")")] + more);
      NameTextsConcat([Lit(")")], more);
      NameTextsConcat([Lit("("), Name(e.name)], FormulaTokens(e.value, [Lit(")")] + more));
      assert NameTexts(LetsTokens(lets, rest)) == {e.name} + Names(e.value) + NameTexts(more);
      forall i | 0 <= i < |lets|
        ensures lets[i].name in NameTexts(LetsTokens(lets, rest))
        ensures Names(lets[i].value) <= NameTexts(LetsTokens(lets, rest))
      {
        if i > 0 { assert lets[i] == lets[1..][i - 1]; }
      }
    }
  }

  /** Every name of a definition appears as a name token when the definition is printed. */
  lemma FunNameTexts(fun: BvFun)
    ensures forall i :: 0 <= i < |fun.header.params| ==> fun.header.params[i].name in NameTexts(FunTokens(fun))
    ensures forall i :: 0 <= i < |fun.lets| ==> fun.lets[i].name in NameTexts(FunTokens(fun))
    ensures forall i :: 0 <= i < |fun.lets| ==> Names(fun.lets[i].value) <= NameTexts(FunTokens(fun))
    ensures Names(fun.body) <= NameTexts(FunTokens(fun))
  {
    var h := fun.header;
    var afterHeader := LetFormulaTokens(fun.lets, fun.body, [Lit(")")]);
    var afterVars := [Lit(")")] + TypeTokens(h.width, afterHeader);
    VarsNameTexts(h.params, afterVars);
    TypeNameTexts(h.width, afterHeader);
    NameTextsConcat([Lit(")")], TypeTokens(h.width, afterHeader));
    NameTextsLits("phi", "(", VarsTokens(h.params, afterVars));
    NameTextsConcat([Lit("(define-fun")], HeaderTokens(h, afterHeader));
    assert NameTexts(FunTokens(fun)) == NameTexts(VarsTokens(h.params, afterVars));
    assert NameTexts(afterHeader) <= NameTexts(FunTokens(fun));
    if fun.lets == [] {
      FormulaNameTexts(fun.body, [Lit(")")]);
    } else {
      var afterBody := [Lit(")")] + [Lit(")")];
      var afterDef := FormulaTokens(fun.body, afterBody);
      FormulaNameTexts(fun.body, afterBody);
      LetsNameTexts(fun.lets, [Lit(")")] + afterDef);
      NameTextsConcat([Lit(")")], afterDef);
      NameTextsLits("let", "(", LetsTokens(fun.lets, [Lit(")")] + afterDef));
      NameTextsConcat([Lit("(")], LetDefTokens(fun.lets, afterDef));
      assert NameTexts(afterHeader) == NameTexts(LetsTokens(fun.lets, [Lit(")")] + afterDef));
    }
  }

  /** A lexed definition the parser accepts conforms to the grammar: names are never keywords and
      every operator and constant is one the grammar admits. */
  lemma ParseBvFunConforms(toks: seq<Token>, fun: BvFun)
    requires Lexed(toks) && ParseBvFun(toks) == Some(fun)
    ensures FunConforms(fun)
  {
    ParseBvFunSound(toks, fun);
    ParseBvFunAdmits(toks, fun);
    FunNameTexts(fun);
  }
}
