/**
 * `pLTLParser`: the entry points for the ADT and bit-vector dialects, each
 * answering `None` where parsing raises `ParseError`, and `dict_var`, which
 * renames the variables of a finished tree through a caller's map.
 */
module PltlParser {
  import opened Wrappers
  import opened Formulas
  import opened Tokens
  import AdtDialect
  import AdtGrammar
  import BvDialect
  import BvGrammar

  // ------------------------------------------------------------- parse_adt

  /** `parse_adt`: the definition's formula, or `None` when the input is not in the grammar. */
  function ParseAdt(toks: seq<Token>): (r: Option<Formula>)
    ensures r.Some? <==> AdtGrammar.ParseDefineFun(toks).Some?
    ensures r.Some? ==> WellFormed(r.value) && Labels(r.value) !! AdtDialect.ADT_SURFACE_TOKENS
  {
    match AdtGrammar.ParseDefineFun(toks)
    case None => None
    case Some(fun) =>
      AdtGrammar.ParseFunSound(toks);
      Some(AdtDialect.FunToFormula(fun))
  }

  /** A printed definition parses back to the formula of the definition. */
  lemma ParseAdtPrinted(fun: AdtDialect.AdtFun)
    requires AdtDialect.Conforms(fun.body)
    ensures ParseAdt(AdtGrammar.FunTokens(fun)) == Some(AdtDialect.FunToFormula(fun))
  {
    AdtGrammar.ParseFunTokens(fun);
  }

  // -------------------------------------------------------------- parse_bv

  /**
   * `parse_bv`, with the grammar as written: the transformer reduces the
   * parsed definition. `shared` stands for the class `BVTreeToFormula`,
   * whose `var_dict` every instance shares, so the let-definitions of this
   * parse are added to what earlier parses stored. A lexed input yields a
   * tree in which no surface token of the dialect remains, and it keeps
   * the shared map free of them.
   */
  method ParseBv(shared: BvDialect.BvTreeToFormula, toks: seq<Token>) returns (r: Option<Formula>)
    modifies shared
    ensures r.Some? <==> BvGrammar.ParseBvFunAsWritten(toks).Some?
    ensures r.Some? ==>
      var fun := BvGrammar.ParseBvFunAsWritten(toks).value;
      |fun.lets| <= 1
      && shared.varDict == BvDialect.BindLets(fun.lets, old(shared.varDict))
      && r.value == BvDialect.Build(fun.body, shared.varDict)
    ensures r.Some? && old(shared.varDict) == map[] ==>
      r.value == BvDialect.FunToFormula(BvGrammar.ParseBvFunAsWritten(toks).value)
    ensures r.Some? && BvGrammar.Lexed(toks) && BvDialect.MapAvoids(old(shared.varDict), BvDialect.BV_SURFACE_TOKENS) ==>
      Labels(r.value) !! BvDialect.BV_SURFACE_TOKENS && BvDialect.MapAvoids(shared.varDict, BvDialect.BV_SURFACE_TOKENS)
  {
    BvGrammar.ParseBvFunAsWrittenAgrees(toks);
    match BvGrammar.ParseBvFunAsWritten(toks)
    case None =>
      r := None;
    case Some(fun) =>
      var before := shared.varDict;
      var f := shared.BvFun(fun);
      if BvGrammar.Lexed(toks) && BvDialect.MapAvoids(before, BvDialect.BV_SURFACE_TOKENS) {
        BvGrammar.ParseBvFunConforms(toks, fun);
        BvDialect.BindLetsNormalised(fun.lets, before);
        BvDialect.BuildNormalised(fun.body, shared.varDict);
      }
      r := Some(f);
  }

  /** `parse_bv` with the corrected let-block, which holds one or more definitions. */
  method ParseBvCorrected(shared: BvDialect.BvTreeToFormula, toks: seq<Token>) returns (r: Option<Formula>)
    modifies shared
    ensures r.Some? <==> BvGrammar.ParseBvFun(toks).Some?
    ensures r.Some? ==>
      var fun := BvGrammar.ParseBvFun(toks).value;
      shared.varDict == BvDialect.BindLets(fun.lets, old(shared.varDict))
      && r.value == BvDialect.Build(fun.body, shared.varDict)
    ensures r.Some? && old(shared.varDict) == map[] ==>
      r.value == BvDialect.FunToFormula(BvGrammar.ParseBvFun(toks).value)
    ensures r.Some? && BvGrammar.Lexed(toks) && BvDialect.MapAvoids(old(shared.varDict), BvDialect.BV_SURFACE_TOKENS) ==>
      Labels(r.value) !! BvDialect.BV_SURFACE_TOKENS && BvDialect.MapAvoids(shared.varDict, BvDialect.BV_SURFACE_TOKENS)
  {
    match BvGrammar.ParseBvFun(toks)
    case None =>
      r := None;
    case Some(fun) =>
      var before := shared.varDict;
      var f := shared.BvFun(fun);
      if BvGrammar.Lexed(toks) && BvDialect.MapAvoids(before, BvDialect.BV_SURFACE_TOKENS) {
        BvGrammar.ParseBvFunConforms(toks, fun);
        BvDialect.BindLetsNormalised(fun.lets, before);
        BvDialect.BuildNormalised(fun.body, shared.varDict);
      }
      r := Some(f);
  }

  /**
   * The shared map at work: after `(let ((a x)) a)` has been parsed, a later
   * definition whose body is the free name `a` yields `x`, where a parse
   * with an empty map yields the leaf `a`.
   */
  method LeakAcrossParses() returns (first: Option<Formula>, second: Option<Formula>)
    ensures first == Some(Leaf("x"))
    ensures second == Some(Leaf("x"))
    ensures second != Some(Leaf("a"))
  {
    var shared := new BvDialect.BvTreeToFormula();
    var withLet := BvDialect.BvFun(BvDialect.FuncDef([BvDialect.VarDecl("x", "1")], "1"),
                                   [BvDialect.LetExp("a", BvDialect.Variable("x"))], BvDialect.Variable("a"));
    var freeName := BvDialect.BvFun(BvDialect.FuncDef([BvDialect.VarDecl("y", "1")], "1"), [], BvDialect.Variable("a"));
    assert "a" !in BvDialect.BV_KEYWORDS && "x" !in BvDialect.BV_KEYWORDS && "y" !in BvDialect.BV_KEYWORDS;
    assert BvDialect.FunConforms(withLet) && BvDialect.FunConforms(freeName);
    BvGrammar.ParseBvFunAsWrittenTokens(withLet);
    BvGrammar.ParseBvFunAsWrittenTokens(freeName);
    first := ParseBv(shared, BvGrammar.FunTokens(withLet));
    assert withLet.lets[..0] == [];
    assert shared.varDict == map["a" := Leaf("x")];
    second := ParseBv(shared, BvGrammar.FunTokens(freeName));
  }

  // -------------------------------------------------------------- dict_var

  /** The `KeyError` of a lookup in the renaming map. */
  datatype RelabelError = KeyNotFound(key: string)

  /**
   * `dict_var`: every leaf other than `TRUE` and `FALSE` is renamed through
   * `varsDict`; inner nodes keep their label and are rebuilt from the renamed
   * left child, then the renamed right child. A leaf whose label is not a key
   * fails the call.
   */
  function DictVar(f: Option<Formula>, varsDict: map<string, string>): (r: Result<Option<Formula>, RelabelError>)
    ensures r.Ok? ==> (r.value.Some? <==> f.Some?)
    ensures r.Err? ==> r.error.key in VariableLabels(f) && r.error.key !in varsDict
    decreases f
  {
    match f
    case None => Ok(None)
    case Some(g) =>
      if IsLeaf(g) then
        if IsConstant(g.symbol) then Ok(Some(Leaf(g.symbol)))
        else if g.symbol in varsDict then Ok(Some(Leaf(varsDict[g.symbol])))
        else Err(KeyNotFound(g.symbol))
      else
        match DictVar(g.left, varsDict)
        case Err(e) => Err(e)
        case Ok(left) =>
          match DictVar(g.right, varsDict)
          case Err(e) => Err(e)
          case Ok(right) => Ok(Some(Formula(g.symbol, left, right)))
  }

  /**
   * `g` is `f` with its variables renamed by `varsDict`: the same shape, the
   * same label at every inner node and every constant leaf, and the image
   * under `varsDict` at every other leaf.
   */
  predicate Relabelled(f: Option<Formula>, g: Option<Formula>, varsDict: map<string, string>)
    decreases f
  {
    match f
    case None => g.None?
    case Some(a) =>
      match g
      case None => false
      case Some(b) =>
        if IsLeaf(a) then
          IsLeaf(b)
          && (if IsConstant(a.symbol) then b.symbol == a.symbol
              else a.symbol in varsDict && b.symbol == varsDict[a.symbol])
        else
          !IsLeaf(b) && b.symbol == a.symbol
          && Relabelled(a.left, b.left, varsDict) && Relabelled(a.right, b.right, varsDict)
  }

  /** The call succeeds exactly when every variable is a key; a failure names a variable that is not. */
  lemma {:induction false} DictVarOkIff(f: Option<Formula>, varsDict: map<string, string>)
    ensures DictVar(f, varsDict).Ok? <==> VariableLabels(f) <= varsDict.Keys
    ensures DictVar(f, varsDict).Err? ==>
      DictVar(f, varsDict).error.key in VariableLabels(f) && DictVar(f, varsDict).error.key !in varsDict
    decreases f
  {
    match f
    case None =>
    case Some(g) =>
      if !IsLeaf(g) {
        DictVarOkIff(g.left, varsDict);
        DictVarOkIff(g.right, varsDict);
      }
  }

  /** A successful call renames the variables and changes nothing else. */
  lemma {:induction false} DictVarRelabels(f: Option<Formula>, varsDict: map<string, string>)
    requires DictVar(f, varsDict).Ok?
    ensures Relabelled(f, DictVar(f, varsDict).value, varsDict)
    decreases f
  {
    match f
    case None =>
    case Some(g) =>
      if !IsLeaf(g) {
        DictVarRelabels(g.left, varsDict);
        DictVarRelabels(g.right, varsDict);
      }
  }

  /** The renaming relation has at most one result, so it determines the call's result. */
  lemma {:induction false} RelabelledUnique(f: Option<Formula>, g1: Option<Formula>, g2: Option<Formula>, varsDict: map<string, string>)
    requires Relabelled(f, g1, varsDict) && Relabelled(f, g2, varsDict)
    ensures g1 == g2
    decreases f
  {
    match f
    case None =>
    case Some(a) =>
      if !IsLeaf(a) {
        RelabelledUnique(a.left, g1.value.left, g2.value.left, varsDict);
        RelabelledUnique(a.right, g1.value.right, g2.value.right, varsDict);
      }
  }

  /** `None` is passed through with any map. */
  lemma DictVarNone(varsDict: map<string, string>)
    ensures DictVar(None, varsDict) == Ok(None)
  {
  }

  /** A map sending every variable to itself gives the input back. */
  lemma {:induction false} DictVarIdentity(f: Option<Formula>, varsDict: map<string, string>)
    requires forall v :: v in VariableLabels(f) ==> v in varsDict && varsDict[v] == v
    ensures DictVar(f, varsDict) == Ok(f)
    decreases f
  {
    match f
    case None =>
    case Some(g) =>
      if !IsLeaf(g) {
        DictVarIdentity(g.left, varsDict);
        DictVarIdentity(g.right, varsDict);
      }
  }

  /** Renaming to labels that are not operators keeps the arity invariant. */
  lemma {:induction false} DictVarWellFormed(f: Formula, varsDict: map<string, string>)
    requires WellFormed(f)
    requires forall v :: v in varsDict ==> !IsOperator(varsDict[v])
    requires DictVar(Some(f), varsDict).Ok?
    ensures DictVar(Some(f), varsDict).value.Some?
    ensures WellFormed(DictVar(Some(f), varsDict).value.value)
    decreases f
  {
    if f.symbol in BINARY_OPS {
      DictVarWellFormed(f.left.value, varsDict);
      DictVarWellFormed(f.right.value, varsDict);
    } else if f.symbol in UNARY_OPS {
      DictVarWellFormed(f.left.value, varsDict);
    }
  }

  /**
   * Renaming twice is renaming once by the composed map, as long as the first
   * map never renames a variable to `TRUE` or `FALSE`, which the second pass
   * would then keep.
   */
  lemma {:induction false} DictVarCompose(f: Option<Formula>, first: map<string, string>, second: map<string, string>)
    requires VariableLabels(f) <= first.Keys
    requires forall v :: v in first ==> !IsConstant(first[v]) && first[v] in second
    ensures DictVar(f, first).Ok?
    ensures DictVar(DictVar(f, first).value, second) == DictVar(f, map v | v in first :: second[first[v]])
    decreases f
  {
    DictVarOkIff(f, first);
    match f
    case None =>
    case Some(g) =>
      if !IsLeaf(g) {
        DictVarCompose(g.left, first, second);
        DictVarCompose(g.right, first, second);
      }
  }
}
