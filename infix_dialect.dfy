/**
 * The infix dialect and its transformer `TreeToFormula`: `& (a, b)`,
 * `G a`, `G (a)` and bare variable names. Operators are already spelled
 * canonically, so the transformer copies them, and `variable` makes a leaf
 * named by the token.
 */
module InfixDialect {
  import opened Wrappers
  import opened Formulas

  /**
   * The texts a variable name can never have: the operator symbols, and the
   * constant keywords `Top` and `Bottom`, which the lexer never gives out
   * as a name.
   */
  const INFIX_RESERVED: set<string> := BINARY_OPS + UNARY_OPS + {"Top", "Bottom"}

  /** One `formula` of the infix grammar other than a constant. */
  datatype InfixFormula =
    | BinaryExpr(op: string, lhs: InfixFormula, rhs: InfixFormula)
    | UnaryExpr(op: string, arg: InfixFormula)
    | Variable(name: string)

  /** The operators are those of `!binary_op` and `!unary_op`, and no name is reserved. */
  predicate Conforms(t: InfixFormula) {
    match t
    case BinaryExpr(op, lhs, rhs) => op in BINARY_OPS && Conforms(lhs) && Conforms(rhs)
    case UnaryExpr(op, arg) => op in UNARY_OPS && Conforms(arg)
    case Variable(name) => name !in INFIX_RESERVED
  }

  /** `variable`: a leaf labelled with the name token's text. */
  function InfixVariable(name: string): (f: Formula)
    ensures IsLeaf(f) && f.symbol == name
    ensures name !in INFIX_RESERVED ==> WellFormed(f) && !IsOperator(f.symbol)
  {
    Leaf(name)
  }

  /**
   * The transformer over a whole parse tree: `formula` receives
   * `[op, lhs, rhs]` or `[op, arg]` with the operator text unchanged.
   */
  function ToFormula(t: InfixFormula): (f: Formula)
    ensures Conforms(t) ==> WellFormed(f)
    ensures Conforms(t) ==> LeafLabels(f) !! INFIX_RESERVED
  {
    match t
    case BinaryExpr(op, lhs, rhs) => Binary(op, ToFormula(lhs), ToFormula(rhs))
    case UnaryExpr(op, arg) => Unary(op, ToFormula(arg))
    case Variable(name) => InfixVariable(name)
  }

  /** The parse tree a canonical tree came from, if there is one. */
  function FromFormula(f: Formula): Option<InfixFormula> {
    if f.symbol in BINARY_OPS then
      if f.left.Some? && f.right.Some? then
        match (FromFormula(f.left.value), FromFormula(f.right.value))
        case (Some(lhs), Some(rhs)) => Some(BinaryExpr(f.symbol, lhs, rhs))
        case _ => None
      else None
    else if f.symbol in UNARY_OPS then
      if f.left.Some? && f.right.None? then
        match FromFormula(f.left.value)
        case Some(arg) => Some(UnaryExpr(f.symbol, arg))
        case None => None
      else None
    else if IsLeaf(f) && f.symbol !in INFIX_RESERVED then Some(Variable(f.symbol))
    else None
  }

  /** The translation loses nothing: the parse tree can be read back. */
  lemma {:induction false} FromToFormula(t: InfixFormula)
    requires Conforms(t)
    ensures FromFormula(ToFormula(t)) == Some(t)
  {
    match t
    case BinaryExpr(op, lhs, rhs) =>
      FromToFormula(lhs);
      FromToFormula(rhs);
    case UnaryExpr(op, arg) =>
      FromToFormula(arg);
    case Variable(name) =>
  }

  /** Whatever the reverse translation accepts is the image of a conforming parse tree. */
  lemma {:induction false} ToFromFormula(f: Formula, t: InfixFormula)
    requires FromFormula(f) == Some(t)
    ensures Conforms(t) && ToFormula(t) == f
  {
    if f.symbol in BINARY_OPS {
      ToFromFormula(f.left.value, FromFormula(f.left.value).value);
      ToFromFormula(f.right.value, FromFormula(f.right.value).value);
    } else if f.symbol in UNARY_OPS {
      ToFromFormula(f.left.value, FromFormula(f.left.value).value);
    }
  }

  /**
   * The trees the infix transformer can produce are exactly the well-formed
   * trees none of whose leaves is labelled `Top` or `Bottom`.
   */
  lemma {:induction false} FromFormulaDefined(f: Formula)
    ensures FromFormula(f).Some? <==> WellFormed(f) && LeafLabels(f) !! {"Top", "Bottom"}
  {
    if f.symbol in BINARY_OPS {
      if f.left.Some? && f.right.Some? {
        FromFormulaDefined(f.left.value);
        FromFormulaDefined(f.right.value);
      }
    } else if f.symbol in UNARY_OPS {
      if f.left.Some? && f.right.None? {
        FromFormulaDefined(f.left.value);
      }
    }
  }

  /** Two conforming parse trees never translate to the same formula. */
  lemma ToFormulaInjective(t1: InfixFormula, t2: InfixFormula)
    requires Conforms(t1) && Conforms(t2)
    requires ToFormula(t1) == ToFormula(t2)
    ensures t1 == t2
  {
    FromToFormula(t1);
    FromToFormula(t2);
  }
}
