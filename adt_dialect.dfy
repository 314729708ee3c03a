/**
 * The ADT dialect and its transformer `ADTTreeToFormula`: parse trees of
 * `(define-fun name () Formula body)` and their bottom-up translation into
 * the canonical tree, normalising operator tokens and constants and naming
 * variable `n` as `pn`.
 */
module AdtDialect {
  import opened Wrappers
  import opened Formulas

  /** The tokens of `!binary_op`, `!unary_op` and `!constants`. */
  const ADT_BINARY_TOKENS: set<string> := {"AND", "OR", "IMPLIES", "S"}
  const ADT_UNARY_TOKENS: set<string> := {"NOT", "Y", "H", "O"}
  const ADT_CONSTANT_TOKENS: set<string> := {"Top", "Bottom"}

  /** The surface tokens that have a different canonical spelling. */
  const ADT_SURFACE_TOKENS: set<string> := {"AND", "OR", "IMPLIES", "NOT", "Top", "Bottom"}

  /** One `formula` of the ADT grammar, with its tokens' text. */
  datatype AdtFormula =
    | Op2(op: string, lhs: AdtFormula, rhs: AdtFormula)
    | Op1(op: string, arg: AdtFormula)
    | P(number: string)
    | Constant(token: string)

  /** `(define-fun name () Formula body)`. */
  datatype AdtFun = DefineFun(name: string, body: AdtFormula)

  /** The operator and constant tokens are those the grammar admits. */
  predicate Conforms(t: AdtFormula) {
    match t
    case Op2(op, lhs, rhs) => op in ADT_BINARY_TOKENS && Conforms(lhs) && Conforms(rhs)
    case Op1(op, arg) => op in ADT_UNARY_TOKENS && Conforms(arg)
    case P(_) => true
    case Constant(c) => c in ADT_CONSTANT_TOKENS
  }

  /** `binary_op`: three tests in a row, each renaming one token. */
  function BinaryOp(token: string): (op: string)
    ensures token == "AND" ==> op == "&"
    ensures token == "OR" ==> op == "|"
    ensures token == "IMPLIES" ==> op == "=>"
    ensures token !in {"AND", "OR", "IMPLIES"} ==> op == token
    ensures token in ADT_BINARY_TOKENS ==> op in BINARY_OPS
    ensures op !in {"AND", "OR", "IMPLIES"}
  {
    var afterAnd := if token == "AND" then "&" else token;
    var afterOr := if afterAnd == "OR" then "|" else afterAnd;
    if afterOr == "IMPLIES" then "=>" else afterOr
  }

  /** `unary_op`: only `NOT` is renamed. */
  function UnaryOp(token: string): (op: string)
    ensures token == "NOT" ==> op == "!"
    ensures token != "NOT" ==> op == token
    ensures token in ADT_UNARY_TOKENS ==> op in UNARY_OPS
    ensures op != "NOT"
  {
    if token == "NOT" then "!" else token
  }

  /** `constants`: a leaf, `Top` read as `TRUE` and `Bottom` as `FALSE`. */
  function Constants(token: string): (f: Formula)
    ensures IsLeaf(f)
    ensures token == "Top" ==> f.symbol == "TRUE"
    ensures token == "Bottom" ==> f.symbol == "FALSE"
    ensures token !in ADT_CONSTANT_TOKENS ==> f.symbol == token
  {
    if token == "Top" then Leaf("TRUE")
    else if token == "Bottom" then Leaf("FALSE")
    else Leaf(token)
  }

  /** `variable`: the leaf `p` followed by the number's text. */
  function Variable(number: string): (f: Formula)
    ensures IsLeaf(f) && |f.symbol| == |number| + 1
    ensures f.symbol[0] == 'p' && f.symbol[1..] == number
  {
    Leaf("p" + number)
  }

  /**
   * The transformer over a whole parse tree. `formula` builds
   * `PLTLFormula([op, lhs, rhs])` or `PLTLFormula([op, arg])` from the already
   * transformed children; a variable or constant is passed up unchanged.
   * A tree the grammar admits becomes a well-formed tree in which no surface
   * token survives as a label.
   */
  function ToFormula(t: AdtFormula): (f: Formula)
    ensures Conforms(t) ==> WellFormed(f)
    ensures Conforms(t) ==> Labels(f) !! ADT_SURFACE_TOKENS
  {
    match t
    case Op2(op, lhs, rhs) => Binary(BinaryOp(op), ToFormula(lhs), ToFormula(rhs))
    case Op1(op, arg) => Unary(UnaryOp(op), ToFormula(arg))
    case P(n) => Variable(n)
    case Constant(c) => Constants(c)
  }

  /** `?func` and `?start` pass the body's formula through: the name is dropped. */
  function FunToFormula(fun: AdtFun): (f: Formula)
    ensures Conforms(fun.body) ==> WellFormed(f) && Labels(f) !! ADT_SURFACE_TOKENS
  {
    ToFormula(fun.body)
  }

  /** The ADT spelling of a canonical binary operator. */
  function BinaryToken(op: string): string {
    if op == "&" then "AND" else if op == "|" then "OR" else if op == "=>" then "IMPLIES" else op
  }

  /** The ADT spelling of a canonical unary operator. */
  function UnaryToken(op: string): string {
    if op == "!" then "NOT" else op
  }

  /**
   * The reverse translation: the ADT parse tree a canonical tree came from,
   * if there is one.
   */
  function FromFormula(f: Formula): Option<AdtFormula> {
    if f.symbol in {"&", "|", "=>", "S"} && f.left.Some? && f.right.Some? then
      match (FromFormula(f.left.value), FromFormula(f.right.value))
      case (Some(lhs), Some(rhs)) => Some(Op2(BinaryToken(f.symbol), lhs, rhs))
      case _ => None
    else if f.symbol in {"!", "Y", "H", "O"} && f.left.Some? && f.right.None? then
      match FromFormula(f.left.value)
      case Some(arg) => Some(Op1(UnaryToken(f.symbol), arg))
      case None => None
    else if IsLeaf(f) && f.symbol == "TRUE" then Some(Constant("Top"))
    else if IsLeaf(f) && f.symbol == "FALSE" then Some(Constant("Bottom"))
    else if IsLeaf(f) && |f.symbol| > 0 && f.symbol[0] == 'p' then Some(P(f.symbol[1..]))
    else None
  }

  /** Nothing is lost by the normalisation: the parse tree can be read back. */
  lemma {:induction false} FromToFormula(t: AdtFormula)
    requires Conforms(t)
    ensures FromFormula(ToFormula(t)) == Some(t)
  {
    match t
    case Op2(op, lhs, rhs) =>
      FromToFormula(lhs);
      FromToFormula(rhs);
    case Op1(op, arg) =>
      FromToFormula(arg);
    case P(n) =>
      assert ("p" + n)[1..] == n;
    case Constant(c) =>
  }

  /** Every tree the reverse translation accepts is one the transformer produces. */
  lemma {:induction false} ToFromFormula(f: Formula, t: AdtFormula)
    requires FromFormula(f) == Some(t)
    ensures Conforms(t) && ToFormula(t) == f
  {
    if f.symbol in {"&", "|", "=>", "S"} && f.left.Some? && f.right.Some? {
      ToFromFormula(f.left.value, FromFormula(f.left.value).value);
      ToFromFormula(f.right.value, FromFormula(f.right.value).value);
    } else if f.symbol in {"!", "Y", "H", "O"} && f.left.Some? && f.right.None? {
      ToFromFormula(f.left.value, FromFormula(f.left.value).value);
    } else if IsLeaf(f) && (f.symbol == "TRUE" || f.symbol == "FALSE") {
    } else {
      assert "p" + f.symbol[1..] == f.symbol;
    }
  }

  /** Two parse trees the grammar admits never translate to the same formula. */
  lemma ToFormulaInjective(t1: AdtFormula, t2: AdtFormula)
    requires Conforms(t1) && Conforms(t2)
    requires ToFormula(t1) == ToFormula(t2)
    ensures t1 == t2
  {
    FromToFormula(t1);
    FromToFormula(t2);
  }
}
