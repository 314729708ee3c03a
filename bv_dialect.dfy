/**
 * The bit-vector dialect and its transformer `BVTreeToFormula`: parse trees
 * of `(define-fun phi ((x (_ BitVec w)) ...) (_ BitVec w) body)`, where the
 * body may be preceded by let-definitions, and their bottom-up translation.
 * Operators and constants are normalised as in the ADT dialect; a variable
 * whose name a let-definition has bound stands for the bound formula.
 *
 * The let map is specified by a fold (`BindLets`, `Build`) and implemented,
 * as in the source, by an object whose map field `let_exp` updates and
 * `variable` reads.
 */
module BvDialect {
  import opened Wrappers
  import opened Formulas

  /** The tokens of `!binary_op`, `!unary_op` and `!constants`. */
  const BV_BINARY_TOKENS: set<string> := {"S", "bvimpl", "bvor", "bvand"}
  const BV_UNARY_TOKENS: set<string> := {"Y", "H", "O", "bvnot"}
  const BV_CONSTANT_TOKENS: set<string> := {"S_TRUE", "S_FALSE"}

  /** The surface tokens that have a different canonical spelling. */
  const BV_SURFACE_TOKENS: set<string> := {"bvand", "bvor", "bvimpl", "bvnot", "S_TRUE", "S_FALSE"}

  /** Every string literal of the grammar; the lexer never hands one of these over as a `CNAME`. */
  const BV_KEYWORDS: set<string> :=
    BV_BINARY_TOKENS + BV_UNARY_TOKENS + BV_CONSTANT_TOKENS + {"phi", "let", "_", "BitVec"}

  /** One `formula` of the grammar, with its tokens' text. */
  datatype BvFormula =
    | UnaryExpr(op: string, arg: BvFormula)
    | BinaryExpr(op: string, lhs: BvFormula, rhs: BvFormula)
    | Variable(name: string)
    | Constant(token: string)

  /** `(x (_ BitVec w))` among the parameters. */
  datatype VarDecl = VarDecl(name: string, width: string)

  /** `func_def`: `phi (params) (_ BitVec width)`. */
  datatype FuncDef = FuncDef(params: seq<VarDecl>, width: string)

  /** `let_exp`: `(name value)`. */
  datatype LetExp = LetExp(name: string, value: BvFormula)

  /**
   * `bv_fun`. `lets` are the definitions of the let-block around the body, in
   * document order; an empty `lets` is a body written without a let-block.
   */
  datatype BvFun = BvFun(header: FuncDef, lets: seq<LetExp>, body: BvFormula)

  /** The operator and constant tokens are those the grammar admits; names are not keywords. */
  predicate Conforms(t: BvFormula) {
    match t
    case UnaryExpr(op, arg) => op in BV_UNARY_TOKENS && Conforms(arg)
    case BinaryExpr(op, lhs, rhs) => op in BV_BINARY_TOKENS && Conforms(lhs) && Conforms(rhs)
    case Variable(name) => name !in BV_KEYWORDS
    case Constant(c) => c in BV_CONSTANT_TOKENS
  }

  predicate LetsConform(lets: seq<LetExp>) {
    forall i :: 0 <= i < |lets| ==> lets[i].name !in BV_KEYWORDS && Conforms(lets[i].value)
  }

  predicate FunConforms(fun: BvFun) {
    |fun.header.params| > 0
    && (forall i :: 0 <= i < |fun.header.params| ==> fun.header.params[i].name !in BV_KEYWORDS)
    && LetsConform(fun.lets) && Conforms(fun.body)
  }

  /** The variable names a formula refers to. */
  function Names(t: BvFormula): set<string> {
    match t
    case UnaryExpr(_, arg) => Names(arg)
    case BinaryExpr(_, lhs, rhs) => Names(lhs) + Names(rhs)
    case Variable(name) => {name}
    case Constant(_) => {}
  }

  /** The names the let-definitions bind. */
  function BoundNames(lets: seq<LetExp>): set<string> {
    if lets == [] then {} else BoundNames(lets[..|lets| - 1]) + {lets[|lets| - 1].name}
  }

  /** `binary_op`: an if-elif chain renaming the three `bv` connectives. */
  function BinaryOp(token: string): (op: string)
    ensures token == "bvand" ==> op == "&"
    ensures token == "bvor" ==> op == "|"
    ensures token == "bvimpl" ==> op == "=>"
    ensures token !in {"bvand", "bvor", "bvimpl"} ==> op == token
    ensures token in BV_BINARY_TOKENS ==> op in BINARY_OPS
    ensures op !in {"bvand", "bvor", "bvimpl"}
  {
    if token == "bvand" then "&"
    else if token == "bvor" then "|"
    else if token == "bvimpl" then "=>"
    else token
  }

  /** `unary_op`: only `bvnot` is renamed. */
  function UnaryOp(token: string): (op: string)
    ensures token == "bvnot" ==> op == "!"
    ensures token != "bvnot" ==> op == token
    ensures token in BV_UNARY_TOKENS ==> op in UNARY_OPS
    ensures op != "bvnot"
  {
    if token == "bvnot" then "!" else token
  }

  /** `constants`: a leaf, `S_TRUE` read as `TRUE` and `S_FALSE` as `FALSE`. */
  function Constants(token: string): (f: Formula)
    ensures IsLeaf(f)
    ensures token == "S_TRUE" ==> f.symbol == "TRUE"
    ensures token == "S_FALSE" ==> f.symbol == "FALSE"
    ensures token !in BV_CONSTANT_TOKENS ==> f.symbol == token
  {
    if token == "S_TRUE" then Leaf("TRUE")
    else if token == "S_FALSE" then Leaf("FALSE")
    else Leaf(token)
  }

  /** `variable`: the formula bound to the name, or else a fresh leaf named so. */
  function VariableFormula(name: string, varDict: map<string, Formula>): (f: Formula)
    ensures name in varDict ==> f == varDict[name]
    ensures name !in varDict ==> IsLeaf(f) && f.symbol == name
  {
    if name in varDict then varDict[name] else Leaf(name)
  }

  /**
   * The formula a parse tree reduces to while the let map is `varDict`.
   * No reduction inside a formula changes the map, so one map serves the
   * whole tree.
   */
  function Build(t: BvFormula, varDict: map<string, Formula>): Formula {
    match t
    case UnaryExpr(op, arg) => Unary(UnaryOp(op), Build(arg, varDict))
    case BinaryExpr(op, lhs, rhs) => Binary(BinaryOp(op), Build(lhs, varDict), Build(rhs, varDict))
    case Variable(name) => VariableFormula(name, varDict)
    case Constant(c) => Constants(c)
  }

  /**
   * The let map after the definitions `lets`, starting from `varDict`: each
   * `let_exp` is reduced after its value, and stores the value under its name.
   */
  function BindLets(lets: seq<LetExp>, varDict: map<string, Formula>): map<string, Formula> {
    if lets == [] then varDict
    else
      var before := BindLets(lets[..|lets| - 1], varDict);
      var last := lets[|lets| - 1];
      before[last.name := Build(last.value, before)]
  }

  /** `bv_fun`: the body's formula under a let map that starts empty; header and let-block yield nothing else. */
  function FunToFormula(fun: BvFun): Formula {
    Build(fun.body, BindLets(fun.lets, map[]))
  }

  /** The position of the last definition of `n`, or -1 when `lets` does not define it. */
  function LastBinding(lets: seq<LetExp>, n: string): (j: int)
    ensures -1 <= j < |lets|
    ensures j >= 0 ==> lets[j].name == n
    ensures forall k :: j < k < |lets| ==> lets[k].name != n
    ensures j >= 0 <==> n in BoundNames(lets)
  {
    if lets == [] then -1
    else if lets[|lets| - 1].name == n then |lets| - 1
    else LastBinding(lets[..|lets| - 1], n)
  }

  /**
   * What the let map holds after the definitions: the names bound before and
   * those the definitions bind; a name keeps its earlier entry unless some
   * definition binds it, and then holds the value of its LAST definition,
   * reduced under the map as it stood just before that definition.
   */
  lemma {:induction false} BindLetsLookup(lets: seq<LetExp>, varDict: map<string, Formula>, n: string)
    ensures n in BindLets(lets, varDict) <==> n in varDict || n in BoundNames(lets)
    ensures LastBinding(lets, n) == -1 && n in varDict ==> BindLets(lets, varDict)[n] == varDict[n]
    ensures LastBinding(lets, n) >= 0 ==>
      var j := LastBinding(lets, n);
      BindLets(lets, varDict)[n] == Build(lets[j].value, BindLets(lets[..j], varDict))
  {
    if lets != [] {
      var prefix := lets[..|lets| - 1];
      BindLetsLookup(prefix, varDict, n);
      var j := LastBinding(lets, n);
      if j >= 0 && j < |lets| - 1 {
        assert prefix[..j] == lets[..j];
      }
    }
  }

  /** Two definitions of one name in a row: the second one wins. */
  lemma LastWriterWins(lets: seq<LetExp>, n: string, first: BvFormula, second: BvFormula)
    ensures
      var all := lets + [LetExp(n, first), LetExp(n, second)];
      BindLets(all, map[])[n] == Build(second, BindLets(lets + [LetExp(n, first)], map[]))
  {
    var all := lets + [LetExp(n, first), LetExp(n, second)];
    assert all[..|all| - 1] == lets + [LetExp(n, first)];
  }

  /** None of the labels of the formulas held in the map is in `bad`. */
  ghost predicate MapAvoids(varDict: map<string, Formula>, bad: set<string>) {
    forall n :: n in varDict ==> Labels(varDict[n]) !! bad
  }

  /** Every formula held in the map is well-formed. */
  ghost predicate MapWellFormed(varDict: map<string, Formula>) {
    forall n :: n in varDict ==> WellFormed(varDict[n])
  }

  /** No surface token survives the reduction of a formula the grammar admits. */
  lemma {:induction false} BuildNormalised(t: BvFormula, varDict: map<string, Formula>)
    requires Conforms(t) && MapAvoids(varDict, BV_SURFACE_TOKENS)
    ensures Labels(Build(t, varDict)) !! BV_SURFACE_TOKENS
  {
    match t
    case UnaryExpr(op, arg) => BuildNormalised(arg, varDict);
    case BinaryExpr(op, lhs, rhs) => BuildNormalised(lhs, varDict); BuildNormalised(rhs, varDict);
    case Variable(name) =>
    case Constant(c) =>
  }

  /** Reducing admitted definitions keeps the let map free of surface tokens. */
  lemma {:induction false} BindLetsNormalised(lets: seq<LetExp>, varDict: map<string, Formula>)
    requires LetsConform(lets) && MapAvoids(varDict, BV_SURFACE_TOKENS)
    ensures MapAvoids(BindLets(lets, varDict), BV_SURFACE_TOKENS)
  {
    if lets != [] {
      var prefix := lets[..|lets| - 1];
      assert LetsConform(prefix) by {
        forall i | 0 <= i < |prefix| ensures prefix[i].name !in BV_KEYWORDS && Conforms(prefix[i].value) {
          assert prefix[i] == lets[i];
        }
      }
      BindLetsNormalised(prefix, varDict);
      BuildNormalised(lets[|lets| - 1].value, BindLets(prefix, varDict));
    }
  }

  /**
   * Operator and constant normalisation of the dialect: no `bvand`, `bvor`,
   * `bvimpl`, `bvnot`, `S_TRUE` or `S_FALSE` is a label of the tree built
   * from an admitted definition.
   */
  lemma FunNormalised(fun: BvFun)
    requires FunConforms(fun)
    ensures Labels(FunToFormula(fun)) !! BV_SURFACE_TOKENS
  {
    BindLetsNormalised(fun.lets, map[]);
    BuildNormalised(fun.body, BindLets(fun.lets, map[]));
  }

  /** No referenced name spells an operator symbol (`G` is a legal `CNAME`, for one). */
  predicate NoOperatorNames(t: BvFormula) {
    forall n :: n in Names(t) ==> !IsOperator(n)
  }

  /** A formula with admitted tokens reduces to a well-formed tree. */
  lemma {:induction false} BuildWellFormed(t: BvFormula, varDict: map<string, Formula>)
    requires Conforms(t) && NoOperatorNames(t) && MapWellFormed(varDict)
    ensures WellFormed(Build(t, varDict))
  {
    match t
    case UnaryExpr(op, arg) => BuildWellFormed(arg, varDict);
    case BinaryExpr(op, lhs, rhs) => BuildWellFormed(lhs, varDict); BuildWellFormed(rhs, varDict);
    case Variable(name) =>
      assert name in Names(t);
    case Constant(c) =>
  }

  /** The leaf invariant for a whole definition. */
  lemma {:induction false} FunWellFormed(fun: BvFun)
    requires FunConforms(fun) && NoOperatorNames(fun.body)
    requires forall i :: 0 <= i < |fun.lets| ==> NoOperatorNames(fun.lets[i].value)
    ensures WellFormed(FunToFormula(fun))
  {
    BindLetsWellFormed(fun.lets, map[]);
    BuildWellFormed(fun.body, BindLets(fun.lets, map[]));
  }

  /** Conforming definitions without operator-named variables keep a well-formed let map well-formed. */
  lemma {:induction false} BindLetsWellFormed(lets: seq<LetExp>, varDict: map<string, Formula>)
    requires LetsConform(lets) && MapWellFormed(varDict)
    requires forall i :: 0 <= i < |lets| ==> NoOperatorNames(lets[i].value)
    ensures MapWellFormed(BindLets(lets, varDict))
  {
    if lets != [] {
      var prefix := lets[..|lets| - 1];
      assert LetsConform(prefix) by {
        forall i | 0 <= i < |prefix| ensures prefix[i].name !in BV_KEYWORDS && Conforms(prefix[i].value) {
          assert prefix[i] == lets[i];
        }
      }
      assert forall i :: 0 <= i < |prefix| ==> NoOperatorNames(prefix[i].value) by {
        forall i | 0 <= i < |prefix| ensures NoOperatorNames(prefix[i].value) {
          assert prefix[i] == lets[i];
        }
      }
      BindLetsWellFormed(prefix, varDict);
      BuildWellFormed(lets[|lets| - 1].value, BindLets(prefix, varDict));
    }
  }

  /**
   * A definition refers to a name bound somewhere in the let-block only when
   * an earlier definition binds it.
   */
  predicate NoForwardReference(lets: seq<LetExp>) {
    forall i, n :: 0 <= i < |lets| && n in Names(lets[i].value) && n in BoundNames(lets) ==> n in BoundNames(lets[..i])
  }

  /** A reduced formula's leaves avoid `bound` when its names do, or are held by a map that avoids it. */
  lemma {:induction false} BuildAvoids(t: BvFormula, varDict: map<string, Formula>, bound: set<string>)
    requires Conforms(t)
    requires "TRUE" !in bound && "FALSE" !in bound
    requires forall n :: n in varDict ==> LeafLabels(varDict[n]) !! bound
    requires forall n :: n in Names(t) && n !in varDict ==> n !in bound
    ensures LeafLabels(Build(t, varDict)) !! bound
  {
    match t
    case UnaryExpr(op, arg) => BuildAvoids(arg, varDict, bound);
    case BinaryExpr(op, lhs, rhs) => BuildAvoids(lhs, varDict, bound); BuildAvoids(rhs, varDict, bound);
    case Variable(name) =>
    case Constant(c) =>
  }

  /** The let map built from `lets[..k]` holds no formula with a leaf named by any definition. */
  lemma {:induction false} BindLetsAvoids(lets: seq<LetExp>, k: nat)
    requires k <= |lets|
    requires LetsConform(lets) && NoForwardReference(lets)
    requires "TRUE" !in BoundNames(lets) && "FALSE" !in BoundNames(lets)
    ensures BindLets(lets[..k], map[]).Keys == BoundNames(lets[..k])
    ensures forall n :: n in BindLets(lets[..k], map[]) ==> LeafLabels(BindLets(lets[..k], map[])[n]) !! BoundNames(lets)
  {
    if k > 0 {
      var prefix := lets[..k - 1];
      assert lets[..k][..k - 1] == prefix;
      BindLetsAvoids(lets, k - 1);
      var d := BindLets(prefix, map[]);
      var def := lets[k - 1];
      assert lets[..k][k - 1] == def;
      DefinitionAvoids(lets, k - 1, d);
    }
  }

  /** The step of `BindLetsAvoids`: definition `k` reduces to a formula without bound leaves. */
  lemma DefinitionAvoids(lets: seq<LetExp>, k: nat, d: map<string, Formula>)
    requires k < |lets|
    requires LetsConform(lets) && NoForwardReference(lets)
    requires "TRUE" !in BoundNames(lets) && "FALSE" !in BoundNames(lets)
    requires d.Keys == BoundNames(lets[..k])
    requires forall n :: n in d ==> LeafLabels(d[n]) !! BoundNames(lets)
    ensures LeafLabels(Build(lets[k].value, d)) !! BoundNames(lets)
  {
    var bound := BoundNames(lets);
    var def := lets[k];
    assert Conforms(def.value);
    forall n | n in Names(def.value) && n !in d ensures n !in bound {
      assert n in Names(lets[k].value);
    }
    BuildAvoids(def.value, d, bound);
  }

  /**
   * Let inlining: when no definition refers forward, no leaf of the result is
   * named by a let-definition; every reference became the bound formula.
   */
  lemma LetsInlined(fun: BvFun)
    requires FunConforms(fun) && NoForwardReference(fun.lets)
    requires "TRUE" !in BoundNames(fun.lets) && "FALSE" !in BoundNames(fun.lets)
    ensures LeafLabels(FunToFormula(fun)) !! BoundNames(fun.lets)
  {
    BindLetsAvoids(fun.lets, |fun.lets|);
    assert fun.lets[..|fun.lets|] == fun.lets;
    var d := BindLets(fun.lets, map[]);
    BuildAvoids(fun.body, d, BoundNames(fun.lets));
  }

  /** Without that condition a bound name can survive: `a` refers to `b` before `b` is defined. */
  lemma ForwardReferenceSurvives()
    ensures
      var fun := BvFun(FuncDef([VarDecl("x", "5")], "5"),
                       [LetExp("a", Variable("b")), LetExp("b", Variable("x"))],
                       Variable("a"));
      FunConforms(fun) && !NoForwardReference(fun.lets)
      && FunToFormula(fun) == Leaf("b") && "b" in BoundNames(fun.lets)
  {
    var lets := [LetExp("a", Variable("b")), LetExp("b", Variable("x"))];
    assert lets[..1] == [LetExp("a", Variable("b"))];
    assert lets[..1][..0] == [];
    assert BindLets(lets[..1], map[])["a"] == Leaf("b");
    assert BindLets(lets, map[])["a"] == Leaf("b");
    assert "b" in Names(lets[0].value) && "b" in BoundNames(lets);
    assert "b" !in BoundNames(lets[..0]);
  }

  /** Every leaf whose label the map binds is replaced by the bound formula. */
  function Substitute(f: Formula, varDict: map<string, Formula>): Formula {
    if IsLeaf(f) then (if f.symbol in varDict then varDict[f.symbol] else f)
    else
      Formula(f.symbol,
              if f.left.Some? then Some(Substitute(f.left.value, varDict)) else None,
              if f.right.Some? then Some(Substitute(f.right.value, varDict)) else None)
  }

  /**
   * Resolving references while the tree is built is the same as building it
   * with no bindings and then putting a copy of the bound formula at every
   * leaf that names a binding (as long as no binding is named like a constant).
   */
  lemma {:induction false} BuildIsSubstitution(t: BvFormula, varDict: map<string, Formula>)
    requires Conforms(t) && "TRUE" !in varDict && "FALSE" !in varDict
    ensures Build(t, varDict) == Substitute(Build(t, map[]), varDict)
  {
    match t
    case UnaryExpr(op, arg) => BuildIsSubstitution(arg, varDict);
    case BinaryExpr(op, lhs, rhs) => BuildIsSubstitution(lhs, varDict); BuildIsSubstitution(rhs, varDict);
    case Variable(name) =>
    case Constant(c) =>
  }

  /**
   * The let-block of the example in the source's comments: `_let_0` is
   * `(Y failure)`, and both references to it in the body become that formula.
   */
  lemma LetExample()
    ensures
      var fun := BvFun(FuncDef([VarDecl("failure", "5"), VarDecl("alarm", "5")], "5"),
                       [LetExp("_let_0", UnaryExpr("Y", Variable("failure")))],
                       BinaryExpr("bvimpl", Variable("failure"),
                                  BinaryExpr("bvimpl", UnaryExpr("O", Variable("_let_0")),
                                             UnaryExpr("Y", UnaryExpr("Y", Variable("_let_0"))))));
      var yFailure := Unary("Y", Leaf("failure"));
      FunToFormula(fun) == Binary("=>", Leaf("failure"),
                                  Binary("=>", Unary("O", yFailure), Unary("Y", Unary("Y", yFailure))))
  {
    var lets := [LetExp("_let_0", UnaryExpr("Y", Variable("failure")))];
    assert lets[..0] == [];
  }

  /**
   * The transformer. `varDict` is the source's `var_dict`, an attribute of
   * the class rather than of an instance: one object of this class stands
   * for all instances, and a parse starts from the map that earlier parses
   * left behind. The constructor gives the map as the class defines it.
   */
  class BvTreeToFormula {
    var varDict: map<string, Formula>

    constructor ()
      ensures varDict == map[]
    {
      varDict := map[];
    }

    /** `variable`: looks the name up in the let map. */
    method Variable(name: string) returns (f: Formula)
      ensures name in varDict ==> f == varDict[name]
      ensures name !in varDict ==> IsLeaf(f) && f.symbol == name
    {
      if name in varDict {
        f := varDict[name];
      } else {
        f := Leaf(name);
      }
    }

    /** `let_exp`: stores the already reduced value; a later definition of the name overwrites it. */
    method LetExp(name: string, value: Formula)
      modifies this
      ensures varDict == old(varDict)[name := value]
    {
      varDict := varDict[name := value];
    }

    /** The reductions of one formula, bottom-up and left to right. */
    method Reduce(t: BvFormula) returns (f: Formula)
      ensures f == Build(t, varDict)
    {
      match t
      case UnaryExpr(op, arg) =>
        var a := Reduce(arg);
        f := Unary(UnaryOp(op), a);
      case BinaryExpr(op, lhs, rhs) =>
        var l := Reduce(lhs);
        var r := Reduce(rhs);
        f := Binary(BinaryOp(op), l, r);
      case Variable(name) =>
        f := Variable(name);
      case Constant(c) =>
        f := Constants(c);
    }

    /**
     * The reductions of a whole `bv_fun`: each let-definition's value, then
     * its `let_exp`, in document order, then the body. `bv_fun` returns its
     * last child, the body's formula.
     */
    method BvFun(fun: BvFun) returns (f: Formula)
      modifies this
      ensures varDict == BindLets(fun.lets, old(varDict))
      ensures f == Build(fun.body, varDict)
    {
      var i := 0;
      while i < |fun.lets|
        invariant 0 <= i <= |fun.lets|
        invariant varDict == BindLets(fun.lets[..i], old(varDict))
      {
        var value := Reduce(fun.lets[i].value);
        assert fun.lets[..i + 1][..i] == fun.lets[..i];
        LetExp(fun.lets[i].name, value);
        i := i + 1;
      }
      assert fun.lets[..i] == fun.lets;
      f := Reduce(fun.body);
    }
  }
}
