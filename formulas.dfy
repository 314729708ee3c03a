/**
 * The canonical PLTL formula tree that all three dialects are translated into.
 * A node is `PLTLFormula([label, left, right])`; a missing child is `None`.
 */
module Formulas {
  import opened Wrappers

  /** `symbol` is the node's label (`label` is a reserved word in Dafny). */
  datatype Formula = Formula(symbol: string, left: Option<Formula>, right: Option<Formula>)

  /** Canonical symbols of the binary operators. */
  const BINARY_OPS: set<string> := {"&", "|", "=>", "S"}

  /** Canonical symbols of the unary operators. */
  const UNARY_OPS: set<string> := {"G", "H", "O", "!", "Y"}

  /** A node with neither child, the `_isLeaf` test. */
  predicate IsLeaf(f: Formula) {
    f.left.None? && f.right.None?
  }

  /** The labels the relabelling pass leaves alone. */
  predicate IsConstant(symbol: string) {
    symbol == "TRUE" || symbol == "FALSE"
  }

  predicate IsOperator(symbol: string) {
    symbol in BINARY_OPS || symbol in UNARY_OPS
  }

  function Leaf(symbol: string): (f: Formula)
    ensures IsLeaf(f) && f.symbol == symbol
  {
    Formula(symbol, None, None)
  }

  /** The node built from `[op, arg]`: the operand is the left child. */
  function Unary(op: string, arg: Formula): (f: Formula)
    ensures !IsLeaf(f) && f.symbol == op && f.left == Some(arg) && f.right.None?
  {
    Formula(op, Some(arg), None)
  }

  /** The node built from `[op, lhs, rhs]`. */
  function Binary(op: string, lhs: Formula, rhs: Formula): (f: Formula)
    ensures !IsLeaf(f) && f.symbol == op && f.left == Some(lhs) && f.right == Some(rhs)
  {
    Formula(op, Some(lhs), Some(rhs))
  }

  /**
   * The arity invariant of the canonical tree: a binary operator has two
   * children, a unary operator only a left one, and every other label
   * (a constant or a variable) sits on a leaf.
   */
  predicate WellFormed(f: Formula) {
    if f.symbol in BINARY_OPS then
      f.left.Some? && f.right.Some? && WellFormed(f.left.value) && WellFormed(f.right.value)
    else if f.symbol in UNARY_OPS then
      f.left.Some? && f.right.None? && WellFormed(f.left.value)
    else
      IsLeaf(f)
  }

  /** Every label occurring anywhere in the tree. */
  function Labels(f: Formula): set<string> {
    {f.symbol}
    + (if f.left.Some? then Labels(f.left.value) else {})
    + (if f.right.Some? then Labels(f.right.value) else {})
  }

  /** The labels of the leaves of the tree. */
  function LeafLabels(f: Formula): set<string> {
    if IsLeaf(f) then {f.symbol}
    else
      (if f.left.Some? then LeafLabels(f.left.value) else {})
      + (if f.right.Some? then LeafLabels(f.right.value) else {})
  }

  /** Like `LeafLabels`, for a possibly absent tree. */
  function OptLeafLabels(f: Option<Formula>): set<string> {
    if f.Some? then LeafLabels(f.value) else {}
  }

  /** The leaf labels that are not `TRUE` or `FALSE`: those the relabelling pass looks up. */
  function VariableLabels(f: Option<Formula>): (vs: set<string>)
    ensures forall v :: v in vs ==> !IsConstant(v) && v in OptLeafLabels(f)
    ensures forall v :: v in OptLeafLabels(f) && !IsConstant(v) ==> v in vs
  {
    match f
    case None => {}
    case Some(g) =>
      if IsLeaf(g) then (if IsConstant(g.symbol) then {} else {g.symbol})
      else VariableLabels(g.left) + VariableLabels(g.right)
  }

  /**
   * In a well-formed tree, a node is a leaf exactly when its label is not an
   * operator symbol, at every node.
   */
  lemma {:induction false} LeafIffNotOperator(f: Formula, g: Formula)
    requires WellFormed(f)
    requires g in Subtrees(f)
    ensures IsLeaf(g) <==> !IsOperator(g.symbol)
    ensures WellFormed(g)
  {
    if g != f {
      if f.left.Some? && g in Subtrees(f.left.value) {
        LeafIffNotOperator(f.left.value, g);
      } else {
        LeafIffNotOperator(f.right.value, g);
      }
    }
  }

  /** The nodes of the tree, the root included. */
  function Subtrees(f: Formula): set<Formula> {
    {f}
    + (if f.left.Some? then Subtrees(f.left.value) else {})
    + (if f.right.Some? then Subtrees(f.right.value) else {})
  }
}
