# PLTL formula parsers of SySLite, modelled in Dafny

`LarkParser.py` reads past-time LTL formulas written in three notations and
turns each into one canonical tree, `PLTLFormula(label, left, right)`:

- the **ADT dialect**: `(define-fun phi () Formula (Op2 AND (P 0) (Op1 NOT (P 1))))`;
- the **bit-vector dialect**: an SMT-LIB style `define-fun` whose body may be
  wrapped in a `let` block binding names to sub-formulas;
- the **infix dialect**: `& (a, G b)`.

Lark parses the text. Its transformers then reduce each grammar production
bottom-up, and their callbacks do the modellable work:

- They rename surface operators to canonical symbols (`AND`/`bvand` become
  `&`, `NOT`/`bvnot` become `!`, `Top`/`S_TRUE` become `TRUE`).
- They name ADT variable `n` as `pn`.
- In the bit-vector dialect they resolve let-bound names. `let_exp` stores
  the definition's formula in `var_dict`, and a later `variable` reduction
  returns that formula instead of a leaf.

A separate pass, `dict_var`, renames the variables of a finished tree through
a caller's dictionary.

The model is organised as follows:

- `Formulas` holds the canonical tree and its arity invariant `WellFormed`.
- `AdtDialect`, `BvDialect` and `InfixDialect` each hold a dialect's parse
  trees and its transformer, written as a fold. Each also has an inverse or
  a reference definition to prove the fold against.
- `BvDialect.BvTreeToFormula` is the bit-vector transformer as an object:
  `let_exp` updates its map field and `variable` reads it. It is proved equal
  to the fold.
- `AdtGrammar` and `BvGrammar` are recursive-descent parsers over tokens.
  Each is proved to be the exact inverse of printing a parse tree.
- `PltlParser` holds the entry points `parse_adt` and `parse_bv`, and
  `dict_var`.

The lexer is not modelled. A token is `Lit` (a literal of the grammar), `Name`
(a `CNAME` or `_ID`) or `Num` (a `NUMBER`), as Lark's standard lexer would hand
it over. The lexer never gives out a keyword as a name. For the bit-vector
dialect, that guarantee is the predicate `BvGrammar.Lexed`.

Two places where the model makes a choice about the code:

- **Number of let-definitions.** The rule `_let_vars: _let_vars | let_exp`
  (line 95) relates `_let_vars` to itself without adding a token, so its
  language is a single `let_exp`. The neighbouring rule `_vars: _vars _var |
  _var` (line 98) is the same left-recursive list with its element present,
  which makes `_let_vars: _let_vars let_exp | let_exp`, one or more
  definitions, the evident intent. The entry point `PltlParser.ParseBv`
  follows the rule as written, so one parse holds at most one let-definition.
  `PltlParser.ParseBvCorrected` uses the intended rule, and the grammar
  lemmas about let-blocks are stated for that reading (see Findings).
- **The let map is shared.** `var_dict` is an attribute of the class
  `BVTreeToFormula` (line 177), not of an instance, and `let_exp` updates it
  in place. The model passes one `BvTreeToFormula` object to every parse, so
  a parse starts from the map earlier parses left. Overwriting a name
  (`LastWriterWins`, `BindLetsLookup`) therefore happens across parses with
  the rule as written, and also within one parse with the corrected rule.
  `PltlParser.LeakAcrossParses` shows a binding reaching a later parse.

## Model

| member | source | states |
|---|---|---|
| Formulas.Leaf | src/edu/uiowa/parser/LarkParser.py:133 | `PLTLFormula([name, None, None])` is a leaf carrying the name |
| Formulas.Unary | src/edu/uiowa/parser/LarkParser.py:143-144 | `PLTLFormula([op, arg])`: an inner node labelled `op`, whose operand is the left child and whose right child is absent |
| Formulas.Binary | src/edu/uiowa/parser/LarkParser.py:143-144 | `PLTLFormula([op, lhs, rhs])`: an inner node labelled `op` with both children |
| Formulas.IsLeaf | src/edu/uiowa/parser/LarkParser.py:282 | `_isLeaf`: a node with neither child |
| Formulas.WellFormed | src/edu/uiowa/parser/LarkParser.py:143-144 | the arity invariant the `formula` callbacks build: a binary operator has both children, a unary one only the left, every other label is a leaf; `LeafIffNotOperator` ties it to `_isLeaf` |
| Formulas.VariableLabels | src/edu/uiowa/parser/LarkParser.py:283-286 | exactly the leaf labels that are neither `TRUE` nor `FALSE`: the labels `dict_var` looks up |
| Formulas.LeafIffNotOperator | src/edu/uiowa/parser/LarkParser.py:283 | in a well-formed tree, `_isLeaf` holds at a node exactly when its label is not an operator symbol |
| AdtDialect.BinaryOp | src/edu/uiowa/parser/LarkParser.py:158-167 | `AND`→`&`, `OR`→`\|`, `IMPLIES`→`=>`; every other token, `S` included, is unchanged; no ADT spelling survives |
| AdtDialect.UnaryOp | src/edu/uiowa/parser/LarkParser.py:169-174 | `NOT`→`!`; `Y`, `H`, `O` unchanged; the result is never `NOT` |
| AdtDialect.Constants | src/edu/uiowa/parser/LarkParser.py:146-152 | a leaf: `TRUE` for `Top`, `FALSE` for `Bottom`, any other token unchanged |
| AdtDialect.Variable | src/edu/uiowa/parser/LarkParser.py:154-156 | a leaf labelled `p` followed by exactly the number's text |
| AdtDialect.ToFormula | src/edu/uiowa/parser/LarkParser.py:47-60 | a tree the grammar admits becomes a well-formed tree with no ADT surface token as a label |
| AdtDialect.FunToFormula | src/edu/uiowa/parser/LarkParser.py:43-45 | the definition yields its body's formula, well-formed and normalised |
| AdtDialect.FromToFormula | src/edu/uiowa/parser/LarkParser.py:141-174 | the reverse translation reads the parse tree back from the transformer's result |
| AdtDialect.ToFromFormula | src/edu/uiowa/parser/LarkParser.py:141-174 | every tree the reverse translation accepts is the result of a conforming parse tree |
| AdtDialect.ToFormulaInjective | src/edu/uiowa/parser/LarkParser.py:141-174 | distinct conforming parse trees give distinct formulas |
| AdtGrammar.ParseFormula | src/edu/uiowa/parser/LarkParser.py:47-50 | the parser consumes a non-empty prefix of the tokens |
| AdtGrammar.ParseBinary | src/edu/uiowa/parser/LarkParser.py:47-54 | the two operands and the `)` of `(Op2 op lhs rhs)`; consumes input |
| AdtGrammar.ParseUnary | src/edu/uiowa/parser/LarkParser.py:48-52 | the operand and the `)` of `(Op1 op arg)`; consumes input |
| AdtGrammar.ParseVariable | src/edu/uiowa/parser/LarkParser.py:49 | `(P n)` with a number token; consumes input |
| AdtGrammar.ParseDefineFun | src/edu/uiowa/parser/LarkParser.py:43-45 | `start`: the whole input is one definition; its round trip is `ParseFunTokens` and its soundness `ParseFunSound` |
| AdtGrammar.ParseFormulaTokens | src/edu/uiowa/parser/LarkParser.py:47-60 | a printed conforming formula followed by any tokens parses back to the formula, leaving those tokens |
| AdtGrammar.ParseFormulaSound | src/edu/uiowa/parser/LarkParser.py:47-60 | what the parser accepts conforms to the grammar and is printed by exactly the tokens it consumed |
| AdtGrammar.ParseFunTokens | src/edu/uiowa/parser/LarkParser.py:43-45 | a printed definition parses back to itself |
| AdtGrammar.ParseFunSound | src/edu/uiowa/parser/LarkParser.py:43-45 | an accepted definition conforms and is printed by exactly the input |
| BvDialect.BinaryOp | src/edu/uiowa/parser/LarkParser.py:199-209 | `bvand`→`&`, `bvor`→`\|`, `bvimpl`→`=>`, `S` and every other token unchanged; no `bv*` binary token survives |
| BvDialect.UnaryOp | src/edu/uiowa/parser/LarkParser.py:211-216 | `bvnot`→`!`, others unchanged; the result is never `bvnot` |
| BvDialect.Constants | src/edu/uiowa/parser/LarkParser.py:185-191 | a leaf: `TRUE` for `S_TRUE`, `FALSE` for `S_FALSE` |
| BvDialect.VariableFormula | src/edu/uiowa/parser/LarkParser.py:193-197 | the formula bound to the name when it is a key of the let map, otherwise a fresh leaf with the name |
| BvDialect.Build | src/edu/uiowa/parser/LarkParser.py:182-216 | the bottom-up reduction of one formula under a let map that no reduction inside the formula changes; `BuildIsSubstitution` gives its meaning |
| BvDialect.BindLets | src/edu/uiowa/parser/LarkParser.py:218-223 | the let map after the definitions in document order, each value reduced under the map as it stood; `BindLetsLookup` characterises it entry by entry |
| BvDialect.FunToFormula | src/edu/uiowa/parser/LarkParser.py:179-180 | `bv_fun` returns its last child: the body's formula under the map the definitions build from an empty one |
| BvDialect.LastBinding | src/edu/uiowa/parser/LarkParser.py:218-223 | the index of the last definition of a name, found exactly when some definition binds it |
| BvDialect.BindLetsLookup | src/edu/uiowa/parser/LarkParser.py:193-223 | after the let block a name is bound iff it was bound before or is defined in the block; an undefined name keeps its entry; a defined one holds its last definition, reduced under the map as it stood just before that definition |
| BvDialect.LastWriterWins | src/edu/uiowa/parser/LarkParser.py:223 | of two definitions of a name, the second one's value is what the map holds |
| BvDialect.BuildNormalised | src/edu/uiowa/parser/LarkParser.py:185-216 | a conforming formula reduces, under a normalised map, to a tree without bit-vector surface tokens |
| BvDialect.BindLetsNormalised | src/edu/uiowa/parser/LarkParser.py:218-223 | the let map built from conforming definitions holds only normalised formulas |
| BvDialect.FunNormalised | src/edu/uiowa/parser/LarkParser.py:179-216 | no surface token (`bvand`, `bvor`, `bvimpl`, `bvnot`, `S_TRUE`, `S_FALSE`) is a label of a definition's result |
| BvDialect.BuildWellFormed | src/edu/uiowa/parser/LarkParser.py:182-197 | with no variable named like an operator, the reduced tree is well-formed whenever the map's formulas are |
| BvDialect.BindLetsWellFormed | src/edu/uiowa/parser/LarkParser.py:218-223 | from a map of well-formed formulas, definitions without operator-named variables leave only well-formed formulas in it |
| BvDialect.FunWellFormed | src/edu/uiowa/parser/LarkParser.py:179-197 | the definition's result is well-formed |
| BvDialect.BuildAvoids | src/edu/uiowa/parser/LarkParser.py:193-197 | the result's leaves avoid a set of names when the formula's free names and the map's formulas do |
| BvDialect.BindLetsAvoids | src/edu/uiowa/parser/LarkParser.py:218-223 | the map after a prefix of the let block has exactly the prefix's names as keys and holds no leaf named by a definition |
| BvDialect.DefinitionAvoids | src/edu/uiowa/parser/LarkParser.py:218-223 | one definition's value reduces to a formula without bound leaves |
| BvDialect.LetsInlined | src/edu/uiowa/parser/LarkParser.py:193-223 | when no definition refers forward, no leaf of the result is named by a let-definition |
| BvDialect.ForwardReferenceSurvives | src/edu/uiowa/parser/LarkParser.py:193-223 | a definition that mentions a later one leaves the later name as a leaf of the result |
| BvDialect.BuildIsSubstitution | src/edu/uiowa/parser/LarkParser.py:193-197 | resolving names during the build equals building without bindings and then putting the bound formula at each leaf that names a binding |
| BvDialect.LetExample | src/edu/uiowa/parser/LarkParser.py:76-80 | the commented example: both `_let_0` references become `Y failure` |
| BvDialect.BvTreeToFormula.constructor | src/edu/uiowa/parser/LarkParser.py:177 | the class attribute `var_dict` starts as an empty map |
| BvDialect.BvTreeToFormula.Variable | src/edu/uiowa/parser/LarkParser.py:193-197 | returns the bound formula for a key of the map, otherwise a leaf with the name |
| BvDialect.BvTreeToFormula.LetExp | src/edu/uiowa/parser/LarkParser.py:218-223 | the map is updated at the name with the value, and nothing else changes |
| BvDialect.BvTreeToFormula.Reduce | src/edu/uiowa/parser/LarkParser.py:182-216 | the reductions of one formula give the fold's result under the current map |
| BvDialect.BvTreeToFormula.BvFun | src/edu/uiowa/parser/LarkParser.py:179-180 | each definition is reduced and then stored, in document order; the final map is the fold's map; the result is the body's formula |
| BvGrammar.ParseFormula | src/edu/uiowa/parser/LarkParser.py:102-114 | the parser consumes a non-empty prefix of the tokens |
| BvGrammar.ParseVars | src/edu/uiowa/parser/LarkParser.py:98-100 | at least one parameter is read |
| BvGrammar.ParseLetDef | src/edu/uiowa/parser/LarkParser.py:94-96 | the corrected let block: one or more definitions |
| BvGrammar.ParseLetDefAsWritten | src/edu/uiowa/parser/LarkParser.py:94-95 | the let block as the rule `_let_vars: _let_vars \| let_exp` reads it: exactly one definition |
| BvGrammar.ParseUnary | src/edu/uiowa/parser/LarkParser.py:102-107 | the operand and the `)` of `(op arg)`; consumes input |
| BvGrammar.ParseBinary | src/edu/uiowa/parser/LarkParser.py:103-109 | the two operands and the `)` of `(op lhs rhs)`; consumes input |
| BvGrammar.ParseType | src/edu/uiowa/parser/LarkParser.py:100 | `(_ BitVec n)`; consumes input |
| BvGrammar.ParseVar | src/edu/uiowa/parser/LarkParser.py:99 | one `_var`; consumes input |
| BvGrammar.ParseHeader | src/edu/uiowa/parser/LarkParser.py:91 | `func_def`; consumes input; round trip `ParseHeaderTokens`, soundness `ParseHeaderSound` |
| BvGrammar.ParseLetExp | src/edu/uiowa/parser/LarkParser.py:96 | one `let_exp`; consumes input |
| BvGrammar.ParseLetVars | src/edu/uiowa/parser/LarkParser.py:95-96 | the corrected `_let_vars`: one or more `let_exp`s, as many as start with `(` |
| BvGrammar.ParseLetBlock | src/edu/uiowa/parser/LarkParser.py:93-94 | corrected reading: the definitions, the body and the `)` of `(let (lets) body)` |
| BvGrammar.ParseLetFormula | src/edu/uiowa/parser/LarkParser.py:93 | corrected reading: `_let_formula`, a let-block with its body or a bare body |
| BvGrammar.ParseBvFun | src/edu/uiowa/parser/LarkParser.py:88-89 | corrected reading: the whole input is one `bv_fun`; round trip `ParseBvFunTokens`, soundness `ParseBvFunSound` |
| BvGrammar.ParseLetBlockAsWritten | src/edu/uiowa/parser/LarkParser.py:93-95 | `(let (lets) body)` with the let-block as written |
| BvGrammar.ParseLetFormulaAsWritten | src/edu/uiowa/parser/LarkParser.py:93-95 | `_let_formula` with the let-block as written |
| BvGrammar.ParseBvFunAsWritten | src/edu/uiowa/parser/LarkParser.py:88-96 | the grammar as written: the whole input is one `bv_fun` |
| BvGrammar.LetDefAgrees | src/edu/uiowa/parser/LarkParser.py:94-98 | the let-block as written accepts exactly what the corrected one accepts with a single definition, with the same result |
| BvGrammar.LetBlockAgrees | src/edu/uiowa/parser/LarkParser.py:93-95 | the same for a let-block with its body; a corrected let-block always holds a definition |
| BvGrammar.LetFormulaAgrees | src/edu/uiowa/parser/LarkParser.py:93-95 | the same for a body with or without its let-block |
| BvGrammar.ParseBvFunAsWrittenAgrees | src/edu/uiowa/parser/LarkParser.py:88-98 | the grammar as written accepts exactly the corrected grammar's definitions with at most one let-definition, with the same result |
| BvGrammar.ParseBvFunAsWrittenTokens | src/edu/uiowa/parser/LarkParser.py:88-96 | as written, a printed conforming definition parses back to itself when it has at most one let-definition and is rejected otherwise |
| BvGrammar.ParseFormulaTokens | src/edu/uiowa/parser/LarkParser.py:102-114 | a printed conforming formula followed by any tokens parses back to the formula, leaving those tokens |
| BvGrammar.ParseVarsTokens | src/edu/uiowa/parser/LarkParser.py:98-100 | printed parameters parse back when the next token is not `(` |
| BvGrammar.ParseHeaderTokens | src/edu/uiowa/parser/LarkParser.py:91 | a printed `func_def` parses back |
| BvGrammar.ParseLetVarsTokens | src/edu/uiowa/parser/LarkParser.py:95-96 | printed definitions parse back |
| BvGrammar.ParseLetDefTokens | src/edu/uiowa/parser/LarkParser.py:94-96 | a printed let block parses back to its definitions |
| BvGrammar.ParseLetFormulaTokens | src/edu/uiowa/parser/LarkParser.py:93 | corrected reading: a printed body, with or without its let block, parses back |
| BvGrammar.ParseBvFunTokens | src/edu/uiowa/parser/LarkParser.py:89-100 | corrected reading: a printed conforming definition parses back to itself |
| BvGrammar.AsWrittenRejectsSecondDefinition | src/edu/uiowa/parser/LarkParser.py:95 | a let block with two or more definitions is rejected by the grammar as written and accepted by the corrected one |
| BvGrammar.AsWrittenAcceptsOneDefinition | src/edu/uiowa/parser/LarkParser.py:94-96 | with one definition both readings agree |
| BvGrammar.ParseFormulaSound | src/edu/uiowa/parser/LarkParser.py:102-114 | an accepted formula is printed by exactly the tokens consumed |
| BvGrammar.ParseFormulaAdmits | src/edu/uiowa/parser/LarkParser.py:107-113 | an accepted formula whose names are not keywords uses only the grammar's operators and constants |
| BvGrammar.ParseHeaderSound | src/edu/uiowa/parser/LarkParser.py:91 | an accepted header is printed by the tokens consumed and has at least one parameter |
| BvGrammar.ParseLetDefSound | src/edu/uiowa/parser/LarkParser.py:94-96 | an accepted let block is printed by the tokens consumed |
| BvGrammar.ParseLetFormulaSound | src/edu/uiowa/parser/LarkParser.py:93 | corrected reading: an accepted body and let block are printed by the tokens consumed |
| BvGrammar.ParseBvFunSound | src/edu/uiowa/parser/LarkParser.py:89-100 | corrected reading: an accepted definition is printed by exactly the input and has a parameter |
| BvGrammar.ParseBvFunAdmits | src/edu/uiowa/parser/LarkParser.py:89-113 | corrected reading: an accepted definition uses only the grammar's operators and constants in every formula whose names are not keywords |
| BvGrammar.FormulaNameTexts | src/edu/uiowa/parser/LarkParser.py:114 | the name tokens of a formula printed in front of other tokens are exactly its variables together with the name tokens of what follows |
| BvGrammar.FunNameTexts | src/edu/uiowa/parser/LarkParser.py:89-116 | corrected reading: every parameter, bound name and variable of a definition is a name token of its printing |
| BvGrammar.ParseBvFunConforms | src/edu/uiowa/parser/LarkParser.py:89-116 | corrected reading: a definition parsed from lexed tokens conforms to the grammar |
| InfixDialect.InfixVariable | src/edu/uiowa/parser/LarkParser.py:132-133 | `variable`: a leaf labelled with the name, well-formed when the name is not reserved |
| InfixDialect.ToFormula | src/edu/uiowa/parser/LarkParser.py:127-139 | a conforming infix tree becomes a well-formed tree with operators copied, and no leaf carries a reserved text |
| InfixDialect.FromToFormula | src/edu/uiowa/parser/LarkParser.py:127-139 | the parse tree can be read back from the result |
| InfixDialect.ToFromFormula | src/edu/uiowa/parser/LarkParser.py:127-139 | whatever the reverse translation accepts is the result of a conforming parse tree |
| InfixDialect.FromFormulaDefined | src/edu/uiowa/parser/LarkParser.py:127-139 | the infix transformer's results are exactly the well-formed trees with no leaf labelled `Top` or `Bottom` |
| InfixDialect.ToFormulaInjective | src/edu/uiowa/parser/LarkParser.py:127-139 | distinct conforming infix trees give distinct formulas |
| PltlParser.ParseAdt | src/edu/uiowa/parser/LarkParser.py:248-260 | `None` exactly when the definition does not parse; otherwise a well-formed tree with no ADT surface token |
| PltlParser.ParseAdtPrinted | src/edu/uiowa/parser/LarkParser.py:248-260 | a printed definition comes back as its formula |
| PltlParser.ParseBv | src/edu/uiowa/parser/LarkParser.py:263-275 | `None` exactly when the grammar as written rejects the input; otherwise at most one definition, added to the shared let map, and the body's formula under the new map, which is the fold's result when the map was empty; from lexed input with a normalised map no bit-vector surface token remains and the map stays normalised |
| PltlParser.ParseBvCorrected | src/edu/uiowa/parser/LarkParser.py:263-275 | the same with the corrected let-block, which holds any number of definitions |
| PltlParser.LeakAcrossParses | src/edu/uiowa/parser/LarkParser.py:177-223 | a binding stored by one parse turns the free name `a` of a later parse into `x` |
| PltlParser.DictVar | src/edu/uiowa/parser/LarkParser.py:277-293 | a successful pass returns a tree exactly when it is given one; a failure names a variable of the tree that is not a key |
| PltlParser.DictVarOkIff | src/edu/uiowa/parser/LarkParser.py:277-293 | the pass succeeds exactly when every variable label is a key; a failure names a variable that is not a key |
| PltlParser.DictVarRelabels | src/edu/uiowa/parser/LarkParser.py:277-293 | a successful pass keeps the shape, every inner label and every constant leaf, and renames each other leaf through the dictionary |
| PltlParser.RelabelledUnique | src/edu/uiowa/parser/LarkParser.py:277-293 | the renaming relation has one result at most, so it pins down the pass's result |
| PltlParser.DictVarNone | src/edu/uiowa/parser/LarkParser.py:279-280 | `None` is returned for `None` |
| PltlParser.DictVarIdentity | src/edu/uiowa/parser/LarkParser.py:283-293 | a dictionary sending every variable to itself returns the input |
| PltlParser.DictVarWellFormed | src/edu/uiowa/parser/LarkParser.py:283-293 | renaming to labels that are not operators keeps the tree well-formed |
| PltlParser.DictVarCompose | src/edu/uiowa/parser/LarkParser.py:277-293 | two passes equal one pass with the composed dictionary, when the first never renames to `TRUE` or `FALSE` |

## Left out

- The Lark library: the LALR engine, the lexer and its terminal regexes (`CNAME`, `_ID`, `NUMBER`), and `%ignore WS`. It is foreign code. The token-level parsers take the tokens its standard lexer would produce. The lexer's keyword guarantee is assumed as an input property (`BvGrammar.Lexed`), not derived.
- The `ParseError` handlers and the `logging` calls. These are I/O. A parse error is `None`.
- Lexing errors. A character no terminal matches (a stray `#`, say) raises Lark's `UnexpectedCharacters`, which is not a `ParseError`, so `parse_adt` and `parse_bv` let it escape rather than return `None`. The model starts from tokens, so this case has no counterpart.
- The debug `print` in `let_exp` and the `__main__` driver. These are I/O.
- PltlParser.ParseBv: on a rejected input the model leaves the shared map as it was. In the code, the transformer runs during parsing, so a `let_exp` reduced before the syntax error has already been stored in `var_dict`.
- Object identity of a let-bound formula returned by `variable`. Dafny datatypes are values, so sharing and copying cannot be told apart.
- `pLTLParser.parse` and a token parser for the infix grammar. Its optional, independent `[ "(" ]` and `[ ")" ]` around a unary operand make the accepted language depend on how Lark resolves the resulting conflicts. Only the infix transformer is modelled.
- Infix constants. `TreeToFormula` has no `constant` callback, so `Top` and `Bottom` stay raw Lark trees. The infix parse tree therefore has no constant case.
- `Formula.py` is not part of this model. The constructor's meaning is inferred from its uses with `[label, left, right]` and `[op, arg]`, and `_isLeaf` is taken to mean that both children are absent.
- BvDialect.BuildWellFormed: proved only when no variable is named like an operator. A bit-vector variable may legally be named `G`, and its leaf then breaks the arity invariant.
- BvDialect.FunWellFormed: needs the same condition, for the same reason.
- BvDialect.BindLetsWellFormed: needs the same condition on every definition's value, for the same reason.

## Findings

| source | as written | input that shows it | evidently intended | confidence | as-written member | corrected member |
|---|---|---|---|---|---|---|
| src/edu/uiowa/parser/LarkParser.py:95 | `_let_vars: _let_vars \| let_exp`: the alternative `_let_vars: _let_vars` adds no token, so the rule's language is a single `let_exp` | `(define-fun phi ((x (_ BitVec 1))) (_ BitVec 1) (let ((a x) (b a)) b))` is rejected | `_let_vars: _let_vars let_exp \| let_exp`, one or more definitions, the shape of `_vars: _vars _var \| _var` at line 98 | medium, not executed | BvGrammar.AsWrittenRejectsSecondDefinition | BvGrammar.ParseLetDef |
