# A verified model of the Saltwater C compiler

Saltwater translates C to machine code. This project models the parts of it whose
correctness is a statement about every input: the lowering of statements to basic
blocks, the recursive-descent parser of expressions and type names with its lookahead,
the printer of types, the two macro expanders and the `#if` evaluator, the constant
folder, the reader of brace-elided initializers, and the layout of types and static
data. Each component has a file (or a few) of its own, and every component keeps the
view of C types that it needs.

The shape is the same throughout. What the compiler does step by step is a method with
loops over mutable state, most of them methods of a class that holds the state the
compiler holds. Each such method is proved to compute a function on values, given in
the same component; what the compiler promises is then proved of that function.

| component | the code's own form | functions on values | what is proved |
|---|---|---|---|
| lowering | `Codegen.dfy` | `Lowering.dfy`, over `Ir.dfy` | `Semantics.dfy`, `LoweringSound.dfy`, `LoweringLinked.dfy`, `LoweringSim.dfy`, `LoweringStmtSim.dfy`, `LoweringSwitch.dfy`, `LoweringLabels.dfy`, `LoweringTheorems.dfy`, `LoweringControl.dfy` |
| lookahead | `TokenStream.dfy` | `TokenStream.dfy` | `TokenStream.dfy` |
| expressions, declarators and type names | `ExprParser.dfy` | `ExprParsing.dfy`, over `ExprGrammar.dfy` | `ExprTheorems.dfy` |
| type printer, and what its output is read as | `TypePrinter.dfy` | `Declarators.dfy` | `DeclTheorems.dfy` |
| `#if` evaluator | `CondEval.dfy` | `CondEval.dfy` | `CondTheorems.dfy` |
| macro expander of the preprocessor | `Expander.dfy` | `Macros.dfy`, `Expansion.dfy` | `MacroTheorems.dfy`, `ExpansionTheorems.dfy`, `Expander.dfy` |
| macro replacer of the lexer | `Replace.dfy` | `Replace.dfy` | `Replace.dfy` |
| constant folder | (an expression in the source too) | `Folding.dfy`, over `Integers.dfy` | `FoldTheorems.dfy`, and `Analysis.dfy` for what it is given |
| initializers | `Initializers.dfy` | `Initializers.dfy` | `Initializers.dfy` |
| layout and static data | `StaticInit.dfy` | `Layout.dfy`, `StaticInit.dfy` | `Layout.dfy`, `StaticInit.dfy` |

## Where the code departs from C or from its own comments

Each of these is a lemma with the input that shows it.

- A `continue` in a `while` or `for` goes to the start of the body, past the test
  (`LoweringTheorems.ContinueInWhileDiverges`; when that shows: `Semantics.ContinueExactly`).
- A `case` that is fallen into from unfinished code has no block of its own, so selecting
  it also runs what stands before it (`LoweringTheorems.FallthroughRunsBoth`; when this
  happens: `LoweringSwitch.CleanExactly`).
- Labels are not forgotten between functions, and a `goto` can name a block of another
  function (`LoweringTheorems.StaleLabels`).
- A `+` behind two spaces is not seen by the `#if` evaluator
  (`CondTheorems.PlusBehindTwoSpaces`), and a macro without a body leaves two spaces
  (`Groups.EmptyMacroHidesPlus`); how many spaces each operator stands is part of
  `CondTheorems.HoldsIsMeaning`.
- The lexer's macro replacer replaces a name at most once in a whole replacement list
  (`Replacement.RepeatedNamesStay` says when that shows, `Replacement.SecondTimeStays` is an
  example), and two spaces at an end of an argument fail an assertion
  (`Replacement.CallFailsOnSpaces`, with `Replacement.EmptyArgumentsPanic` as an example).
- A right shift by a count from the size in *bytes* on is folded to 0, calls included
  (`FoldTheorems.FarShiftExactly` says when that changes the meaning), a `char` literal
  above 127 is converted without its sign, and an integer converted to a narrower signed
  type keeps its upper bits (`FoldTheorems.CastExactly` says when either shows).
- `p - i` adds (`Analysis.MinusIsPlus`).
- A union without braces takes one initializer for each of its members
  (`Initializers.UnionTakesTooMuch` says when that is an error).
- `offset` gives a member's place before its own padding (`Layout.OffsetBeforePadding`),
  a union's size is not rounded up (`Layout.UnionIsMultiple` says when that shows), and static
  initializers of structs add no padding (`StaticInit.WrittenElsewhere`).

## Model

| member | source | states |
|---|---|---|
| LoweringTheorems.LoweringPreservesMeaning | src/codegen/stmt.rs:19-289 | The lowered function halts with value v after exactly the events h if and only if the structured source, read as C reads it, ends so: for bodies of blocks, declarations, expressions (`&&`, logical or, `?:`, comma included), `if`, `while`, `for`, `do`, `switch` with fallthrough, `break`, `return`, and `continue` in `do` loops and in loops that ask nothing between their turns, such as `for (;;)` and `while (1)`; the labels of a switch stand directly in its body, and none of them at a block that has begun |
| LoweringTheorems.LoweringPreservesProgress | src/codegen/stmt.rs:19-289 | As long as the source is still running, so is the graph, after more steps than the source had turns and with the same events: divergence is kept |
| LoweringTheorems.FunctionSim | src/codegen/stmt.rs:19-289 | For every structured body, any `continue` included, every run of the source under the back end's own reading of `continue` is matched by a run of the graph with the same events and outcome |
| LoweringTheorems.FunctionWellFormed | src/codegen/mod.rs:280-315 | Every function lowered without error, with switches, labels and gotos, whatever labels of earlier functions are left that it does not name: no assertion of the builder fails, every block is finished or was never entered, every branch, case and label target is a finished block, and the stacks of loops and switches are empty again |
| LoweringTheorems.StaleLabels | src/codegen/stmt.rs:62-78 | For any set of names: all functions whose labels and gotos are among them are lowered to well-formed graphs if and only if no label of an earlier function is among them |
| LoweringLabels.StmtOnly | src/codegen/stmt.rs:62-78 | Lowering a statement gives the same blocks and errors whatever other names are in the table of labels |
| LoweringTheorems.StaleLabelEscapes | src/codegen/stmt.rs:72-78 | With a label left over, a function that only jumps to it is accepted, and its graph has a branch that leaves it |
| LoweringTheorems.LabelsAreNotEntries | src/codegen/stmt.rs:62-71 | Whatever statement is lowered, no label comes to be at a function's first block |
| LoweringTheorems.ContinueInWhileDiverges | src/codegen/stmt.rs:314-324 | `while (c) continue;` ends in C when c fails the second time, and the lowered graph never halts |
| LoweringTheorems.FallthroughRunsBoth | src/codegen/stmt.rs:278-280 | `switch (w) { case v: f(); case w: p(); }` calls p alone in C, and the lowered function calls f and then p, for any v, w, f and p |
| LoweringStmtSim.StmtSim | src/codegen/stmt.rs:19-82 | From where a statement's code starts, the graph reaches the end of that code, or the target of the `break` or `continue`, or halts, exactly as the statement's meaning says, with the same events |
| LoweringStmtSim.WhileSim | src/codegen/stmt.rs:151-178 | The same for `while` and `for (;;)`, for any number of turns |
| LoweringStmtSim.ForSim | src/codegen/stmt.rs:201-230 | Putting the third expression at the end of the body keeps the meaning of a `for` |
| LoweringStmtSim.DoSim | src/codegen/stmt.rs:183-200 | The same for `do`, where `continue` goes to the test |
| LoweringStmtSim.IfSim | src/codegen/stmt.rs:84-132 | The same for `if`, with and without `else`, and when both branches return |
| LoweringStmtSim.SwitchSim | src/codegen/stmt.rs:231-289 | The same for `switch`: the case of the value, else the default, else nothing, falling through from there on, with `break` going to the end |
| LoweringStmtSim.AnySwitchSim | src/codegen/stmt.rs:231-289 | For a switch with labels at blocks that have begun as well: selecting a label first runs what stands in front of it in its block, and then what C runs |
| LoweringSwitch.CleanExactly | src/codegen/stmt.rs:278-285 | Every label of a switch is put at a block that holds nothing else if and only if no label follows, in the source, code whose block is still open |
| LoweringSwitch.StmtKind | src/codegen/stmt.rs:19-82 | Whether a statement leaves lowering at a finished, a blank or a begun block can be read off the source, exactly, for every statement |
| LoweringSim.ExprSim | src/codegen/expr.rs:36-140 | The code of an expression computes its value into the register it names, asking the environment the same questions in the same order |
| LoweringSim.LogicalSim | src/codegen/expr.rs:168-198 | `&&` and logical or each evaluate the right operand only when the left one does not decide, and give 0 or 1 |
| LoweringSim.TernarySim | src/codegen/expr.rs:141-167 | `?:` evaluates the condition and then exactly one branch |
| LoweringSound.StmtSound | src/codegen/stmt.rs:19-82 | Any statement: nothing is put after a terminator, no block gets two, finished blocks are never touched again, the block state is Filled exactly when the current block is finished, and loops, switches and the last-saw-loop flag are as before, with new entries in the innermost switch only |
| LoweringSound.ExprKeeps | src/codegen/expr.rs:36-140 | An expression leaves the current block open and every other block of before untouched |
| LoweringLinked.StmtLinked | src/codegen/stmt.rs:19-82 | Every branch emitted so far goes to a block that has been entered or that the surrounding loop or switch is going to enter, and no entered block is abandoned unfinished |
| LoweringControl.NeverPanics | src/codegen/stmt.rs:246-248 | The back end's own expectations about its stacks of loops and switches always hold |
| LoweringControl.ExitsInnermost | src/codegen/stmt.rs:314-344 | However deep a `break` or `continue` is nested, the block it ends jumps to the exit of the loop or switch that most closely surrounds it, which for `break` is the block that one ends at; the whole is an error when there is no such exit, as for `continue` in a switch |
| LoweringControl.ExitsUnchanged | src/codegen/stmt.rs:134-150 | Whatever statement is lowered in between, both targets are the same afterwards |
| Semantics.ReadingsAgree | src/codegen/stmt.rs:317-321 | C's reading of `continue` and the back end's agree on every program, switches included, in which every `continue` belongs to a `do` or to a loop whose test and third expression ask the environment nothing; this is sufficient, since a `continue` that is never reached does no harm |
| Semantics.ContinueExactly | src/codegen/stmt.rs:317-321 | For any test and third expression, `for (; test; post) continue;` has the same runs in both readings if and only if it is not entered or neither of the two asks the environment anything |
| Semantics.ContinueInWhileSpins | src/codegen/stmt.rs:317-321 | They differ on `while (c) continue;` for every c that holds first and fails next |
| Codegen.Compiler.CompileExpr | src/codegen/expr.rs:36-140 | Emits into the mutable builder exactly the blocks and register of `Lowering.CompileExpr` |
| Codegen.Compiler.LogicalExpr | src/codegen/expr.rs:168-198 | The same for `&&` and logical or: both blocks, the test, the merge block with its parameter |
| Codegen.Compiler.TernaryExpr | src/codegen/expr.rs:141-167 | The same for `?:`: both branch blocks and the target with its parameter |
| Codegen.Compiler.CompileAll | src/codegen/stmt.rs:12-17 | Statements in order, stopping at the first error |
| Codegen.Compiler.CompileStmt | src/codegen/stmt.rs:19-82 | Builder and control context end as `Lowering.CompileStmt` says, or the same error comes back |
| Codegen.Compiler.IfStatement | src/codegen/stmt.rs:84-132 | The same for `if` |
| Codegen.Compiler.ElsePart | src/codegen/stmt.rs:105-118 | The same for the `else` branch and the join; the end block is not entered when both branches are finished |
| Codegen.Compiler.StartLoop | src/codegen/stmt.rs:134-146 | Creates header, body and end, records the last two, and starts the header |
| Codegen.Compiler.FinishLoop | src/codegen/stmt.rs:147-150 | Takes the loop off again and restores the flag |
| Codegen.Compiler.WhileStatement | src/codegen/stmt.rs:151-178 | Builder and context as `Lowering.WhileStmt` says, or the same error |
| Codegen.Compiler.DoStatement | src/codegen/stmt.rs:183-200 | The same for `do`; a body that always leaves is an error |
| Codegen.Compiler.ForStatement | src/codegen/stmt.rs:201-230 | The same for `for` |
| Codegen.Compiler.SwitchStatement | src/codegen/stmt.rs:231-261 | The same for `switch`: the dispatch block is filled after the body with the cases collected on the way |
| Codegen.Compiler.CaseStatement | src/codegen/stmt.rs:262-289 | The same for `case`, whose value comes as a number, with its two errors |
| Codegen.Compiler.DefaultStatement | src/codegen/stmt.rs:290-312 | The same for `default`, with its two errors |
| Codegen.Compiler.LabelStatement | src/codegen/stmt.rs:62-71 | The same for a label; a name is taken only once |
| Codegen.Compiler.ExitStatement | src/codegen/stmt.rs:314-344 | The same for `break` and `continue` |
| Codegen.Compiler.JumpToBlock | src/codegen/stmt.rs:346-351 | Finishes the block with a jump unless it is finished |
| Codegen.Compiler.SwitchToBlock | src/codegen/stmt.rs:353-356 | Goes on with another block, which is then not finished |
| Codegen.Compiler.CompileFunc | src/codegen/mod.rs:280-315 | A fresh builder that holds `Lowering.CompileFunction`: 0 is returned off the end of `main`, nothing off the end of a void function, anything else is an error |
| TokenStream.CookedKeepsAll | src/parser/parse/mod.rs:146-203 | Dropping whitespace and joining strings loses no other token, no part of a string, and no order |
| TokenStream.CookedIsClean | src/parser/parse/mod.rs:146-203 | The parser sees no whitespace and no two adjacent string literals |
| TokenStream.CleanIsCooked | src/parser/parse/mod.rs:146-203 | Tokens without either are handed on unchanged |
| TokenStream.Lookahead.ImplNextToken | src/parser/parse/mod.rs:146-203 | Takes the first token of the cooked stream off it |
| TokenStream.Lookahead.NextToken | src/parser/parse/mod.rs:204-206 | Takes the first of the tokens that remain, whatever the two slots hold |
| TokenStream.Lookahead.PeekToken | src/parser/parse/mod.rs:207-213 | Gives the first token that remains and takes none |
| TokenStream.Lookahead.PeekNextToken | src/parser/parse/mod.rs:214-222 | Gives the second token that remains and takes none |
| TokenStream.Lookahead.Unput | src/parser/parse/mod.rs:331-334 | What is put back is the first token that remains |
| TokenStream.Lookahead.MatchNext | src/parser/parse/mod.rs:264-280 | Takes the next token exactly when it is of the same kind, and otherwise nothing |
| TokenStream.Lookahead.MatchId | src/parser/parse/mod.rs:229-237 | The same for a name |
| TokenStream.Lookahead.MatchLiteral | src/parser/parse/mod.rs:251-263 | The same for a literal, by taking a token and putting it back |
| TokenStream.Lookahead.Panic | src/parser/parse/mod.rs:281-291 | Leaves what is behind the first `;` or `}`, or nothing |
| TokenStream.PanicStops | src/parser/parse/mod.rs:281-291 | What is skipped is the shortest run that ends in `;` or `}`, or everything |
| TokenStream.Lookahead.Expect | src/parser/parse/mod.rs:304-330 | Succeeds exactly when the next token is of the kind, and then takes it; otherwise leaves what is behind the first `;` or `}` |
| TokenStream.Lookahead.ExpectId | src/parser/parse/mod.rs:292-303 | The same for a name |
| ExprTheorems.ParserIsTheGrammar | src/parser/parse/expr.rs:118-172 | The parser returns e and stops before rest if and only if the tokens are e's yield followed by rest, e respects precedence and associativity at every node, and nothing in front of rest belongs to e |
| ExprTheorems.DeclaratorIsTheGrammar | src/parser/parse/decl.rs:359-607 | The same for declarators, with a name or, where that is allowed, without: what is read is the declarator whose tokens these are, arrays and functions binding tighter than pointers, sizes and parameters of any form |
| ExprTheorems.TypeNameIsTheGrammar | src/parser/parse/decl.rs:98-125 | The same for type names: specifiers, a declarator, or both, and nothing behind them that belongs to either |
| ExprTheorems.OneTree | src/parser/parse/expr.rs:30-51 | Two trees that respect the table and have the same tokens are the same tree |
| ExprTheorems.EveryTreeIsParsed | src/parser/parse/expr.rs:118-172 | Every tree, written with the parentheses the table and its type names need, is parsed back whole |
| ExprTheorems.ParenthesizedRespects | src/parser/parse/expr.rs:30-51 | Those parentheses are enough, and dropping them gives the tree back |
| ExprTheorems.SoundFrom | src/parser/parse/expr.rs:130-172 | Whatever is parsed is spelled by the tokens consumed and respects the table |
| ExprTheorems.SoundUnary | src/parser/parse/expr.rs:190-243 | The same for prefix operators, casts and `sizeof` |
| ExprTheorems.SoundPostfix | src/parser/parse/expr.rs:280-291 | The same for postfix operators and calls |
| ExprTheorems.FromSpelling | src/parser/parse/expr.rs:130-172 | Reading the tokens of a tree that respects the table arrives at that tree and goes on from there |
| ExprGrammar.SpellIsYield | src/parser/parse/expr.rs:135-172 | The tokens of a tree in front of others are its yield and then the others |
| ExprParser.ParseExpr | src/parser/parse/expr.rs:118-122 | On the mutable token stream: the tree and the tokens left are those of `ExprParsing.ParseFrom` at the lowest level, or its error |
| ExprParser.CustomExpr | src/parser/parse/expr.rs:130-134 | The same from any level |
| ExprParser.BinaryExpr | src/parser/parse/expr.rs:135-172 | The climbing loop gives what `ExprParsing.ParseBinary` gives |
| ExprParser.RightOperand | src/parser/parse/expr.rs:142-170 | One turn of it: the right operand, or both of `?:` |
| ExprParser.ParenthesizedTypeName | src/parser/parse/expr.rs:175-189 | A type name, with any abstract declarator, is read exactly when the second token starts one; otherwise no token is taken |
| ExprParser.UnaryExpr | src/parser/parse/expr.rs:190-243 | The stack of prefix operators, applied from the innermost on, gives what `ExprParsing.ParseUnary` gives |
| ExprParser.MatchPrefixOperator | src/parser/parse/expr.rs:294-320 | Which prefix operator or cast stands next and which tokens are left behind it |
| ExprParser.PrimaryExpr | src/parser/parse/expr.rs:244-279 | What `ExprParsing.ParsePrimary` gives, or its error |
| ExprParser.PostfixExpr | src/parser/parse/expr.rs:280-291 | The loop over postfix operators gives what `ExprParsing.ParsePostfix` gives |
| ExprParser.MatchPostfixOp | src/parser/parse/expr.rs:322-383 | One postfix operator and the tokens after it, or its error |
| ExprParser.Arguments | src/parser/parse/expr.rs:350-376 | The loop over a call's arguments: each is an assignment-free expression, commas between them |
| ExprParser.ParseDeclarator | src/parser/parse/decl.rs:359-392 | On the mutable token stream: the loop that stacks pointers and puts them in front in reverse gives the pieces of what `ExprParsing.ParseDecl` reads |
| ExprParser.DirectDeclarator | src/parser/parse/decl.rs:438-509 | A name, a parenthesized declarator, or nothing where it may be abstract; a parameter list is told apart by its first token |
| ExprParser.PostfixType | src/parser/parse/decl.rs:523-553 | The loop over array and parameter suffixes gives the pieces of what `ExprParsing.ParseSuffixes` reads |
| ExprParser.ParameterTypeList | src/parser/parse/decl.rs:576-607 | The loop over parameters, with `...` and its errors |
| ExprParser.ParseName | src/parser/parse/decl.rs:98-125 | Specifiers and a declarator that may be abstract; an error when there is neither |
| ExprParser.Specifiers | src/parser/parse/decl.rs:126-158 | The loop over specifiers; a keyword that is none is an error |
| ExprParser.AssembleLoop | src/parser/parse/decl.rs:642-672 | The loop that turns the list of pieces inside out |
| DeclTheorems.PrintedIsReadBack | src/parser/data/types.rs:273-407 | Every well-formed variable (any nesting of qualified pointers, arrays and functions with decayed parameters, named or not), printed, parsed and analyzed, is the same variable, and what follows it is left |
| DeclTheorems.ReadIsPrintable | src/parser/analyze/mod.rs:786-911 | Whatever is read without error, however it was written, is read again from what the printer makes of it |
| DeclTheorems.PrintedDifferently | src/parser/data/types.rs:273-407 | Different variables are printed differently |
| DeclTheorems.AnalyzedIsWellFormed | src/parser/analyze/mod.rs:786-911 | The analyzer lets through no array of functions, no function that returns an array or a function, no parameter that has not decayed, no repeated parameter name, and no misplaced `void` or `...` |
| DeclTheorems.DeclaratorRead | src/parser/parse/decl.rs:359-392 | A printed declarator is read as its layers, the last one read first |
| DeclTheorems.LayersAssemble | src/parser/parse/decl.rs:642-672 | Turning what was read inside out gives the type's layers from the inside |
| DeclTheorems.LayersAnalyzed | src/parser/analyze/mod.rs:786-911 | Analyzing those layers over the base type gives the type |
| Types.LayersBuild | src/parser/data/types.rs:274-287 | A type is its base inside its layers |
| TypePrinter.UnrollType | src/parser/data/types.rs:274-287 | The loop that lists a type's layers from the outside |
| TypePrinter.PrintType | src/parser/data/types.rs:289-404 | Collecting prefixes and postfixes layer by layer and writing the prefixes in reverse gives the declarator, parentheses included |
| TypePrinter.PrintParams | src/parser/data/types.rs:310-349 | The loop over the parameters, commas between them |
| TypePrinter.PrintVariable | src/parser/data/hir.rs:478-488 | Qualifiers, type and name of a variable |
| TypePrinter.LayersApart | src/parser/data/types.rs:289-404 | A printed declarator is its prefixes, the name, and its postfixes |
| CondTheorems.HoldsIsMeaning | src/pp/expander.rs:837-840 | An `#if` holds if and only if its tokens are, as a whole, a condition that respects the grammar, with no more spaces in front of each operator than are taken before it is tried, and whose value exists and is not 0: any tokens |
| CondTheorems.EveryTreeIsEvaluated | src/pp/expander.rs:730-835 | Every tree, with the parentheses it needs, is consumed whole and gives its strict value in checked 128-bit arithmetic, or fails exactly when it has none |
| CondTheorems.TernarySpelled | src/pp/expander.rs:822-835 | Any such condition in front of tokens that cannot continue it is evaluated to its value, and those tokens are left but for the spaces that looking for operators has taken |
| CondTheorems.TernarySound | src/pp/expander.rs:822-835 | Whatever is evaluated, of any tokens, is spelled by the tokens consumed, respects the grammar and the spaces, and has the value returned |
| CondTheorems.OneValue | src/pp/expander.rs:730-835 | However the same tokens are read as a condition, the value is the same |
| CondTheorems.ParenthesizedKeepsValue | src/pp/expander.rs:730-835 | Parentheses where the grammar needs them make any tree respect it without changing its value |
| CondTheorems.SignBehindSpaces | src/pp/expander.rs:768-779 | A sign is seen if and only if at most one space stands before a plus, at most two before a minus |
| CondTheorems.PlusBehindTwoSpaces | src/pp/expander.rs:768-779 | Hence `x + …` with two spaces or more before the plus never holds, whatever the operand x is |
| CondEvaluator.CondEval.EatOperator | src/pp/expander.rs:706-709 | A space goes even when the operator is not there |
| CondEvaluator.CondEval.Primary | src/pp/expander.rs:730-760 | The value and the tokens left are those of `CondParsing.ReadPrimary`, or it fails too |
| CondEvaluator.CondEval.UnaryExpr | src/pp/expander.rs:761-767 | The same for `!` |
| CondEvaluator.CondEval.AdditiveExpr | src/pp/expander.rs:768-779 | The same for the loop over `+` and `-` |
| CondEvaluator.CondEval.ShiftExpr | src/pp/expander.rs:780-789 | The same for shifts, which do not associate |
| CondEvaluator.CondEval.RelationalExpr | src/pp/expander.rs:790-807 | The same for comparisons |
| CondEvaluator.CondEval.LogicalAnd | src/pp/expander.rs:808-814 | The same for the loop over `&&`, whose operands are all evaluated |
| CondEvaluator.CondEval.LogicalOr | src/pp/expander.rs:815-821 | The same for logical or |
| CondEvaluator.CondEval.TernaryExpr | src/pp/expander.rs:822-835 | The same for `?:`, both of whose branches are evaluated |
| CondEvaluator.CondEval.Eval | src/pp/expander.rs:837-840 | Whether the condition holds and is all there is |
| Macros.ParseMacro | src/pp/expander.rs:81-213 | Every definition's parameter indices are below its argument count and every verbatim run has tokens |
| MacroTheorems.CallsAreTaken | src/pp/expander.rs:329-404 | A call is taken with arguments args and leaves rest if and only if the tokens are blanks, a parenthesis, as many arguments as parameters (each closing its own parentheses, no comma outside them unless variadic), and rest; args are those arguments trimmed |
| MacroTheorems.DefinitionKeepsText | src/pp/expander.rs:81-213 | A definition without `#` flattens back to its text: parameters written out, nothing lost |
| MacroTheorems.BodyKeepsText | src/pp/expander.rs:128-206 | The same for any part of the body, with the runs collected so far |
| MacroTheorems.EscapedReadsBack | src/pp/expander.rs:406-421 | The text that `#` quotes reads back as it was |
| Expansion.TryExpand | src/pp/expander.rs:318-640 | On any table and chain the use of a macro terminates, by (names not on the chain, tokens); a use is taken only if the name is not on the chain, and leaves a suffix no longer than what was there |
| Expansion.MoreArgs | src/pp/expander.rs:339-401 | As many arguments as the macro expects, each strictly shorter than the call |
| Expansion.FreeShrinks | src/pp/expander.rs:287-296 | Rescanning under a macro's name leaves strictly fewer names to expand |
| ExpansionTheorems.ChainIsShort | src/pp/expander.rs:278-296 | No name is on a chain twice, so expansions nest no deeper than there are macros |
| ExpansionTheorems.ExpandAppend | src/pp/expander.rs:645-698 | Where no macro used by the first part takes arguments (built-ins and `__has_` questions do not), expansion distributes over concatenation |
| ExpansionTheorems.LeftoverOnCycle | src/pp/expander.rs:287-296 | On any table, for texts that lead only to macros without arguments, to built-ins and to `__has_` questions: a macro's name left in the output lies on a cycle of definitions or is such a question |
| ExpansionTheorems.InertIffAcyclic | src/pp/expander.rs:287-296 | Every one of these names expands to something with nothing left to expand if and only if none of them lies on a cycle |
| ExpansionTheorems.AcyclicIsInert | src/pp/expander.rs:645-698 | And if none of them lies on a cycle, nothing is left to expand |
| ExpansionTheorems.AcyclicIsIdempotent | src/pp/expander.rs:645-698 | And expanding again changes nothing |
| ExpansionTheorems.AcyclicIsNaive | src/pp/expander.rs:645-698 | And the result is that of unlimited substitution, to any depth from the number of macros on, `__FILE__` and `__LINE__` as literals |
| ExpansionTheorems.SeededIsAcyclic | src/pp/expander.rs:223-262 | The table the preprocessor starts with meets these conditions for every text |
| ExpansionTheorems.CyclicGrows | src/pp/expander.rs:287-296 | With a cycle expanding again can change the tokens |
| Groups.IfTakesThen | src/pp/expander.rs:924-929 | A conditional takes its first group if and only if its condition, expanded, is one whose value exists and is not 0 |
| Groups.EmptyMacroHidesPlus | src/pp/expander.rs:768-779 | Expansion brings such spaces about: with E defined as nothing `#if 1 E + 1` does not hold, and `#if 1 + 1` does |
| Groups.NotDefinedHolds | src/pp/expander.rs:651-677 | `#ifndef x` holds if and only if x is not defined, `defined` being answered before x is expanded |
| Groups.GuardedOnce | src/pp/expander.rs:847-932 | A group with an include guard leaves nothing the second time, and the table as it was |
| Groups.KeptDefined | src/pp/expander.rs:883-896 | A name stays defined through a group that does not undefine it, whichever way its conditionals go |
| Expander.ParseBodyLoop | src/pp/expander.rs:128-206 | The loop over a definition's body gives what `Macros.ParseBody` gives |
| Expander.Phase4.ScanArgument | src/pp/expander.rs:352-377 | The loop over one argument finds its end and what ends it |
| Expander.Phase4.CollectArguments | src/pp/expander.rs:329-404 | The loop over a call's arguments gives what `Expansion.CollectArgs` gives |
| Expander.Phase4.Expand | src/pp/expander.rs:645-698 | The loop over the tokens gives what `Expansion.ExpandMacros` gives, and terminates |
| Expander.Phase4.TryExpandMacro | src/pp/expander.rs:318-640 | One use of a macro gives what `Expansion.TryExpand` gives |
| Expander.Phase4.ExpandParts | src/pp/expander.rs:847-932 | The loop over a group gives the output and the table of `Groups.ExpandGroup` |
| Expander.Phase4.ExpandOne | src/pp/expander.rs:850-930 | One part: text, a directive, or a conditional |
| Replacement.Replace | src/parser/lex/replace.rs:151-208 | Terminates on every table and finite input, by (names not replaced yet, tokens pending); no name is replaced twice; every name in the output is no macro or has been replaced in this call |
| Replacement.ReplaceToken | src/parser/lex/replace.rs:151-208 | The same for a whole call |
| Replacement.ObjectOutputLength | src/parser/lex/replace.rs:168-207 | With object macros alone the output has exactly one token plus the bodies of the names replaced, less those names, and the underlying stream is not touched |
| Replacement.WorklistIsDepthFirst | src/parser/lex/replace.rs:168-206 | With object macros the worklist does what a depth-first recursion does that hands the names seen from left to right |
| Replacement.RepeatedNamesStay | src/parser/lex/replace.rs:162-206 | With object macros the result holds no macro name if and only if the full substitution meets no name twice, and is the full substitution then |
| Replacement.TwoSpacesFail | src/parser/lex/replace.rs:287-296 | Stripping an argument fails an assertion if and only if it ends in two spaces, or starts with two and is longer; otherwise one space at either end is dropped and none is left there |
| Replacement.CallFailsOnSpaces | src/parser/lex/replace.rs:287-338 | A use of a function-like macro fails that assertion if and only if it is a call and one of its arguments is of that kind |
| Replacement.EmptyArgumentsPanic | src/parser/lex/replace.rs:287-338 | With f(x) defined as `x` and g(a,b) as `f(a b )`, the use `g(,)` fails it |
| Replacer.Queue.Pop | src/parser/lex/replace.rs:300-301 | Takes from the queue of pending tokens first, then from the stream |
| Replacer.Queue.FindCallLoop | src/parser/lex/replace.rs:212-281 | The loop that looks for a parenthesis, across queue and stream, finds what `Replacement.FindCall` finds and takes that many tokens |
| Replacer.Queue.TakeArgsLoop | src/parser/lex/replace.rs:283-338 | The loop over a call's arguments gives what `Replacement.TakeArgs` gives; an unfinished call takes everything |
| Replacer.Queue.ReplaceFunctionCall | src/parser/lex/replace.rs:212-399 | A call's replacement, its errors, and the tokens taken |
| Replacer.Queue.SubstituteLoop | src/parser/lex/replace.rs:357-394 | The loop over a body, with `#`, gives what `Replacement.Substituted` gives |
| Replacer.ReplaceLoop | src/parser/lex/replace.rs:151-208 | The loop over the queue gives the output, the names replaced and the stream of `Replacement.ReplaceToken` |
| FoldTheorems.FoldKeepsMeaning | src/parser/fold.rs:105-217 | In every environment in which C gives an expression a value (conversions out of range drop the upper bits, as in the back end), its folded form has the same value and asks the environment the same things in the same order, short circuits, pruned conditionals, dropped commas, `!` and truth tests of every type, and pointer arithmetic included, unless an operand is one of the next rows' exceptions |
| FoldTheorems.FoldStable | src/parser/fold.rs:105-217 | Folding what is folded changes nothing |
| FoldTheorems.FoldsOnce | src/parser/fold.rs:252-357 | So folding an operator is folding its operands once and combining them, although the code folds them again and again |
| FoldTheorems.NeverPanics | src/parser/fold.rs:252-357 | No expression the analyzer builds makes the folder divide by zero, overflow a remainder or shift what it cannot |
| FoldTheorems.FoldTyped | src/parser/fold.rs:105-217 | Folding keeps expressions consistently typed, with literals in range |
| FoldTheorems.CombineMeans | src/parser/fold.rs:252-357 | An operator on folded operands keeps its meaning, far right shifts of literals below two to the count included |
| FoldTheorems.ShlMeans | src/parser/fold.rs:462-508 | A left shift that is folded has the value C gives it |
| FoldTheorems.CastMeans | src/parser/fold.rs:370-418 | A conversion that is folded has the value C gives it, for every literal that fits: an integer in the range of a signed target, a character up to 127 or converted to `_Bool`, anything converted to an unsigned type or a pointer |
| FoldTheorems.FarShiftExactly | src/parser/fold.rs:434-438 | A right shift by a constant from the size in bytes on keeps its meaning if and only if the left operand asks the environment nothing and has a value from 0 up to two to the count, whatever the left operand is |
| FoldTheorems.FarShiftLosesCalls | src/parser/fold.rs:434-438 | So any left operand that asks the environment something is lost |
| FoldTheorems.FarShiftOfLiteral | src/parser/fold.rs:434-438 | A literal of any integer type shifted that far keeps its value if and only if it is from 0 up to two to the count |
| FoldTheorems.CastExactly | src/parser/fold.rs:387-418 | A conversion of what folds to a constant, of any type to any type, keeps its meaning if and only if the constant fits in that sense |
| FoldTheorems.CharCastLosesSign | src/parser/fold.rs:387-418 | A character constant converted to any type, `char` included, has a value, and keeps it if and only if it is at most 127 or the type is `_Bool` |
| FoldTheorems.NarrowCastKeepsBits | src/parser/fold.rs:387-418 | An integer constant converted to a narrower signed type keeps its value if and only if it is in range: the folder does not drop the upper bits |
| Analysis.AnalyzedIsTyped | src/parser/analyze/expr.rs:13-742 | Whatever the analyzer builds without an error from operators, casts, conditionals, assignments, pointer arithmetic, indexing and calls over these types is consistently typed, which is all the folding theorems ask |
| Analysis.TruthyMeans | src/parser/analyze/expr.rs:1051-1078 | The comparison that stands for a truth test asks what its operand asks and gives whether that is not 0, at every type |
| Analysis.LogicalNotMeans | src/parser/analyze/expr.rs:683-698 | `!x` asks what x asks and gives whether that is 0, at every type |
| Analysis.MinusIsPlus | src/parser/analyze/expr.rs:326-337 | `p - i` for a pointer p and an integer i is analyzed as `p + i` |
| Initializers.ElisionGivesTheValue | src/parser/analyze/init.rs:65-131 | A list gives a complete value (scalars, structs, unions, arrays of positive length), with nothing left over and no error, if and only if it writes that value with braces left out where they may be; a union with a choice of members may go without only at the end of its list |
| Initializers.FlatWrites | src/parser/analyze/init.rs:65-131 | Among those ways are every brace and, without such a union, none at all |
| Initializers.FullIsFilled | src/parser/analyze/init.rs:65-131 | Inside a longer list such a value takes exactly its own initializers |
| Initializers.ElisionFillsTheFirst | src/parser/analyze/init.rs:65-131 | The same, both ways, when elements are missing at the end or an array has no length and takes as many as there are |
| Initializers.BracesCanBePutBack | src/parser/analyze/init.rs:45-131 | Any list without errors means what it means with every brace in place |
| Initializers.BracedFills | src/parser/analyze/init.rs:45-131 | A fully braced list of the right shape is taken as it stands |
| Initializers.BracesKeepAll | src/parser/analyze/init.rs:45-58 | Without errors the scalars of the result are exactly those written, in order |
| Initializers.AggregateKeeps | src/parser/analyze/init.rs:65-131 | What is filled in and what is left over is what was written, in order |
| Initializers.AggregateFits | src/parser/analyze/init.rs:65-131 | Without errors no list has more elements than its type takes, and each is of the shape its place expects |
| Initializers.Aggregate | src/parser/analyze/init.rs:65-131 | Terminates by (what is left of the list, the type's size) and takes at least one initializer of a non-empty list |
| Initializers.UnionTakesTooMuch | src/parser/analyze/init.rs:65-131 | A union without braces is filled without error if and only if its first member is and either it has one member or nothing is left in the list after that |
| Initializers.UnionNeedsBraces | src/parser/analyze/init.rs:65-131 | So `{x, y}` is no value of a struct of a union and a scalar, and `{{x}, y}` is one |
| InitAnalyzer.PureAnalyzer.CheckAggregateOverflow | src/parser/analyze/init.rs:45-58 | The tree of `Initializers.Braces`, with an error recorded if and only if that has one |
| InitAnalyzer.PureAnalyzer.AggregateInitializer | src/parser/analyze/init.rs:65-131 | The loop over the shared list gives the tree and the rest of `Initializers.Aggregate`, with an error recorded if and only if that has one |
| InitAnalyzer.PureAnalyzer.OneElement | src/parser/analyze/init.rs:80-118 | One turn of it |
| Layout.AlignIsPowerOfTwo | src/parser/arch/mod.rs:139-152 | Every alignment is a power of two |
| Layout.MaskRoundsUp | src/parser/arch/mod.rs:65-69 | Adding and masking rounds up exactly to a multiple of any power of two |
| Layout.StructSizeRounds | src/parser/arch/mod.rs:58-70 | A struct's size is the end of its members rounded up to its alignment: a multiple of it, and less than one alignment more |
| Layout.SizeIsMultipleOfAlign | src/parser/arch/mod.rs:102-152 | The size of any type is a multiple of its alignment if and only if no union that needs rounding decides it, counted as often as the arrays around it have it |
| Layout.UnionIsMultiple | src/parser/arch/mod.rs:72-86 | The size of n unions is a multiple of their alignment if and only if n times the size of the largest member is a multiple of every member's alignment |
| Layout.UnionSizeIsNotRounded | src/parser/arch/mod.rs:72-79 | Of `int` and `char[5]` it is not |
| Layout.OffsetsDoNotOverlap | src/parser/arch/mod.rs:33-56 | The intervals from members' offsets lie one after the other, disjoint, inside the struct |
| Layout.OffsetIsPlace | src/parser/arch/mod.rs:33-56 | A member's offset is the aligned place that the size computation gives it if and only if it needs no padding in front |
| Layout.OffsetBeforePadding | src/parser/arch/mod.rs:37-41 | An `int` after a `char` is said to be at 1 although its place is at 4 |
| StaticInit.SlotsInOrder | src/codegen/static_init.rs:208-315 | Every scalar of an initializer is written inside the object, in order, and no two overlap |
| StaticInit.SlotsAtOffset | src/codegen/static_init.rs:247-265 | A member is written where `offset` reads it if and only if no member before it needs padding |
| StaticInit.MemberSlots | src/codegen/static_init.rs:247-265 | A member's initializer is written from the sum of the sizes before it on |
| StaticInit.WrittenElsewhere | src/codegen/static_init.rs:247-265 | In `char`, `int`, `char` the last is written to byte 5 and read from byte 8 |
| StaticInit.StampedReadsBack | src/codegen/static_init.rs:208-315 | After all is written each constant's bytes read back as written, and the bytes of an address left to the linker are as before |
| StaticInit.StampedOutside | src/codegen/static_init.rs:208-315 | And every byte outside the object is as before |
| StaticInit.DataWriter.InitExpr | src/codegen/static_init.rs:159-192 | Fills the slice with a constant's bytes, or hands the linker the slice's absolute start for an address and writes nothing |
| StaticInit.DataWriter.InitSymbol | src/codegen/static_init.rs:208-275 | The buffer ends with every slot stamped into it, and the relocations are the absolute starts of the addresses among them, in order |
| StaticInit.DataWriter.InitArray | src/codegen/static_init.rs:276-315 | The same for the loop over an array's elements |
| StaticInit.DataWriter.InitMembers | src/codegen/static_init.rs:247-265 | The same for the loop over a struct's members |

## Left out

- LoweringTheorems.LoweringPreservesMeaning: `continue` only in `do` loops and in loops idle between their turns, and labels of a switch only at blocks of their own, because elsewhere the code departs from C; a `continue` elsewhere that is never reached is shut out with the others. `LoweringTheorems.FunctionSim` covers every `continue` as the back end takes it, and `LoweringStmtSim.AnySwitchSim` every such label. Ordinary labels, gotos, and case labels nested inside other statements of a switch have no meaning here; `LoweringTheorems.FunctionWellFormed` covers them.
- LoweringTheorems.FunctionWellFormed: labels of earlier functions that the function names may only be at block 0, because others break it; `LoweringTheorems.StaleLabels` says exactly when.
- Lowering: operators without control flow are opaque questions to an environment, so loads, stores, calls, arithmetic, conversions and the folding inside `compile_expr` are not modelled; neither are parameters, stack slots, object code, and the errors of declarations.
- Codegen.Compiler.CaseStatement: a case value is a number by the time the back end sees it, and values are compared as numbers; folding it is the analyzer's, and truncating the switched value is the instruction selector's.
- TokenStream.Lookahead.Unput: asks for a free second slot, as the code's own assertion does.
- TokenStream.Lookahead.ImplNextToken: lexer errors, typedef names becoming keywords, and locations are left out.
- ExprTheorems.ParserIsTheGrammar: the guard against deep recursion is left out, and the words of a type name are those that `ExprParser.Specifiers` and `ExprParser.PostfixType` below do not leave out.
- ExprParser.ParseExpr: after an error nothing is said of the tokens left; an error that the parser records before it goes on counts as a failure.
- DeclTheorems.PrintedIsReadBack: token by token, so spacing and the lexer are left out; the base type is one word, qualifiers are `const` and `volatile`, and a size is a literal number.
- ExprParser.Specifiers: `struct`, `union`, `enum` and typedef specifiers, storage classes, and the combination of words such as `unsigned long` are left out.
- ExprParser.PostfixType: `static`, `restrict` and `_Atomic` inside declarators are left out.
- CondEvaluator.CondEval.Primary: literals are decimal with an optional `u` and `l`; other bases and character constants are rejected here as in the code.
- Expansion.TryExpand: the answers to the `__has_...` questions, the file's name and the tokenizer that `##` calls are parameters, because they are I/O or another component.
- ExpansionTheorems.ExpandAppend: a macro with parameters can take its arguments from what follows, so texts that lead to one are outside this and the next theorems; others may be in the table.
- Expander.Phase4.ExpandOne: `#include` is passed on like an unknown directive, because finding headers is I/O; the streaming conditionals of the lexer are left out.
- Replacement.ReplaceToken: not compared with section 6.10.3.4 of C11, because one set of names serves a whole replacement list; `Replacement.RepeatedNamesStay` compares it with full substitution, for object macros.
- Replacement.Replace: the text that `#` makes of an argument, and locations, are left out.
- FoldTheorems.FoldKeepsMeaning: for expressions in which no operand is a far right shift with anything left or a converted constant that does not fit; for these `FoldTheorems.FarShiftExactly` and `FoldTheorems.CastExactly` say node by node exactly when the meaning is kept. Two such errors may cancel out in a larger expression, and of that nothing is said.
- FoldTheorems.FoldStable: for types that are signed integers, `_Bool`, `char`, `unsigned long` and pointers; floats, narrower unsigned types, `void` and structs, and addresses of static objects are left out.
- Analysis.Analyze: an lvalue has the type of its address here, where the code gives it that of the object; pointers are not told apart by what they point to; compound assignment, prefix increment, members, and the errors for constant objects are left out.
- Initializers.ElisionGivesTheValue: conversions of the scalars, character arrays from strings, arrays of length 0, and the types the code does not handle are left out.
- Layout.OffsetsDoNotOverlap: sizes are unbounded, so overflow is modelled only where the code checks it, in the size of an array; structs without members have no alignment and are excluded.
- StaticInit.DataWriter.InitSymbol: for initializers of the shape of the type, so the errors for too many elements and for nested arrays without a length are left out; so are unions and strings.
- The driver, arguments, linking, diagnostics text, interning, and the tables of symbols and structs: I/O or bookkeeping.
