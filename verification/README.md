# Verified models of six algorithms of the Cython compiler

This project models six components of Cython and proves what each of them is for. The models
follow the code of the repository branch by branch. Where the code and its comments disagree,
the code is followed. `dafny verify dfyconfig.toml` checks the whole project.

## What is modelled

**Control-flow analysis** (`Cython/Compiler/FlowControl.py`). `FlowSyntax` has the statements
and an interpreter for them; each place where a real run can go one way or another, an
exception anywhere included, consumes one decision, so all runs are all decision lists. Some
decisions are liberties that no real run has but that the graph of the analysis allows; they
are marked as such, and a run without them is a real one.
`ControlFlow.ControlFlow` builds the graph with the visitors of the analysis, one row of
`children`, `parents`, `stats` and `gen` per block, and `FlowBuilt` says as functions which
graph that is. `FlowSimulation`, `FlowStatements` and `FlowShapes` show visitor by visitor that
executions follow the graph. `FlowGrowth`, `FlowRuns`, `FlowTight` and `FlowTightStatements`
show statement by statement the other direction: the graph has no path too many.
`FlowPaths` says both of whole functions. `FlowAssigned` and `FlowDefinite` are definite
assignment over the text of a body, and `FlowLiberties` shows for each liberty a body in which
the analysis marks a name that no real run reads unassigned.
`FlowNormalize` and `FlowContraction` are the contraction of empty blocks, `FlowReaching` and
`FlowDataflow` the numbering of definitions and the fixpoint, `FlowCheck` the replay of the
statements, and `FlowExact` says that the record is what the paths of the uncontracted graph
carry to a name. `FlowFunction` puts all of it together: `AnalyseFunction` is the whole
analysis of a function, complete for all its runs and exact for them. The numbers that
the analysis computes with are sets of bit positions.

**Dependency closure and string literals** (`Cython/Build/Dependencies.py`).
`DependencyTree` is the memoised depth-first search over a graph with cycles.
`StringTokens`, `StripLiterals` and `Decimal` are the scanner that moves string and comment
bodies out into labels; `StringLexer` is an independent lexer, one character at a time, for
comments and strings as in section 2.4.1 of the Python 3 language reference and for f-strings
as in section 2.4.3, with code in their replacement fields to any depth.

**LZSS** (`Cython/LZSS.py` and the decompressor in `Cython/Utility/StringTools.c`).
`LzssFormat` is the format with a decoder written as functions, `LzssCompress` the compressor,
`LzssDecompress` the loops of the C decompressor, proved to compute what the decoder says, and
to stay inside of both buffers exactly if the decoder succeeds. `LzssBits` has the shifts and
masks that both compute with, as functions of numbers, and ties them to the arithmetic of the
format; the values of the C code stay far below 32 bits.
The comment at line 70 of `Cython/LZSS.py` says that ties go to closer offsets; the comparison
in line 71 keeps the earliest position, and so does the model.

**Insertion points** (`Cython/StringIOTree.py`). `StringIOTree` is the tree of streams on the
heap; a ghost value of type `Tree` says what the heap looks like. `FlatDocument` is a
document with cursors in it. `StringIOScripts` runs any list of operations on any number of
buffers against flat documents, one for every buffer: the document of a buffer that was
inserted elsewhere is a part of the other one's.

**Handle ownership** (`Cython/Compiler/HandleModel.py`). `HandleModel` has the storage and
operation contracts, `HandleTracker` the states of a tracker and how they evolve,
`HandleStateTracker` the class with its operations, fork and merge, `HandleRuns` the runs of
any list of operations, failing ones included, alone and in branches that are merged, and
`HandleManagers` the reusable slots.

**Expression printer** (`Cython/CodeWriter.py`). `Expressions` has the trees and the
productions of the grammar in `Cython/Compiler/Parsing.py` with the operators and the
associativity of each, `ExpressionParser` a scanner and a parser for that grammar, and
`ExpressionWriter` the printer with its own precedences and its stack of them.

`Wrappers` has the `Option` that all of them use.

## Results that differ from what one would expect

- Operators of one level are printed without parentheses whichever side they nest on
  (`Cython/CodeWriter.py:597`), so the text of `a - (b - c)` reads as `(a - b) - c`:
  `ExpressionWriter.RightNestedDifference`. `ExpressionWriter.WrittenParses` says for every
  printable tree what is read back, and that it is the same tree exactly if every chain of one
  level nests on the side on which the parser nests it (left, but right for `**`, `and` and
  `or`, and cascaded for comparisons) and no minus stands directly on a number, which the
  parser folds into it.
- `HandleTemporaryManager.allocate` raises the generation of a slot before it can fail, so
  generations can have gaps; the invariant `Bound` allows for them.
- A return that both moves a handle out and wants it preserved fails, after the move;
  `HandleStateTracker.ReturnWith` succeeds exactly if the result and the preserved handles are
  live and this is not the case, and `HandleStateTracker.ReturnedAndKept` is such a failing
  return.
- A deletion gets no edges to the handler of the `try` around it, so the handler is not entered
  in the state behind it. `FlowStatements.DelExactly` gives a run of `del` that leaves the graph
  whenever a handler is in force, and shows that every run follows it when none is. The soundness
  of the whole analysis is therefore stated for functions with no `del` inside of a `try`.
- The graph has three kinds of paths that no run goes: from the start of a `try` and from
  directly behind a binding in its body to the handlers (`Cython/Compiler/FlowControl.py:1326`,
  817-851), from the end of the body of a `while` past its `else` (1101), and through the
  iterable of a `for` before every iteration (1214). Where these matter the analysis marks names
  that are never read unassigned: `FlowLiberties.StartOfTry`, `FlowLiberties.ElseOfWhile` and
  `FlowLiberties.IterableOfFor`. In a body without `try`, without `else` on a `while`, and
  without a `for` that deletes a name of its own iterable, a name is marked exactly if some run
  reads it unassigned; `FlowLiberties.IterableWithTarget` shows that in which states else names
  are read is not exact for a `for` with names in its iterable. In every body all is exact for
  runs with these liberties, and a name that is definitely assigned by the text is never marked.
- An `f` before six quotes, an empty string, also makes an f-string of what more of the same
  quotes open directly behind (`Cython/Build/Dependencies.py:356-366`); the lexer does as the
  code does (`StringLexer.BehindSix`).
- `__pyx_lzss_decompress` has no checks of its own: `LzssDecompress.LzssDecompress` finishes
  inside of its buffers exactly if the input decodes to as many bytes as there is room for.

## Model

| member | source | states |
|---|---|---|
| FlowFunction.AnalyseFunction | Cython/Compiler/FlowControl.py:757-805 | for every run of the function, whatever its decisions and exceptions, the definitions recorded at a name account for the value that each read of it finds, and they are exactly those that some path of the uncontracted graph carries to a statement of the name. `cf_maybe_null` is set on a name that is only read exactly if some run reads it unassigned, and `cf_is_null` exactly if besides none reads it assigned; the runs of the first are runs without liberties if the body is `Plain`. A name that is definitely assigned by the text, in bodies with `try` as well, is not marked |
| FlowPaths.GraphIsExact | Cython/Compiler/FlowControl.py:757-793 | a name can be reached in some state along the paths of the function's graph exactly if some run reads it in that state: no path too few and none too many, for runs with liberties in every body, and for those without in bodies that have none of the constructs that need them |
| FlowPaths.PathsAreRuns | Cython/Compiler/FlowControl.py:757-793 | whatever a path from the entry leads to is read there, in the state of the path, by some run of the function |
| FlowPaths.UnassignedIsRead | Cython/Compiler/FlowControl.py:757-793 | in a `Plain` body, where a path leads to a name unassigned some run without liberties reads it unassigned |
| FlowFunction.MarksAreExact | Cython/Compiler/FlowControl.py:597-636 | the marks that follow from the record say of each name that is only read whether some run reads it unassigned, and whether all that read it do |
| FlowFunction.DefiniteIsAssigned | Cython/Compiler/FlowControl.py:597-636 | no run reads unassigned a name whose entry is assigned, by the text alone, on every way to it |
| FlowDefinite.ExecDefined | Cython/Compiler/FlowControl.py:939-951 | in every run of a statement, exceptions and liberties included, a node that stands only where its entry has been assigned is read only while it is |
| FlowAssigned.SureIsAssigned | Cython/Compiler/FlowControl.py:939-951 | what the text says is assigned whenever a statement ends normally, by `break` or by `continue` is assigned in every run that ends so |
| FlowLiberties.StartOfTry | Cython/Compiler/FlowControl.py:1315-1338 | in `try: pass` with a handler that reads `x`, `x` is marked although no run enters the handler |
| FlowLiberties.ElseOfWhile | Cython/Compiler/FlowControl.py:1086-1115 | behind a `while` whose `else` assigns `x` the name is marked, although the loop has no `break` |
| FlowLiberties.IterableOfFor | Cython/Compiler/FlowControl.py:1186-1228 | in `for ... in x: del x` the `x` of the iterable is marked, although it is read only once |
| FlowLiberties.IterableWithTarget | Cython/Compiler/FlowControl.py:1186-1228 | in `for i in x: pass` a path leads to `x` with `i` assigned, but no run reads it so; `x` is not marked |
| FlowExact.RecordIsExact | Cython/Compiler/FlowControl.py:223-322 | contraction, numbering, fixpoint and replay together: the record at a name is exactly what the paths of the graph as built carry to one of its statements |
| FlowExact.MaybeNullIsExact | Cython/Compiler/FlowControl.py:597-621 | a name is marked as possibly unassigned exactly if along some path of the graph as built the entry is unassigned at a statement of it |
| FlowExact.IsNullIsExact | Cython/Compiler/FlowControl.py:617-636 | a name is marked as unassigned exactly if some path of the graph as built leads to a statement of it with the entry unassigned, and none with the entry assigned |
| FlowFunction.Build | Cython/Compiler/FlowControl.py:757-793 | builds the graph that `FlowBuilt` describes; each read of every run can be found at a statement of a block with the assignments of some path from the entry before it, and whatever such a path leads to is read there by some run |
| FlowFunction.MarkArguments | Cython/Compiler/FlowControl.py:773-785 | the first block binds the arguments in order, and nothing else changes |
| FlowFunction.ReadIsExplained | Cython/Compiler/FlowControl.py:566-621 | a read that a path of the uncontracted graph allows is explained by the definitions recorded after contraction, fixpoint and replay |
| FlowFunction.ReadPointIsKept | Cython/Compiler/FlowControl.py:223-249 | contraction loses no point at which a name is read, nor a state that it is read in |
| FlowFunction.EntryIsAccounted | Cython/Compiler/FlowControl.py:306-322 | whatever an entry holds on entering a block along a path, a definition among the block's input bits accounts for it |
| FlowFunction.BodyFollows | Cython/Compiler/FlowControl.py:757-793 | if the body's visitor built its part of the graph, all runs of the body from the bound arguments follow the graph |
| ControlFlow.ControlFlow.constructor | Cython/Compiler/FlowControl.py:128-138 | an entry and an exit block without edges, the entry being current |
| ControlFlow.ControlFlow.AddChild | Cython/Compiler/FlowControl.py:86-88 | adds one edge, parents and children staying inverse to each other |
| ControlFlow.ControlFlow.NewBlock | Cython/Compiler/FlowControl.py:140-149 | adds a block, linked to the parent if there is one |
| ControlFlow.ControlFlow.NextBlock | Cython/Compiler/FlowControl.py:151-163 | adds a block behind the parent or else the current block, and makes it current |
| ControlFlow.ControlFlow.MarkAssignment | Cython/Compiler/FlowControl.py:188-197 | appends the assignment to the current block and makes it what the block generates for the entry; nothing in unreachable code |
| ControlFlow.ControlFlow.MarkDeletion | Cython/Compiler/FlowControl.py:206-211 | appends the deletion to the current block, which then generates the uninitialised entry |
| ControlFlow.ControlFlow.MarkReference | Cython/Compiler/FlowControl.py:213-221 | appends the reference to the current block and leaves what the block generates alone |
| ControlFlow.ControlFlow.VisitExpr | Cython/Compiler/FlowControl.py:927-937 | every evaluation of the expression, all its operands or any part of them read, follows the blocks added for it |
| ControlFlow.ControlFlow.VisitBoolBinop | Cython/Compiler/FlowControl.py:1533-1553 | both operands and the way around the second one are in the graph, for every evaluation |
| ControlFlow.ControlFlow.VisitCondExpr | Cython/Compiler/FlowControl.py:1555-1573 | the condition and both values are in the graph, for every evaluation |
| ControlFlow.ControlFlow.MarkTarget | Cython/Compiler/FlowControl.py:817-851 | binding a target follows the graph, with an edge to the handler before and behind the assignment when inside a `try` |
| ControlFlow.ControlFlow.MarkTargets | Cython/Compiler/FlowControl.py:841-851 | binding the elements of a sequence target, one after the other, follows the graph |
| ControlFlow.ControlFlow.LinkHandler | Cython/Compiler/FlowControl.py:817-851 | a new block, with an edge from the old one to the handler of the innermost `try` if there is one |
| ControlFlow.ControlFlow.VisitStmt | Cython/Compiler/FlowControl.py:939-951 | every run of the statement from a state that reaches the current block follows the graph: it ends in the block left current, or leaves by an edge to the loop's, the handler's or the exit's block |
| ControlFlow.ControlFlow.VisitThen | Cython/Compiler/FlowControl.py:939-946 | the same for a list of statements, of which those behind a jump are skipped |
| ControlFlow.ControlFlow.VisitAssign | Cython/Compiler/FlowControl.py:874-886 | the same for single and cascaded assignments |
| ControlFlow.ControlFlow.VisitDel | Cython/Compiler/FlowControl.py:904-917 | the runs of `del` of a name follow the graph exactly if it is outside of the body of every `try` |
| FlowStatements.DelExactly | Cython/Compiler/FlowControl.py:904-917 | a reference and a deletion at the end of a block are what `del` does exactly if no handler is in force; otherwise deleting an assigned entry is a run that the graph misses |
| ControlFlow.ControlFlow.VisitIf | Cython/Compiler/FlowControl.py:959-984 | builds the described graph, and every run follows it, for `if` with any clauses and with or without `else` |
| ControlFlow.ControlFlow.VisitClauses | Cython/Compiler/FlowControl.py:964-975 | each clause's condition leads to its body and to the next clause, each body to the block behind the statement, and the last condition there only if there is no `else`: exactly the described graph |
| ControlFlow.ControlFlow.VisitAssert | Cython/Compiler/FlowControl.py:1066-1084 | the same for `assert`, whose failure raises and never goes on behind it |
| ControlFlow.ControlFlow.VisitWhile | Cython/Compiler/FlowControl.py:1086-1115 | the same for `while` with `else`, `break` and `continue`, for any number of iterations |
| ControlFlow.ControlFlow.VisitForIn | Cython/Compiler/FlowControl.py:1186-1228 | the same for `for` with `else`, `break` and `continue`, with the target bound in every iteration and exceptions out of the iterator |
| ControlFlow.ControlFlow.StartLoop | Cython/Compiler/FlowControl.py:1086-1093 | the loop's head and the block behind it, and the loop on the stack |
| ControlFlow.ControlFlow.VisitTryExcept | Cython/Compiler/FlowControl.py:1315-1364 | the same for `try`/`except`/`else`: an exception from any point of the body finds its state at the entry of the handlers |
| ControlFlow.ControlFlow.VisitGuarded | Cython/Compiler/FlowControl.py:1315-1338 | every run of the body that raises has its state reach the handlers' entry, and every other leaves as the statement does |
| ControlFlow.ControlFlow.VisitHandlers | Cython/Compiler/FlowControl.py:1340-1358 | an exception is tried against each clause in order and escapes to the enclosing handler if none takes it |
| ControlFlow.ControlFlow.VisitRaise | Cython/Compiler/FlowControl.py:1405-1413 | `raise` goes to the innermost handler and leaves no current block |
| ControlFlow.ControlFlow.VisitReturn | Cython/Compiler/FlowControl.py:1422-1445 | `return` goes to the exit and leaves no current block |
| ControlFlow.ControlFlow.VisitJump | Cython/Compiler/FlowControl.py:1447-1479 | `break` goes behind the innermost loop and `continue` to its head, and neither leaves a current block |
| FlowTightStatements.TightStmt | Cython/Compiler/FlowControl.py:939-951 | no path too many: if every run of a statement from a state only reads what is allowed to be read, and ends where all goes on so, then so does every path of the graph from the block that the statement was visited from |
| FlowTight.TightExpr | Cython/Compiler/FlowControl.py:927-937 | the same for expressions: each of their names is read by some evaluation, wherever the branches of `and`, `or` and conditional expressions put it |
| FlowTightStatements.TightTarget | Cython/Compiler/FlowControl.py:817-851 | the same for binding a target, with the edges to the handler before and behind it |
| FlowTightStatements.TightAssign | Cython/Compiler/FlowControl.py:874-886 | the same for assignments |
| FlowTightStatements.TightDel | Cython/Compiler/FlowControl.py:904-917 | the same for `del` of a name |
| FlowTightStatements.TightIf | Cython/Compiler/FlowControl.py:959-984 | the same for `if`: there is no path past its clauses and its `else` |
| FlowTightStatements.TightClauses | Cython/Compiler/FlowControl.py:964-975 | the same for the clauses from one on, with the `else` behind the last condition if there is one |
| FlowTightStatements.TightAssert | Cython/Compiler/FlowControl.py:1066-1084 | the same for `assert` |
| FlowTightStatements.TightWhile | Cython/Compiler/FlowControl.py:1086-1115 | the same for `while`, for any number of moves around the loop |
| FlowTightStatements.TightFor | Cython/Compiler/FlowControl.py:1186-1228 | the same for `for` |
| FlowTightStatements.TightTry | Cython/Compiler/FlowControl.py:1315-1364 | the same for `try`/`except`/`else` |
| FlowTightStatements.TightHandlers | Cython/Compiler/FlowControl.py:1340-1358 | the same for the clauses of a `try` |
| FlowTightStatements.TightRaise | Cython/Compiler/FlowControl.py:1405-1413 | the same for `raise` |
| FlowTightStatements.TightReturn | Cython/Compiler/FlowControl.py:1422-1445 | the same for `return` |
| FlowTightStatements.TightJump | Cython/Compiler/FlowControl.py:1447-1479 | the same for `break` and `continue` |
| FlowNormalize.Normalize | Cython/Compiler/FlowControl.py:223-249 | afterwards the blocks are the reachable ones that are not empty, there is an edge between two of them exactly if before there was one or a path through removed blocks only, and parents and children are inverse |
| FlowNormalize.FindReachable | Cython/Compiler/FlowControl.py:227-236 | the visited blocks are exactly those that a path from the entry leads to |
| FlowNormalize.DetachAll | Cython/Compiler/FlowControl.py:237-241 | detaching the unreachable blocks takes away their edges and no others |
| FlowNormalize.Bypass | Cython/Compiler/FlowControl.py:242-248 | links every parent of an empty block to every child of it, itself included |
| FlowNormalize.Detach | Cython/Compiler/FlowControl.py:77-84 | takes away all edges from and to a block, self-loops included, and no others |
| FlowNormalize.ContractionGoesOn | Cython/Compiler/FlowControl.py:242-249 | removing one more empty block keeps the relation between edges and paths through removed blocks |
| FlowContraction.ViaOneMore | Cython/Compiler/FlowControl.py:242-249 | a path through removed blocks and one more is a path without it or two that meet in it |
| FlowContraction.ContractionKeepsStates | Cython/Compiler/FlowControl.py:223-249 | a state reaches a kept block in the contracted graph exactly if it does in the original one |
| FlowContractedDefs.ContractionKeepsDefinitions | Cython/Compiler/FlowControl.py:223-249 | a definition of a reachable block reaches a kept block after contraction exactly if it did before: the reaching definitions are unchanged |
| FlowReaching.Initialize | Cython/Compiler/FlowControl.py:251-287 | every entry and every assignment has a bit of its own, the masks and the gen and kill sets of the blocks are exactly the bits of the definitions concerned, and outputs start as the gen sets |
| FlowReaching.Number | Cython/Compiler/FlowControl.py:251-269 | bits and definitions correspond one to one |
| FlowReaching.MasksPartition | Cython/Compiler/FlowControl.py:254-269 | each bit is in the mask of exactly one entry |
| FlowReaching.BlockBits | Cython/Compiler/FlowControl.py:271-281 | the gen and kill numbers of a block have exactly the bits of the definitions that it generates and kills |
| FlowReaching.ReachingDefinitions | Cython/Compiler/FlowControl.py:306-322 | it ends in the least solution of the dataflow equations, and then a bit is in a block's input exactly if a path leads from the block that generates its definition to the block with no killing block between |
| FlowReaching.Iterate | Cython/Compiler/FlowControl.py:306-322 | whatever order the blocks are visited in, the iteration ends in a solution of the equations that is below every other, and has exactly the bits of the paths |
| FlowReaching.Pass | Cython/Compiler/FlowControl.py:310-322 | a pass that changes something takes bits away from a finite set of missing ones; one that changes nothing ends in a solution |
| FlowReaching.Revise | Cython/Compiler/FlowControl.py:311-322 | one block's input and output follow from its parents' outputs; outputs only grow and never run ahead of the paths |
| FlowReaching.SettledSolves | Cython/Compiler/FlowControl.py:306-322 | a solution of the equations whose bits all come from paths has exactly the bits of all paths |
| FlowReaching.SolvedIsLeast | Cython/Compiler/FlowControl.py:306-322 | a solution whose bits all come from paths is the least one: it solves the equations, and every other solution has all its bits |
| FlowReaching.SettledComplete | Cython/Compiler/FlowControl.py:306-322 | every solution contains the bit of every definition along every path that carries it |
| FlowDataflow.PathAccounts | Cython/Compiler/FlowControl.py:188-221 | along every path some definition reaches the end of it and accounts for what the entry holds there |
| FlowDataflow.GenOfApplies | Cython/Compiler/FlowControl.py:188-211 | what a block generates for an entry is what its statements leave in it |
| FlowCheck.CheckDefinitions | Cython/Compiler/FlowControl.py:566-621 | each name node has exactly the definitions that reach one of its statements |
| FlowCheck.CheckBlock | Cython/Compiler/FlowControl.py:577-591 | replaying a block gives each of its nodes exactly the definitions of its entry that hold at the statement |
| FlowCheck.MapOne | Cython/Compiler/FlowControl.py:289-304 | the result describes exactly the definitions of the entry whose bits are set, and uninitialised exactly if its bit is |
| FlowCheck.PassStat | Cython/Compiler/FlowControl.py:584-591 | an assignment or deletion replaces the definitions of its entry by its own |
| FlowCheck.ReplayEndsInOutput | Cython/Compiler/FlowControl.py:577-591 | the replay of a block from its input ends in its output, deletions included |
| DependencyTree.DependencyTree.TransitiveMerge | Cython/Build/Dependencies.py:664-670 | with whatever earlier calls left in the cache and on any finite graph, cycles included, the result is exactly the union of `extract` over the files reachable from the node |
| DependencyTree.DependencyTree.TransitiveMergeHelper | Cython/Build/Dependencies.py:672-695 | it ends, restores the stack, and keeps every cache entry exact; without a loop the result is the closure and is cached, with one it is complete but for what the stack still has to add |
| DependencyTree.DependencyTree.MergeOutgoing | Cython/Build/Dependencies.py:678-688 | the union over the outgoing edges, and the lowest stack position that any of them loops back to |
| DependencyTree.DependencyTree.GatheringEnds | Cython/Build/Dependencies.py:689-693 | what was gathered below a node is its closure exactly when no loop leads below it on the stack, so that it may be cached |
| DependencyTree.DependencyTree.GatheredIsClosure | Cython/Build/Dependencies.py:672-693 | files gathered from reachable nodes with all their edges are the closure |
| DependencyTree.DependencyTree.AllDependencies | Cython/Build/Dependencies.py:618-626 | the dependencies of a file are exactly the files it reaches and the files those include |
| StripLiterals.StripStringLiterals | Cython/Build/Dependencies.py:284-391 | for every text: the pieces with the literals put back for the labels are the source; replacing the labels in the output text gives the source if the prefix cannot be mistaken; and the literals are exactly the bodies that the lexer finds: of comments, of strings, and of f-strings before, between and behind their replacement fields, the code in which stays and is stripped in the same way |
| StripLiterals.RestoredIsSource | Cython/Build/Dependencies.py:284-391 | putting back the literals gives the source, from any piece on |
| StripLiterals.RebuiltIsSource | Cython/Build/Dependencies.py:284-391 | the same for replacing labels in the joined text |
| StripLiterals.LabelsArePrefixFree | Cython/Build/Dependencies.py:295-300 | no label is the beginning of another |
| StripLiterals.DefaultPrefix | Cython/Build/Dependencies.py:284-284 | the default prefix cannot be mistaken unless it is in the source |
| StripLiterals.Stripper.Append | Cython/Build/Dependencies.py:290-291 | the next piece of output is the next stretch of source |
| StripLiterals.Stripper.AppendNewLabel | Cython/Build/Dependencies.py:295-300 | the next piece of output is a new label whose literal is the next stretch of source |
| StripLiterals.Stripper.ParseString | Cython/Build/Dependencies.py:302-341 | ends, goes on behind the closing quotes or at the end of the source (-1), loses nothing, and takes out what the lexer does |
| StripLiterals.Stripper.ParsePlainString | Cython/Build/Dependencies.py:302-341 | the body of a string without `f` is what the lexer says, escaped quotes and shorter runs of quotes in it included |
| StripLiterals.Stripper.FindStringEnd | Cython/Build/Dependencies.py:307-338 | the closing quotes are where the lexer finds them, or there are none |
| StripLiterals.Stripper.ParseFString | Cython/Build/Dependencies.py:302-341 | ends, loses nothing and takes out the text of the f-string that the lexer finds, with any braces |
| StripLiterals.Stripper.ParseFStringToken | Cython/Build/Dependencies.py:307-338 | one token of an f-string takes the scan as far as the lexer's steps over it: braces, escapes or quotes, which may end it |
| StripLiterals.Stripper.ParseBraces | Cython/Build/Dependencies.py:321-331 | a run of braces begins a replacement field, behind the text before it, exactly if it has an odd number of opening ones; the code of the field is stripped up to its closing brace |
| StripLiterals.Stripper.ParseToken | Cython/Build/Dependencies.py:346-388 | one token of code takes the scan as far as the lexer's steps over it; braces end or nest replacement fields, and only there |
| StripLiterals.Stripper.ParseCode | Cython/Build/Dependencies.py:343-388 | ends, loses nothing, and takes out exactly the bodies that the lexer finds in the rest of the source or, in a replacement field, up to its closing brace |
| StripLiterals.Stripper.ParseQuotes | Cython/Build/Dependencies.py:356-366 | a run of quotes of any length opens the string that the lexer opens, or none |
| StripLiterals.Stripper.OpeningQuotes | Cython/Build/Dependencies.py:356-364 | what opens depends on the length of the run modulo 6 |
| StripLiterals.Stripper.ParseComment | Cython/Build/Dependencies.py:368-374 | a comment's body goes up to the end of the line |
| StringLexer.QuotesInCode | Cython/Build/Dependencies.py:356-366 | in the lexer, a run of quotes passes its empty strings and leaves one quote, three, or none, with an `f` before the run or without |
| StringLexer.EscapesInString | Cython/Build/Dependencies.py:316-319 | in the lexer, a run of backslashes escapes the next character exactly if it is odd |
| StringLexer.BracesInString | Cython/Build/Dependencies.py:321-331 | in the lexer, the last of an odd number of opening braces in an f-string begins a replacement field, and all other braces are text |
| StringLexer.ToStringToken | Cython/Build/Dependencies.py:272-275 | in the lexer, nothing happens in a string before the next token of the stripper |
| LzssCompress.LzssCompress | Cython/LZSS.py:16-184 | the output is the encoding of the items that the input is divided into: at each token start the longest match that can be stored, the earliest of that length, if it is not put off, too short or overlapping, and a byte otherwise. Decompressing it to the length of the input gives the input and consumes the whole output, which is at most ceil(n/8) longer than the input |
| LzssCompress.CompressionIsUnique | Cython/LZSS.py:101-184 | there is only one way to divide the input so, and only one encoding of it: the input determines the output |
| LzssCompress.SameItems | Cython/LZSS.py:108-162 | two such divisions agree token by token |
| LzssCompress.ChosenUnlessFar | Cython/LZSS.py:120-156 | a match that was found is written as a byte exactly if it runs into itself, or has length 3 and is too far away for the layout with two bytes of offset |
| LzssCompress.Compressor.FindLongestMatch | Cython/LZSS.py:37-99 | the result is the longest storable match among all earlier token starts, the earliest one of that length; it is none exactly if there is none or it is put off for the next position |
| LzssCompress.Compressor.FindMatch | Cython/LZSS.py:49-74 | the scan of the positions with the same three bytes finds the longest storable match of all of them |
| LzssCompress.Compressor.ExtendMatch | Cython/LZSS.py:64-68 | a match is extended until bytes differ or the limit is reached |
| LzssCompress.Compressor.NextIsBetter | Cython/LZSS.py:76-97 | the match is put off exactly if the scan for the next position settles on one that is more than one byte longer |
| LzssCompress.NextBestBounds | Cython/LZSS.py:76-97 | what that scan settles on is a match that is there, and no position within the window that matches further is overlooked |
| LzssCompress.WindowIsWideEnough | Cython/LZSS.py:49-62 | what the start of the window leaves out could not be stored anyway |
| LzssCompress.WithKeyExactly | Cython/LZSS.py:116-118 | the positions listed for three bytes are exactly the token starts that have them, in order |
| LzssCompress.Compressor.AddToIndex | Cython/LZSS.py:116-118 | after a token the index lists its start as well |
| LzssCompress.Compressor.EmitItem | Cython/LZSS.py:120-160 | the bytes written are those of the item chosen, in one of the three layouts or as a literal |
| LzssCompress.Compressor.EmitMedium | Cython/LZSS.py:140-143 | the two bytes of a medium reference, put together with shifts and masks, are 7 bits of the offset behind a set bit, and 2 more bits behind a clear bit with the length |
| LzssCompress.Compressor.EmitLong | Cython/LZSS.py:146-150 | the three bytes of a long reference, put together with shifts and masks, are two lots of 7 bits of the offset behind set bits, and the length |
| LzssCompress.ChosenExpands | Cython/LZSS.py:120-162 | whatever is chosen, what it stands for is the next stretch of the input |
| LzssCompress.Compressor.PushFlag | Cython/LZSS.py:164-169 | the flag goes into the byte in front of the group, which is patched after eight of them |
| LzssCompress.FlagsWith | Cython/LZSS.py:164-164 | the new flag gets above all the flags of the group so far, each of which moves one place down |
| LzssCompress.Compressor.WriteItem | Cython/LZSS.py:120-169 | writes the item chosen for the match and goes on behind what it stands for; output and flags stay those of the items so far |
| LzssCompress.Compressor.Finish | Cython/LZSS.py:171-178 | a byte for flags that was not needed is taken back, and the flags of an incomplete group are padded |
| LzssCompress.PaddedFlags | Cython/LZSS.py:176-178 | shifting until the high bit is gone leaves the flags of the group in the low byte |
| LzssFormat.EncodingDecodes | Cython/Utility/StringTools.c:161-200 | decoding the bytes of any groups of storable items gives what the items stand for and reads all the bytes |
| LzssFormat.ReadBack | Cython/Utility/StringTools.c:172-189 | each of the three layouts reads back as the offset and length it was written for |
| LzssFormat.FlagsReadBack | Cython/Utility/StringTools.c:166-168 | the bits of a flag byte, lowest first, say which items of the group are literals |
| LzssFormat.EncodingBound | Cython/LZSS.py:101-184 | encoded items take no more bytes than they stand for, plus one for every eight of them |
| LzssDecompress.LzssDecompress | Cython/Utility/StringTools.c:161-200 | for every input and buffer: the C decompressor stays inside of both exactly if the input decodes to as many bytes as the buffer has, and then it fills the buffer with them and returns how many bytes that took |
| LzssDecompress.OneGroup | Cython/Utility/StringTools.c:165-198 | a flag byte with a row of ones above it counts its own items |
| LzssDecompress.OneItem | Cython/Utility/StringTools.c:168-194 | a plain byte or a copy of earlier output, as the decoder has it, done exactly if both buffers have room for it |
| LzssDecompress.BackReference | Cython/Utility/StringTools.c:173-189 | the three layouts of a back reference, read with shifts and masks, are those of the format, or the input ends in it |
| LzssBits.ReadMedium | Cython/Utility/StringTools.c:179-182 | the shifts and masks of a medium reference give 7 bits of the first byte and 2 of the second |
| LzssBits.ReadLong | Cython/Utility/StringTools.c:183-186 | the shifts and masks of a long reference give 7 bits of the first byte and 7 of the second |
| StringIOScripts.RunAndRead | Cython/StringIOTree.py:44-119 | for every legal list of operations on any number of buffers and for every one of them, inserted or not: the buffer has the text of its flat document, in which every write, new insertion point and inserted tree went in at a cursor; `copyto` gives the same text, and `empty` is true exactly if it is empty |
| StringIOScripts.Run | Cython/StringIOTree.py:80-119 | after every run the heap holds one tree for each document, no two sharing a buffer or stream, and every buffer has its cursor in one of them |
| StringIOScripts.Step | Cython/StringIOTree.py:80-119 | one operation changes the documents as specified and touches nothing outside of the trees |
| StringIOScripts.Read | Cython/StringIOTree.py:52-78 | the three readers agree on the text of the document |
| StringIOScripts.RenamedSplice | Cython/StringIOTree.py:96-119 | inserting at a cursor does not depend on what the buffers are called |
| StringIOTree.StringIOTree.Write | Cython/StringIOTree.py:48-49 | the text goes in at the buffer's cursor, wherever in the tree it is |
| StringIOTree.StringIOTree.Commit | Cython/StringIOTree.py:80-88 | the document stays the same, and the buffer's own stream is empty afterwards |
| StringIOTree.StringIOTree.Insert | Cython/StringIOTree.py:96-102 | the whole document of the other tree goes in at the cursor |
| StringIOTree.StringIOTree.InsertionPoint | Cython/StringIOTree.py:104-119 | a new cursor goes in right in front of the buffer's own |
| StringIOTree.StringIOTree.Reset | Cython/StringIOTree.py:90-94 | what the buffer had in front of its cursor is gone, and nothing else |
| StringIOTree.StringIOTree.Empty | Cython/StringIOTree.py:52-55 | true exactly if the buffer and all that was inserted has no text |
| StringIOTree.StringIOTree.GetValue | Cython/StringIOTree.py:57-60 | the text of the document without its cursors |
| StringIOTree.StringIOTree.CollectIn | Cython/StringIOTree.py:62-68 | appends pieces that together are the text |
| StringIOTree.StringIOTree.CopyTo | Cython/StringIOTree.py:70-78 | writes the text to the target |
| StringIOTree.TextIsTextOfDoc | Cython/StringIOTree.py:62-78 | reading the streams, children first, gives the document without its cursors |
| StringIOTree.ReplaceSplices | Cython/StringIOTree.py:80-119 | adding at the end of one buffer is inserting at its cursor in the whole document |
| StringIOTree.PartReplaced | Cython/StringIOTree.py:80-119 | when something goes in at the cursor of one buffer, each other buffer of the tree has it in its own document exactly if it has that cursor |
| FlatDocument.SpliceThere | Cython/StringIOTree.py:104-119 | what is inserted stands right in front of its cursor, and all else stays |
| HandleModel.DeclarableValues | Cython/Compiler/HandleModel.py:423-447 | a value can be declared exactly in short-lived storage, with an ownership that the storage takes, and as a handle type |
| HandleModel.StorageByKind | Cython/Compiler/HandleModel.py:209-242 | exactly fields and globals can be loaded from, outlive a call, have a C type of their own and cannot be used as handles |
| HandleTracker.ToCloseExactly | Cython/Compiler/HandleModel.py:590-602 | a cleanup plan has exactly the live owned handles that are not preserved, in reverse order of declaration |
| HandleTracker.PlanIsClosable | Cython/Compiler/HandleModel.py:604-608 | a plan can be applied in the state that it was made in |
| HandleTracker.CleanedUp | Cython/Compiler/HandleModel.py:604-608 | after it exactly the preserved owned handles are live, and the others are as before |
| HandleStateTracker.HandleStateTracker.DeclareStorage | Cython/Compiler/HandleModel.py:461-472 | succeeds exactly for a new name and the storage's own type, and changes nothing else |
| HandleStateTracker.HandleStateTracker.DeclareValue | Cython/Compiler/HandleModel.py:474-496 | succeeds exactly for a new name and an allowed value, which is then live behind all others |
| HandleStateTracker.HandleStateTracker.ConsumeOwned | Cython/Compiler/HandleModel.py:517-525 | succeeds exactly for a live owned handle, which it ends, and changes nothing otherwise |
| HandleStateTracker.HandleStateTracker.Close | Cython/Compiler/HandleModel.py:527-528 | closes exactly one live owned handle, or fails |
| HandleStateTracker.HandleStateTracker.MoveOut | Cython/Compiler/HandleModel.py:530-531 | moves exactly one live owned handle, or fails |
| HandleStateTracker.HandleStateTracker.Duplicate | Cython/Compiler/HandleModel.py:533-536 | a new owned handle from a live one |
| HandleStateTracker.HandleStateTracker.ApplyOperation | Cython/Compiler/HandleModel.py:538-563 | succeeds exactly if the arguments are live (the one argument of a close owned as well) and a result name is given exactly if there is an owned result, and is new; closing ends its argument even if it fails behind that, the owned result is declared, and nothing else changes |
| HandleStateTracker.HandleStateTracker.LoadStorage | Cython/Compiler/HandleModel.py:565-571 | loading gives a new owned handle exactly if the storage is declared as a field or global and the target is new, and fails without effect otherwise |
| HandleStateTracker.HandleStateTracker.StoreStorage | Cython/Compiler/HandleModel.py:573-581 | a live handle can be stored exactly in a field or global |
| HandleStateTracker.HandleStateTracker.PrepareReturn | Cython/Compiler/HandleModel.py:583-588 | an owned result is moved, any other live one is left to be duplicated |
| HandleStateTracker.HandleStateTracker.PlanCleanup | Cython/Compiler/HandleModel.py:590-602 | fails exactly if a preserved handle is not live |
| HandleStateTracker.HandleStateTracker.ApplyCleanupPlan | Cython/Compiler/HandleModel.py:604-608 | closes the handles of the plan in order, and fails exactly if one of them is not live and owned when its turn comes |
| HandleStateTracker.HandleStateTracker.LiveOwnedHandles | Cython/Compiler/HandleModel.py:640-645 | collects exactly the names of the live owned handles |
| HandleStateTracker.HandleStateTracker.AssertNoLiveOwnedHandles | Cython/Compiler/HandleModel.py:647-652 | passes exactly if no name has a live owned handle |
| HandleStateTracker.ReturnWith | Cython/Compiler/HandleModel.py:583-608 | preparing a return, planning and applying the cleanup succeeds exactly if the result and the preserved handles are live and no moved handle is preserved; it closes in reverse order of declaration and leaves exactly the preserved owned handles live |
| HandleStateTracker.ReturnedAndKept | Cython/Compiler/HandleModel.py:583-608 | returning an owned handle and preserving it as well fails, with the handle moved |
| HandleStateTracker.Fork | Cython/Compiler/HandleModel.py:610-615 | a copy with a state of its own |
| HandleStateTracker.Merge | Cython/Compiler/HandleModel.py:617-638 | succeeds exactly if there are branches and they agree on storage and on every handle's ownership and state |
| HandleRuns.BranchAndMerge | Cython/Compiler/HandleModel.py:610-638 | each branch runs any list of operations on a copy, the original staying as it was; the merge succeeds exactly if the same events happened in all branches, and then each handle that was live and owned before them was closed in all, moved in all, or left alone in all, and the leaks of the merged state are those of every branch |
| HandleRuns.MergedBranches | Cython/Compiler/HandleModel.py:617-638 | two runs from one state end in states that agree exactly if they declared the same and ended the same handles in the same way, in whatever order and with whatever failures between |
| HandleRuns.RunOps | Cython/Compiler/HandleModel.py:461-608 | running any list of operations, failing ones included, goes through the states of a run, and each operation succeeds exactly if its condition holds in the state it finds |
| HandleRuns.RunOp | Cython/Compiler/HandleModel.py:461-608 | every operation of the tracker does the events that its state allows, and succeeds exactly under its condition |
| HandleRuns.ConsumedOnce | Cython/Compiler/HandleModel.py:517-531 | in every run of operations a handle is closed or moved at most once |
| HandleRuns.NeverAgain | Cython/Compiler/HandleModel.py:504-531 | once a handle was closed or moved, every later operation that needs it fails |
| HandleRuns.OthersStay | Cython/Compiler/HandleModel.py:517-531 | in every run of operations borrowed and immortal handles stay as they are |
| HandleRuns.LiveOwnedConserved | Cython/Compiler/HandleModel.py:640-652 | after every run the live owned handles are exactly those that were so before it or were made in it, less those that were closed or moved: nothing leaks unseen |
| HandleRuns.LogTells | Cython/Compiler/HandleModel.py:461-608 | what became of any name in a run can be told from its events: what was declared, and what ended in which way |
| HandleRuns.StoredCanBeLoaded | Cython/Compiler/HandleModel.py:565-581 | handles can be stored in storage that was declared, and loaded back, exactly if its kind is a field or a global |
| HandleRuns.OperationsActAlike | Cython/Compiler/HandleModel.py:257-335 | the duplicate and close operations do what those methods do, and every operation without an owned result and of one argument uses it |
| HandleRuns.LoadsActAlike | Cython/Compiler/HandleModel.py:257-335 | the load operations of globals and fields do what loading such storage does |
| HandleRuns.StoresActAlike | Cython/Compiler/HandleModel.py:257-335 | the store operations of globals and fields do what storing there does |
| HandleManagers.IdentityInjective | Cython/Compiler/HandleModel.py:663-674 | no two slots or generations share an identity |
| HandleManagers.LeakChecksAgree | Cython/Compiler/HandleModel.py:709-721 | the live owned handles are exactly those of the active slots, so the manager's leak check passes exactly if the tracker's does |
| HandleManagers.HandleTemporaryManager.Allocate | Cython/Compiler/HandleModel.py:663-674 | a free slot is bound to an identity that was never used before; the generation rises even when the declaration then fails |
| HandleManagers.HandleTemporaryManager.Use | Cython/Compiler/HandleModel.py:686-687 | using a slot is using the handle that it is bound to |
| HandleManagers.HandleTemporaryManager.Close | Cython/Compiler/HandleModel.py:689-690 | closes the handle of the slot, or fails without effect |
| HandleManagers.HandleTemporaryManager.MoveOut | Cython/Compiler/HandleModel.py:692-693 | moves the handle of the slot, or fails without effect |
| HandleManagers.HandleTemporaryManager.Release | Cython/Compiler/HandleModel.py:695-704 | a slot is freed exactly if its handle is not live and owned any more |
| HandleManagers.HandleTemporaryManager.LiveOwnedHandles | Cython/Compiler/HandleModel.py:709-714 | the slots with live owned handles; none exactly if the tracker has none |
| HandleManagers.HandleTemporaryManager.AssertNoLiveOwnedHandles | Cython/Compiler/HandleModel.py:716-721 | passes exactly if the tracker underneath has no live owned handle |
| HandleManagers.HandleBuilderManager.Allocate | Cython/Compiler/HandleModel.py:731-740 | a free slot gets a builder with a new identity |
| HandleManagers.HandleBuilderManager.Finish | Cython/Compiler/HandleModel.py:760-770 | a builder is built or cancelled once |
| HandleManagers.HandleBuilderManager.Release | Cython/Compiler/HandleModel.py:772-779 | a slot is freed exactly if its builder is built or cancelled |
| ExpressionWriter.WriteExpression | Cython/CodeWriter.py:485-498 | for every printable tree the text, read by the grammar of the parser, is the tree with its chains of one production nested as the grammar nests them, and the very tree exactly if they are nested so already and no minus stands on a number |
| ExpressionWriter.WrittenParses | Cython/CodeWriter.py:576-636 | the same for the text itself |
| ExpressionWriter.PrecedenceIsLevel | Cython/CodeWriter.py:576-593 | the precedences of the printer are in the order of the productions of the grammar in Cython/Compiler/Parsing.py:192-510 |
| ExpressionWriter.ParenthesesNeeded | Cython/CodeWriter.py:595-605 | an operand is put in parentheses only where the grammar would not take it whole without them, whatever follows |
| ExpressionWriter.RightNestedDifference | Cython/CodeWriter.py:595-599 | a difference nested on the right reads back as another tree |
| ExpressionWriter.PrintedParsed | Cython/CodeWriter.py:576-636 | within any other text and at every level of the parser, what is printed for a tree is read up to its end as that tree |
| ExpressionWriter.LexText | Cython/CodeWriter.py:607-630 | scanning what is printed gives the tokens that were meant, whatever follows |
| Expressions.StandsForItself | Cython/CodeWriter.py:576-593 | a tree is unchanged by the nesting of the grammar exactly if it nests that way already |
| ExpressionWriter.ExpressionWriter.OperatorEnter | Cython/CodeWriter.py:595-599 | pushes the precedence and opens a parenthesis exactly if the operator around binds tighter |
| ExpressionWriter.ExpressionWriter.OperatorExit | Cython/CodeWriter.py:601-605 | pops the precedence and closes the parenthesis that was opened |
| ExpressionWriter.ExpressionWriter.VisitNotNode | Cython/CodeWriter.py:607-613 | prints `not` and its operand, and restores the precedence stack |
| ExpressionWriter.ExpressionWriter.VisitUnopNode | Cython/CodeWriter.py:615-621 | prints the sign and its operand, and restores the precedence stack |
| ExpressionWriter.ExpressionWriter.VisitBinopNode | Cython/CodeWriter.py:623-636 | prints both operands around the operator, and restores the precedence stack |
| ExpressionWriter.ExpressionWriter.Write | Cython/CodeWriter.py:493-498 | appends the text of the tree and restores the precedence stack |

## Left out

Of the control-flow analysis:

- Statements other than those of `FlowSyntax.Stmt`: `finally`, `with`, `match`, comprehensions, assignment expressions, parallel ranges, nested scopes. Nothing is said here about functions with them.
- `except E as name`: before this analysis it becomes a `try`/`finally` with a `del` (`Cython/Compiler/ParseTreeTransforms.py:346-360`), so that functions with it are outside of the model.
- FlowFunction.AnalyseFunction: functions with a `del` inside of the body of a `try` are outside of its domain, because runs there leave the graph (`FlowStatements.DelExactly`).
- Closures, statically assigned entries and untracked names: `bounded` is never filled by the code and is taken as empty.
- FlowPaths.GraphIsExact: that a path is a run without liberties is stated for bodies whose `for` loops have no names in their iterables; with such names it is stated for unassigned reads (`FlowPaths.UnassignedIsRead`), which is what the marks are about.
- FlowFunction.AnalyseFunction: the exactness of the marks is stated for nodes that are only read; a node that is a left-hand side as well has its definitions recorded at both.
- Control blocks as objects: a block is its number, and its fields are rows of `ControlFlow.ControlFlow`, so that aliasing of block objects is not captured.
- The special cases of `for` over `range` and `enumerate`, which only change the recorded right-hand side.
- Messages, their order, the dot output, and type inference from the recorded assignments.
- ControlFlow.ControlFlow.VisitDel: only `del` of a name; deleting items or attributes is an expression statement here.

Of the dependencies:

- DependencyTree.DependencyTree.TransitiveMerge: the merge is set union; `DistutilsInfo.merge` changes its argument and depends on the order. An `extract` that raises is not modelled, and finding the files (`cimported_files`, `included_files`) is a parameter.
- Globbing, timestamps, package lookup, build options and `cythonize` itself.
- StripLiterals.StripStringLiterals: a newline in a short string is not an error in the lexer, as it is none in the code; nor is a brace in the text of an f-string that Python refuses.

Of LZSS:

- How good the compression is, and the statistics.
- LzssDecompress.LzssDecompress: where the C code would step outside of a buffer its behaviour is undefined, and the model stops without a result.
- Allocation of the result and the check of the consumed length in `__Pyx_DecompressString_LZSS`.

Of the insertion points:

- Markers, and callers that keep an old `write` after `commit` has replaced the stream.
- StringIOScripts.RunAndRead: runs do not have `reset`, because what it drops is a part of the tree that the flat document does not show; `StringIOTree.StringIOTree.Reset` states it for one call.

Of the handle model:

- Argument names and texts of messages, the sorted order of the lists of leaks (they are sets here), `ContextPropagationModel`, and `HandleTrackerManager`, which is the builder manager once more.

Of the expression printer:

- ExpressionWriter.WriteExpression: names, non-negative integers, `not`, unary and binary operators and single comparisons. Cascaded comparisons are printed without their cascade by the code; other nodes, negative literals, type casts, `&` and `sizeof` are not modelled.
- Statements and declarations.
