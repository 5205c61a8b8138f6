# CallGraph: a verified model of the Closure Compiler's call graph pass

The Closure Compiler's `CallGraph` pass walks a JavaScript program once. From
that walk it builds:

- a registry of every function. One synthetic *main* function stands for the
  global code, and then every function literal follows in source order
  (declared, `var`-assigned, namespace-assigned, nested and anonymous ones).
- for every function, its own call sites: the CALL and NEW nodes of its
  scope. Call sites inside nested literals belong to the inner literal.
- for every call site, what its target expression may invoke: known program
  functions, an extern, or something unknown.
- the inverse relation: the call sites possibly targeting each function.
- two flags per function. A function is *aliased* when its name is used as a
  value. It is *exposed to call/apply* when it is invoked through `.call` or
  `.apply`.
- two directed views over the functions, caller→callee and callee→caller.
  Each edge is labelled with its call site. Fixed-point analyses propagate
  facts over these views.

The graph is built with a forward capability, a backward capability, or both.
Only the two per-element queries depend on them: `getPossibleTargets` needs
forward and `getCallsitesPossiblyTargetingFunction` needs backward. Without
the capability, each query fails with `UnsupportedOperation`.

The behaviour modelled is the one the pass's test suite, `CallGraphTest.java`,
asserts. The model also covers the suite's own step-by-step code:

- the fixture that records the capabilities and runs the pass;
- the loops that seed the *poisoned* and *reachable* sets;
- the edge callbacks, applied until nothing changes;
- the `getCallsiteTargetNames` helper.

## Layout

| file | module | contents |
|---|---|---|
| `wrappers.dfy` | `Wrappers` | `Option`, `Result` |
| `ast.dfy` | `Ast` | the small syntax tree (names, property and element access, calls, `new`, assignments, function literals, `var`, function declarations), node kinds, dotted names |
| `discovery.dfy` | `Discovery` | the one walk that finds the literals in pre-order; the call sites of one scope; the arena laying the call sites of all bodies out one body after another |
| `names.dfy` | `Names` | the index from names to functions, the names bound to non-function values, and target resolution |
| `escape.dfy` | `Escape` | which dotted names are used as values, and which are invoked through `.call`/`.apply` |
| `callgraph.dfy` | `CallGraphs` | the graph value (functions and call sites in two arenas, referring to each other by index), its construction `Build`, the queries, the two directed views and the capability gate |
| `fixedpoint.dfy` | `FixedPoint` | the propagation callback (a class over a set of functions), one pass over the edges, and the traversal until no change; specified by `Closure`, the least closed superset of the seed |
| `tests.dfy` | `CallGraphTests` | the fixture class, the seeding loops, poisoning and reachability, and `CallsiteTargetNames` |
| `scenarios.dfy` | `CallGraphScenarios` | the poisoning and reachability tests on their own source programs |
| `cases.dfy` | `CallGraphCases` | the four-call-site test, the call-sites-targeting test and the capability-mismatch test on their own source programs |

The scenario proofs work in two steps, to keep each one small. A scenario is
first described as the call graph sees it: the name of each registry entry,
and the set of names each entry's own body calls through (`NameGraph`).
`BuildNameGraph` shows that every built graph has the description of its
program. The results are then proved from the description alone.
`PoisonProgramShape`, `ReachProgramShape` and `TargetProgramShape` show that
the test's own source programs, written as syntax trees, have the
descriptions used.

`testGetDirectedGraph_backwardOnForward` and
`testGetDirectedGraph_forwardOnBackward` build a graph with one capability and
then read the other view. So the model builds both views whatever the
capabilities, and gates only `getPossibleTargets` and
`getCallsitesPossiblyTargetingFunction`.

## Model

| member | source | states |
|---|---|---|
| Ast.QualifiedName | tools/closure-compiler/trunk/test/com/google/javascript/jscomp/CallGraphTest.java:284-306 | a NAME `a` denotes `a`; a property access `o.p` denotes `q.p` when `o` denotes `q` (`ns.B`, `namespace.A`) and nothing otherwise; no other shape denotes a dotted name |
| Discovery.LiteralName | tools/closure-compiler/trunk/test/com/google/javascript/jscomp/CallGraphTest.java:109-172 | a literal bound by `var x = function…` or `ns.a = function…` takes that name; with no such binding it takes its own name when it has one, and it is anonymous exactly when it has neither |
| Discovery.LiteralsInStmts | tools/closure-compiler/trunk/test/com/google/javascript/jscomp/CallGraphTest.java:69-172 | the walk that lists the function literals of the program in pre-order, each with its node, the name it is filed under and its body; counted by `LiteralsCountStmts`, named by `StatementLiteral` |
| Discovery.StatementLiteral | tools/closure-compiler/trunk/test/com/google/javascript/jscomp/CallGraphTest.java:95-139 | `function A(){}` introduces a literal named A, `var A = function(){}` one named A, and `namespace.A = function(){}` one named `namespace.A`, each with its own FUNCTION node and body |
| Discovery.FirstLiteralOfStmt | tools/closure-compiler/trunk/test/com/google/javascript/jscomp/CallGraphTest.java:69-172 | the first literal of statement j is found right after the literals of the statements before j |
| Discovery.LiteralsCountStmts | tools/closure-compiler/trunk/test/com/google/javascript/jscomp/CallGraphTest.java:69-93 | the walk finds as many literals as the program has FUNCTION nodes |
| Discovery.InvocationSplitStmts | tools/closure-compiler/trunk/test/com/google/javascript/jscomp/CallGraphTest.java:339-380 | the CALL/NEW nodes of a tree number exactly its own-scope call sites plus the own-scope call sites of every literal found in it |
| Discovery.SitesInStmts | tools/closure-compiler/trunk/test/com/google/javascript/jscomp/CallGraphTest.java:190-259 | the CALL and NEW nodes of one scope in source order, each with its node, kind and target, not looking inside nested literals; `BuildCallsitesInFunction` and `InvocationSplitStmts` state what it yields |
| Names.IndexFunctionsCorrect | tools/closure-compiler/trunk/test/com/google/javascript/jscomp/CallGraphTest.java:261-283 | the name index lists, under a name, exactly the registry entries carrying that name, in increasing order |
| Names.IndexFunctions | tools/closure-compiler/trunk/test/com/google/javascript/jscomp/CallGraphTest.java:261-306 | files every registry entry under its name, in registry order, skipping unnamed entries; its meaning is `IndexFunctionsCorrect` |
| Names.ValueBoundInStmts | tools/closure-compiler/trunk/test/com/google/javascript/jscomp/CallGraphTest.java:1005-1028 | the names a `var` or an assignment binds to something other than a function literal (`var A = externalnamespace.prop`); `Resolve` makes a call through them unknown |
| Names.Resolve | tools/closure-compiler/trunk/test/com/google/javascript/jscomp/CallGraphTest.java:979-1055 | a dotted name resolves to the functions filed under it. It has an extern target exactly when the externs declare it. It has an unknown target exactly when it has no definition or is bound to a non-function value. Any other target shape is unknown. No call site is left unclassified |
| Names.ResolveExclusive | tools/closure-compiler/trunk/test/com/google/javascript/jscomp/CallGraphTest.java:979-1055 | when the name is defined in at most one way (any number of functions, or an extern, or a value binding, or nothing), the call site is exactly one of: resolved, unknown, extern |
| Names.ResolveMixedDefinitions | tools/closure-compiler/trunk/test/com/google/javascript/jscomp/CallGraphTest.java:979-1055 | a name defined in two ways sets both outcomes: a function and a value binding give known targets and an unknown target; a function and an extern give known targets and an extern target; an extern and a value binding give both flags |
| Escape.NameNotCapturedAliasesNothing | tools/closure-compiler/trunk/test/com/google/javascript/jscomp/CallGraphTest.java:850-870 | a dotted name used as a callee or as the base of an access aliases nothing, not even a prefix of itself |
| Escape.NameCapturedAliasesItself | tools/closure-compiler/trunk/test/com/google/javascript/jscomp/CallGraphTest.java:832-849 | a dotted name used as a value aliases that name and none of its prefixes |
| Escape.CalleeIsNotAliased | tools/closure-compiler/trunk/test/com/google/javascript/jscomp/CallGraphTest.java:850-870 | calling through a dotted name, directly or as `q.call`/`q.apply`, aliases only what the arguments alias |
| Escape.CallOrApplyExposes | tools/closure-compiler/trunk/test/com/google/javascript/jscomp/CallGraphTest.java:927-947 | `q.call(…)` and `q.apply(…)` expose `q` to call/apply |
| Escape.PlainCallDoesNotExpose | tools/closure-compiler/trunk/test/com/google/javascript/jscomp/CallGraphTest.java:927-947 | a plain call through a dotted name (`C()`) exposes nothing beyond what its arguments expose |
| Escape.VarInitializerAliases | tools/closure-compiler/trunk/test/com/google/javascript/jscomp/CallGraphTest.java:832-850 | `var aliasA = A;` aliases `A`, and `var aliasB = ns.B;` aliases `ns.B` |
| Escape.AssignmentAliases | tools/closure-compiler/trunk/test/com/google/javascript/jscomp/CallGraphTest.java:853-872 | an assignment `aliasA = A` or `aliasB.foo = ns.B` aliases its right-hand side |
| Escape.EscapingInStmts | tools/closure-compiler/trunk/test/com/google/javascript/jscomp/CallGraphTest.java:832-926 | the dotted names used as values anywhere in the program; which positions capture is stated by the aliasing lemmas above |
| Escape.ExposedInStmts | tools/closure-compiler/trunk/test/com/google/javascript/jscomp/CallGraphTest.java:927-947 | the dotted names invoked through `.call`/`.apply` anywhere in the program; stated by `CallOrApplyExposes` and `PlainCallDoesNotExpose` |
| Escape.ArgumentAliases | tools/closure-compiler/trunk/test/com/google/javascript/jscomp/CallGraphTest.java:872-926 | a dotted name passed as an argument is aliased |
| Escape.StmtAliasesInList | tools/closure-compiler/trunk/test/com/google/javascript/jscomp/CallGraphTest.java:832-947 | whatever one statement aliases or exposes, the program containing it aliases or exposes |
| CallGraphs.Build | tools/closure-compiler/trunk/test/com/google/javascript/jscomp/CallGraphTest.java:69-172 | builds the graph: one function per body, as many call sites as the bodies have own invocations, and the capabilities as chosen; its contents are stated by the `Build…` lemmas below |
| CallGraphs.BuildRegistry | tools/closure-compiler/trunk/test/com/google/javascript/jscomp/CallGraphTest.java:69-172 | the registry holds FUNCTION nodes + 1 entries. Entry 0 is main: its AST node and its body node are the global block, it is named `{main}`, and it is neither aliased nor exposed. Every other entry is a literal, in pre-order: not main, with its FUNCTION node, its body block and its name |
| CallGraphs.BuildNodeTokens | tools/closure-compiler/trunk/test/com/google/javascript/jscomp/CallGraphTest.java:674-712 | main's AST node is a BLOCK and is its own body node; every other function's AST node is a FUNCTION and its body node is a BLOCK |
| CallGraphs.BuildDeclaredName | tools/closure-compiler/trunk/test/com/google/javascript/jscomp/CallGraphTest.java:95-107 | a global `function A(){}` gets an entry, not main, with its FUNCTION node and the name A |
| CallGraphs.BuildVarAssignedName | tools/closure-compiler/trunk/test/com/google/javascript/jscomp/CallGraphTest.java:109-122 | a global `var A = function(){}` gets an entry, not main, with the literal's FUNCTION node and the name A |
| CallGraphs.BuildNamespaceAssignedName | tools/closure-compiler/trunk/test/com/google/javascript/jscomp/CallGraphTest.java:124-139 | a global `namespace.A = function(){}` gets an entry, not main, with the literal's FUNCTION node and the name `namespace.A` |
| CallGraphs.BuildNames | tools/closure-compiler/trunk/test/com/google/javascript/jscomp/CallGraphTest.java:656-730 | only entry 0 is main and carries the main name; every other entry carries the name its literal is filed under |
| CallGraphs.BuildEscapes | tools/closure-compiler/trunk/test/com/google/javascript/jscomp/CallGraphTest.java:832-947 | a function is aliased (exposed) exactly when it is not main, is named, and its name is used as a value (invoked through call/apply) somewhere in the program |
| CallGraphs.BuildCallsiteOfFunction | tools/closure-compiler/trunk/test/com/google/javascript/jscomp/CallGraphTest.java:732-762 | the k-th call site a function lists is the k-th CALL/NEW node of its own body: same node, kind and target, and it names that function as container |
| CallGraphs.BuildCallsitesInFunction | tools/closure-compiler/trunk/test/com/google/javascript/jscomp/CallGraphTest.java:190-259 | a function's call sites are exactly the CALL and NEW nodes of its own scope, nested literals excluded, in source order (`new x()` included) |
| CallGraphs.CallsiteInBody | tools/closure-compiler/trunk/test/com/google/javascript/jscomp/CallGraphTest.java:949-977 | every call site is one invocation of the own body of its containing function: the same node, kind and target |
| CallGraphs.BuildAllCallsites | tools/closure-compiler/trunk/test/com/google/javascript/jscomp/CallGraphTest.java:308-380 | the graph has as many call sites as the program has CALL/NEW nodes |
| CallGraphs.BuildResolution | tools/closure-compiler/trunk/test/com/google/javascript/jscomp/CallGraphTest.java:261-306 | a call site's known targets are exactly the non-main functions carrying its dotted name. It has an extern target exactly when the externs declare the name. It has an unknown target exactly when the target is not a dotted name, the name is value-bound, or the name has no function and no extern |
| CallGraphs.Targeting | tools/closure-compiler/trunk/test/com/google/javascript/jscomp/CallGraphTest.java:775-818 | files every call site under each of its known targets; its meaning is `TargetingInverse` |
| CallGraphs.TargetingInverse | tools/closure-compiler/trunk/test/com/google/javascript/jscomp/CallGraphTest.java:775-818 | a call site is filed under function f exactly when f is one of its known targets |
| CallGraphs.BuildTargetingInverse | tools/closure-compiler/trunk/test/com/google/javascript/jscomp/CallGraphTest.java:775-818 | in a built graph, the call sites filed under f are exactly those whose known targets contain f |
| CallGraphs.BuildWellFormed | tools/closure-compiler/trunk/test/com/google/javascript/jscomp/CallGraphTest.java:962-977 | every built graph has one main, at index 0. A call site is listed by exactly the function containing it. Every index is in range, and the targeting relation is the inverse of the known targets |
| CallGraphs.MainFunction | tools/closure-compiler/trunk/test/com/google/javascript/jscomp/CallGraphTest.java:656-672 | the main function is the one function with `isMain` |
| CallGraphs.FunctionsWithName | tools/closure-compiler/trunk/test/com/google/javascript/jscomp/CallGraphTest.java:95-107 | lists exactly the functions carrying a name, in registry order |
| CallGraphs.UniqueFunctionWithName | tools/closure-compiler/trunk/test/com/google/javascript/jscomp/CallGraphTest.java:95-107 | when one function carries the name, returns that one function |
| CallGraphs.FunctionsWithNameSingle | tools/closure-compiler/trunk/test/com/google/javascript/jscomp/CallGraphTest.java:95-107 | when exactly entry i carries a name, the functions with that name are [i] |
| CallGraphs.FunctionForAstNode | tools/closure-compiler/trunk/test/com/google/javascript/jscomp/CallGraphTest.java:57-67 | finds a function whose AST node is the given one, or reports that none has it |
| CallGraphs.FunctionForAstNodeRoundTrip | tools/closure-compiler/trunk/test/com/google/javascript/jscomp/CallGraphTest.java:57-67 | looking a function up by its own AST node gives that function back |
| CallGraphs.CallsiteForAstNode | tools/closure-compiler/trunk/test/com/google/javascript/jscomp/CallGraphTest.java:174-188 | finds a call site whose AST node is the given one, or reports that none has it |
| CallGraphs.CallsiteForAstNodeRoundTrip | tools/closure-compiler/trunk/test/com/google/javascript/jscomp/CallGraphTest.java:174-188 | looking a call site up by its own AST node gives that call site back |
| CallGraphs.ForwardEdges | tools/closure-compiler/trunk/test/com/google/javascript/jscomp/CallGraphTest.java:508-583 | one caller→callee edge per call site and known target; its meaning is `ForwardEdgesIff` |
| CallGraphs.ForwardEdgesIff | tools/closure-compiler/trunk/test/com/google/javascript/jscomp/CallGraphTest.java:508-583 | the caller→callee edge list holds an edge labelled c from f to t exactly when c belongs to f and t is a known target of c |
| CallGraphs.BackwardEdges | tools/closure-compiler/trunk/test/com/google/javascript/jscomp/CallGraphTest.java:386-446 | one callee→caller edge per function and call site filed under it; its meaning is `BackwardEdgesIff` |
| CallGraphs.BackwardEdgesIff | tools/closure-compiler/trunk/test/com/google/javascript/jscomp/CallGraphTest.java:386-446 | the callee→caller edge list holds an edge labelled c from t to f exactly when c is filed under t and belongs to f |
| CallGraphs.ForwardDirectedGraph | tools/closure-compiler/trunk/test/com/google/javascript/jscomp/CallGraphTest.java:508-583 | the caller→callee view over all functions, with the edges above |
| CallGraphs.BackwardDirectedGraph | tools/closure-compiler/trunk/test/com/google/javascript/jscomp/CallGraphTest.java:386-446 | the callee→caller view over all functions, with the edges above |
| CallGraphs.DirectedGraphsMirror | tools/closure-compiler/trunk/test/com/google/javascript/jscomp/CallGraphTest.java:447-507 | the backward view is the forward view with every edge reversed, in both directions, and all endpoints are functions of the graph |
| CallGraphs.ForwardEdgeReversed | tools/closure-compiler/trunk/test/com/google/javascript/jscomp/CallGraphTest.java:447-507 | every forward edge, reversed, is a backward edge |
| CallGraphs.ForwardEdgeByName | tools/closure-compiler/trunk/test/com/google/javascript/jscomp/CallGraphTest.java:508-583 | a forward edge labelled c from f to t exists exactly when c is one of f's own call sites and calls through a dotted name that t (not main) carries |
| CallGraphs.ForwardEdgeByCalledName | tools/closure-compiler/trunk/test/com/google/javascript/jscomp/CallGraphTest.java:584-654 | some forward edge leads from f to t exactly when t is not main and carries a name that f's own body calls through |
| CallGraphs.BackwardEdgeHasCalledName | tools/closure-compiler/trunk/test/com/google/javascript/jscomp/CallGraphTest.java:447-507 | a backward edge from t to f means that t (not main) carries a name f's own body calls through |
| CallGraphs.CalleeNames | tools/closure-compiler/trunk/test/com/google/javascript/jscomp/CallGraphTest.java:732-762 | the names a list of call sites calls through are exactly the dotted names of their targets |
| CallGraphs.PossibleTargets | tools/closure-compiler/trunk/test/com/google/javascript/jscomp/CallGraphTest.java:1079-1101 | fails with UnsupportedOperation exactly when the graph lacks the forward capability; otherwise gives exactly the destinations of the call site's forward edges |
| CallGraphs.CallsitesPossiblyTargetingFunction | tools/closure-compiler/trunk/test/com/google/javascript/jscomp/CallGraphTest.java:1057-1077 | fails with UnsupportedOperation exactly when the graph lacks the backward capability; otherwise gives exactly the call sites with f among their known targets |
| CallGraphs.DirectedGraphsIgnoreCapabilities | tools/closure-compiler/trunk/test/com/google/javascript/jscomp/CallGraphTest.java:584-654 | both views of a program come out the same whatever the capabilities chosen |
| FixedPoint.Step | tools/closure-compiler/trunk/test/com/google/javascript/jscomp/CallGraphTest.java:428-429 | one round of propagation keeps the set, adds only edge destinations, and adds the destination of every edge leaving the set |
| FixedPoint.ClosureContainsSeed | tools/closure-compiler/trunk/test/com/google/javascript/jscomp/CallGraphTest.java:428-429 | propagation to a fixed point never loses a seed |
| FixedPoint.ClosureIsClosed | tools/closure-compiler/trunk/test/com/google/javascript/jscomp/CallGraphTest.java:428-429 | at the fixed point, no edge leads from inside the set to outside it |
| FixedPoint.ClosureIsLeast | tools/closure-compiler/trunk/test/com/google/javascript/jscomp/CallGraphTest.java:428-429 | the fixed point lies inside every closed superset of the seed |
| FixedPoint.ClosureOfClosed | tools/closure-compiler/trunk/test/com/google/javascript/jscomp/CallGraphTest.java:428-429 | propagation from a closed set adds nothing |
| FixedPoint.PropagationCallback.constructor | tools/closure-compiler/trunk/test/com/google/javascript/jscomp/CallGraphTest.java:402 | the set starts as the given seed |
| FixedPoint.PropagationCallback.Add | tools/closure-compiler/trunk/test/com/google/javascript/jscomp/CallGraphTest.java:419 | adds a function and reports whether it was new, as `Set.add` does |
| FixedPoint.PropagationCallback.TraverseEdge | tools/closure-compiler/trunk/test/com/google/javascript/jscomp/CallGraphTest.java:412-427 | reports a change exactly when the source is in the set and the destination was not; adds the destination exactly when the source is in the set (the same callback serves both directions, 534-549) |
| FixedPoint.TraverseEdges | tools/closure-compiler/trunk/test/com/google/javascript/jscomp/CallGraphTest.java:428-429 | one pass over all edges. The set only grows and stays under any closed bound. A change is reported exactly when the set grew, and a pass that reports none leaves a closed set |
| FixedPoint.ComputeFixedPoint | tools/closure-compiler/trunk/test/com/google/javascript/jscomp/CallGraphTest.java:428-429 | passes until one reports no change; the set then holds the closure of what it held before |
| CallGraphTests.CallGraphFixture.constructor | tools/closure-compiler/trunk/test/com/google/javascript/jscomp/CallGraphTest.java:38-41 | the fixture starts with no capabilities and no graph |
| CallGraphTests.CallGraphFixture.RunPass | tools/closure-compiler/trunk/test/com/google/javascript/jscomp/CallGraphTest.java:43-50 | builds the graph with the capabilities the fields hold and keeps it |
| CallGraphTests.CallGraphFixture.CompileAndRun | tools/closure-compiler/trunk/test/com/google/javascript/jscomp/CallGraphTest.java:1145-1156 | records the capabilities, then returns the graph of the program built with them |
| CallGraphTests.CallGraphFixture.CompileAndRunForward | tools/closure-compiler/trunk/test/com/google/javascript/jscomp/CallGraphTest.java:1141-1143 | a forward-only graph against the shared externs |
| CallGraphTests.CallGraphFixture.CompileAndRunBackward | tools/closure-compiler/trunk/test/com/google/javascript/jscomp/CallGraphTest.java:1137-1139 | a backward-only graph against the shared externs |
| CallGraphTests.ExternCallers | tools/closure-compiler/trunk/test/com/google/javascript/jscomp/CallGraphTest.java:402-409 | the containers of the call sites with an extern target: the poisoning seed; characterised by `ExternCallersByName` |
| CallGraphTests.ExternCallersByName | tools/closure-compiler/trunk/test/com/google/javascript/jscomp/CallGraphTest.java:404-409 | the functions with an extern-target call site are exactly those whose own body calls through a name the externs declare |
| CallGraphTests.PoisonSeeds | tools/closure-compiler/trunk/test/com/google/javascript/jscomp/CallGraphTest.java:402-409 | the seeding loop collects exactly the containers of the call sites with an extern target |
| CallGraphTests.PoisonedFunctions | tools/closure-compiler/trunk/test/com/google/javascript/jscomp/CallGraphTest.java:400-432 | poisoning yields the closure of the extern callers over the backward view |
| CallGraphTests.ReachableFunctions | tools/closure-compiler/trunk/test/com/google/javascript/jscomp/CallGraphTest.java:524-554 | reachability yields the closure of {main, root} over the forward view |
| CallGraphTests.CallsiteTargetNames | tools/closure-compiler/trunk/test/com/google/javascript/jscomp/CallGraphTest.java:1114-1129 | succeeds exactly when every given call site calls a simple NAME; it then returns those names in order, one per call site. Otherwise it fails with IllegalState |
| CallGraphScenarios.BuildNameGraph | tools/closure-compiler/trunk/test/com/google/javascript/jscomp/CallGraphTest.java:386-654 | a built graph matches its program's name description: the names, a forward edge exactly where a body calls a name, and the extern callers |
| CallGraphScenarios.UniqueName | tools/closure-compiler/trunk/test/com/google/javascript/jscomp/CallGraphTest.java:436-444 | with distinct names, `getUniqueFunctionWithName` of an entry's name is that entry |
| CallGraphScenarios.FlatProgramTables | tools/closure-compiler/trunk/test/com/google/javascript/jscomp/CallGraphTest.java:392-398 | a program of declarations of plain calls, followed by plain calls, has main plus the declared names, and each body calls exactly its callees' names |
| CallGraphScenarios.PoisonProgramShape | tools/closure-compiler/trunk/test/com/google/javascript/jscomp/CallGraphTest.java:392-398 | the poisoning source has main, then A to E, with the calls the source shows |
| CallGraphScenarios.PoisoningOfNameGraph | tools/closure-compiler/trunk/test/com/google/javascript/jscomp/CallGraphTest.java:428-432 | on that program, poisoning from the extern callers reaches exactly the entries of B, C and E |
| CallGraphScenarios.PoisoningResult | tools/closure-compiler/trunk/test/com/google/javascript/jscomp/CallGraphTest.java:434-444 | three functions are poisoned, among them the unique functions named B, C and E |
| CallGraphScenarios.PoisoningTest | tools/closure-compiler/trunk/test/com/google/javascript/jscomp/CallGraphTest.java:386-506 | the poisoning test, on the forward-only or the backward-only graph, gives the same three functions |
| CallGraphScenarios.ReachProgramShape | tools/closure-compiler/trunk/test/com/google/javascript/jscomp/CallGraphTest.java:513-522 | the reachability source has main, then A to E and X to Z, with the calls the source shows |
| CallGraphScenarios.ReachabilityOfNameGraph | tools/closure-compiler/trunk/test/com/google/javascript/jscomp/CallGraphTest.java:550-554 | forward propagation from main and X reaches exactly main, B, C, D, X, Y and Z |
| CallGraphScenarios.ReachabilityResult | tools/closure-compiler/trunk/test/com/google/javascript/jscomp/CallGraphTest.java:556-582 | seven functions are reached, among them main and the unique B, C, D, X, Y and Z; A and E are not |
| CallGraphScenarios.ReachabilityTest | tools/closure-compiler/trunk/test/com/google/javascript/jscomp/CallGraphTest.java:508-654 | the reachability test, on the forward-only or the backward-only graph, gives the same seven functions |
| CallGraphCases.MultipleCallsites | tools/closure-compiler/trunk/test/com/google/javascript/jscomp/CallGraphTest.java:308-322 | the program with a nested anonymous literal has exactly four call sites |
| CallGraphCases.TargetProgramShape | tools/closure-compiler/trunk/test/com/google/javascript/jscomp/CallGraphTest.java:776-780 | the source has main, A, B and C; main calls A, A calls B, B calls C twice and C calls C |
| CallGraphCases.TargetGraphOfBuild | tools/closure-compiler/trunk/test/com/google/javascript/jscomp/CallGraphTest.java:775-818 | in every graph of that program, each call site targets exactly the function its call names |
| CallGraphCases.CallsitesPossiblyTargetingTest | tools/closure-compiler/trunk/test/com/google/javascript/jscomp/CallGraphTest.java:775-818 | nothing targets main, only main's call site targets A, only A's targets B, and the call sites targeting C are exactly the three of B and C |
| CallGraphCases.BackwardOpOnForwardGraph | tools/closure-compiler/trunk/test/com/google/javascript/jscomp/CallGraphTest.java:1057-1077 | on a graph without the backward capability, asking which call sites target A fails with UnsupportedOperation |

## Left out

- Parsing. The test's JavaScript sources are written out as syntax trees: `PoisonProgram`, `ReachProgram`, `MultipleProgram` and `TargetProgram`. Empty statements (the stray `;`) are dropped. The JUnit and `CompilerTestCase` harness, `testSame` and the compiler pipeline are not modelled.
- The rest of the syntax. Only the node kinds listed under `ast.dfy` exist. Other statements, parameters, scoping and shadowing are left out. A node's identity is its `node` number, and the lookup round trips require the numbers to be distinct (`DistinctNodes`).
- Externs. They are not parsed. They are the set of names the shared externs declare: `ExternalFunction`, `externalnamespace` and `externalnamespace.prop`.
- `MAIN_FUNCTION_NAME`. Its value is defined in `CallGraph.java`, which is not part of this model. The model uses `{main}`, which no JavaScript identifier can equal.
- The traversal library. `FixedPointGraphTraversal` is not part of this model. `ComputeFixedPoint` makes whole passes over the edge list until one pass changes nothing. The library's own scheduling and iteration order are not modelled; only the fixed point reached is.
- Hash sets. Their identity and iteration order are not modelled: the model uses Dafny sets and sequences. Call sites keep their source order.
- Names.ResolveExclusive: the exactly-one outcome holds only for a name defined in one way. The model lets every definition of a name contribute its own outcome, so a name that is both a program function and value-bound, or both a function and an extern, sets two of them (`ResolveMixedDefinitions`). No test defines a name in two ways, and the pass's own source, which would fix a precedence, is not part of this model.
- Discovery.LiteralsCountStmts: states a count. It does not state, as a multiset of node labels, that the literals found are the program's FUNCTION nodes each taken once; the walk and the count are over the same tree, and the tests assert only sizes.
- Discovery.InvocationSplitStmts: states a count of CALL/NEW nodes, not a multiset of their labels.
- CallGraphs.BuildAllCallsites: states a count of call sites, not that their node labels are the program's CALL/NEW nodes each taken once.
- CallGraphs.UniqueFunctionWithName: requires that exactly one function carries the name. The source's behaviour for a name bound to several literals, or to none, is not shown, so the model has no policy for it.
- Callee shapes other than a dotted name (`a[i]()`, `f()()`, `(function(){})()`) resolve to unknown; the tests only show that such call sites exist.
- `assertFunctionAliased` (1131-1135) is a one-line assertion helper; what it checks is `BuildEscapes`.
- The scenario results (`PoisoningTest`, `ReachabilityTest`, `CallsitesPossiblyTargetingTest`) are stated for every program with the given name description. The `...ProgramShape` lemmas show that the test's own source has it.
