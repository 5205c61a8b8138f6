/**
 * The call graph of a program, built once and then only queried: the
 * function registry (with the synthetic main function first), the call
 * sites of every function, each call site's resolved targets, the inverse
 * "call sites possibly targeting a function" relation, and the two directed
 * views over functions whose edges are labelled by call sites.
 *
 * Functions and call sites live in two arenas and refer to each other by
 * index.
 */
module CallGraphs {
  import opened Wrappers
  import opened Ast
  import opened Discovery
  import opened Names
  import opened Escape

  /** The name of the main function; no JavaScript identifier can take it. */
  const MainFunctionName: string := "{main}"

  /** The tree nodes a Function refers to: the global BLOCK, a FUNCTION node, the BLOCK of its body. */
  datatype AstNode = GlobalBlock | FunctionNode(id: nat) | FunctionBody(id: nat)

  function NodeToken(n: AstNode): Token {
    if n.FunctionNode? then FUNCTION else BLOCK
  }

  datatype Function = Function(
    astNode: AstNode,
    bodyNode: AstNode,
    name: Option<string>,
    isMain: bool,
    isAliased: bool,
    isExposedToCallOrApply: bool,
    callsitesInFunction: seq<nat>)

  datatype Callsite = Callsite(
    astNode: nat,
    kind: InvokeKind,
    target: Expr,
    containingFunction: nat,
    hasUnknownTarget: bool,
    hasExternTarget: bool,
    knownTargets: seq<nat>)

  /**
   * `targeting[f]` lists the call sites whose known targets include f.
   * `forward` and `backward` are the capabilities chosen at construction.
   */
  datatype CallGraph = CallGraph(
    functions: seq<Function>,
    callsites: seq<Callsite>,
    targeting: seq<seq<nat>>,
    forward: bool,
    backward: bool)

  /** The failure raised by a query the graph was not built to answer. */
  datatype Unsupported = UnsupportedOperation

  /**
   * The structure every built call graph has: main is function 0 and the only
   * main; every index is in range; a call site is listed by exactly the
   * function containing it; `targeting` is the inverse of the known targets.
   */
  ghost predicate WellFormed(g: CallGraph) {
    && |g.functions| > 0
    && (forall f :: 0 <= f < |g.functions| ==> (g.functions[f].isMain <==> f == 0))
    && |g.targeting| == |g.functions|
    && (forall c :: 0 <= c < |g.callsites| ==> g.callsites[c].containingFunction < |g.functions|)
    && (forall c, k :: 0 <= c < |g.callsites| && 0 <= k < |g.callsites[c].knownTargets| ==>
          g.callsites[c].knownTargets[k] < |g.functions|)
    && (forall f, k :: 0 <= f < |g.functions| && 0 <= k < |g.functions[f].callsitesInFunction| ==>
          g.functions[f].callsitesInFunction[k] < |g.callsites| &&
          g.callsites[g.functions[f].callsitesInFunction[k]].containingFunction == f)
    && (forall c :: 0 <= c < |g.callsites| ==>
          c in g.functions[g.callsites[c].containingFunction].callsitesInFunction)
    && (forall f, k :: 0 <= f < |g.functions| && 0 <= k < |g.targeting[f]| ==>
          g.targeting[f][k] < |g.callsites| && f in g.callsites[g.targeting[f][k]].knownTargets)
    && (forall c, f :: 0 <= c < |g.callsites| && f in g.callsites[c].knownTargets ==>
          f < |g.functions| && c in g.targeting[f])
  }

  // ----- construction -----

  /** The body of every registry entry: the global statements, then each literal's body. */
  function Bodies(p: Program): (r: seq<seq<Stmt>>)
    ensures |r| == |LiteralsInStmts(p.stmts)| + 1
    ensures r[0] == p.stmts
    ensures forall i :: 1 <= i < |r| ==> r[i] == LiteralsInStmts(p.stmts)[i - 1].body
  {
    [p.stmts] + LiteralBodies(LiteralsInStmts(p.stmts))
  }

  /** The name of every registry entry as filed in the name index; main is not filed. */
  function IndexedNames(p: Program): (r: seq<Option<string>>)
    ensures |r| == |LiteralsInStmts(p.stmts)| + 1
    ensures r[0] == None
    ensures forall i :: 1 <= i < |r| ==> r[i] == LiteralsInStmts(p.stmts)[i - 1].name
  {
    var lits := LiteralsInStmts(p.stmts);
    [None] + seq(|lits|, i requires 0 <= i < |lits| => lits[i].name)
  }

  function Index(p: Program, externs: set<string>): NameIndex {
    NameIndex(IndexFunctions(IndexedNames(p)), ValueBoundInStmts(p.stmts), externs)
  }

  function Range(start: nat, count: nat): (r: seq<nat>)
    ensures |r| == count
    ensures forall k :: 0 <= k < count ==> r[k] == start + k
  {
    seq(count, k requires 0 <= k < count => start + k)
  }

  function MakeFunction(p: Program, i: nat): (r: Function)
    requires i < |Bodies(p)|
    ensures r.callsitesInFunction == Range(Offset(Bodies(p), i), |SitesInStmts(Bodies(p)[i])|)
  {
    var bodies := Bodies(p);
    var callsites := Range(Offset(bodies, i), |SitesInStmts(bodies[i])|);
    if i == 0 then
      Function(GlobalBlock, GlobalBlock, Some(MainFunctionName), true, false, false, callsites)
    else
      var l := LiteralsInStmts(p.stmts)[i - 1];
      Function(FunctionNode(l.node), FunctionBody(l.node), l.name, false,
               l.name.Some? && l.name.value in EscapingInStmts(p.stmts),
               l.name.Some? && l.name.value in ExposedInStmts(p.stmts),
               callsites)
  }

  function MakeCallsite(pl: Placed, idx: NameIndex): (r: Callsite)
    ensures r.astNode == pl.site.node && r.kind == pl.site.kind && r.target == pl.site.callee
    ensures r.containingFunction == pl.owner
  {
    var r := Resolve(idx, pl.site.callee);
    Callsite(pl.site.node, pl.site.kind, pl.site.callee, pl.owner, r.hasUnknownTarget, r.hasExternTarget, r.knownTargets)
  }

  /** Adds call site c to the list of each of its targets. */
  function AddTargeting(idx: seq<seq<nat>>, c: nat, targets: seq<nat>): (r: seq<seq<nat>>)
    ensures |r| == |idx|
    decreases |targets|
  {
    if targets == [] then idx
    else
      var t := targets[0];
      AddTargeting(if t < |idx| then idx[t := idx[t] + [c]] else idx, c, targets[1..])
  }

  /** The call sites possibly targeting each of n functions, filled call site by call site. */
  function Targeting(cs: seq<Callsite>, n: nat): (r: seq<seq<nat>>)
    ensures |r| == n
    decreases |cs|
  {
    if cs == [] then seq(n, _ => [])
    else
      var m := |cs| - 1;
      AddTargeting(Targeting(cs[..m], n), m, cs[m].knownTargets)
  }

  function Functions(p: Program): (r: seq<Function>)
    ensures |r| == |Bodies(p)|
    ensures forall i :: 0 <= i < |r| ==> r[i] == MakeFunction(p, i)
  {
    var n := |Bodies(p)|;
    seq(n, i requires 0 <= i < n => MakeFunction(p, i))
  }

  function Callsites(p: Program, externs: set<string>): (r: seq<Callsite>)
    ensures |r| == |Arena(Bodies(p))|
    ensures forall c :: 0 <= c < |r| ==> r[c] == MakeCallsite(Arena(Bodies(p))[c], Index(p, externs))
  {
    var arena := Arena(Bodies(p));
    var idx := Index(p, externs);
    seq(|arena|, c requires 0 <= c < |arena| => MakeCallsite(arena[c], idx))
  }

  /**
   * Builds the call graph of a program against the names the externs declare:
   * one function per body, one call site per own invocation of every body,
   * the capabilities as chosen.
   */
  function Build(p: Program, externs: set<string>, forward: bool, backward: bool): (g: CallGraph)
    ensures g.forward == forward && g.backward == backward
    ensures |g.functions| == |Bodies(p)| && |g.targeting| == |g.functions|
    ensures |g.callsites| == SiteTotal(Bodies(p))
  {
    ArenaSize(Bodies(p));
    var functions := Functions(p);
    var callsites := Callsites(p, externs);
    CallGraph(functions, callsites, Targeting(callsites, |functions|), forward, backward)
  }

  // ----- the inverse relation -----

  lemma {:induction false} AddTargetingCorrect(idx: seq<seq<nat>>, c: nat, targets: seq<nat>, f: nat, d: int)
    requires f < |idx|
    ensures d in AddTargeting(idx, c, targets)[f] <==> d in idx[f] || (d == c && f in targets)
    decreases |targets|
  {
    if targets != [] {
      var t := targets[0];
      var idx' := if t < |idx| then idx[t := idx[t] + [c]] else idx;
      AddTargetingCorrect(idx', c, targets[1..], f, d);
      assert targets == [t] + targets[1..];
    }
  }

  /** A call site is filed under f exactly when f is one of its known targets. */
  lemma {:induction false} TargetingInverse(cs: seq<Callsite>, n: nat, f: nat, c: int)
    requires f < n
    ensures c in Targeting(cs, n)[f] <==> 0 <= c < |cs| && f in cs[c].knownTargets
    decreases |cs|
  {
    if cs != [] {
      var m := |cs| - 1;
      TargetingInverse(cs[..m], n, f, c);
      AddTargetingCorrect(Targeting(cs[..m], n), m, cs[m].knownTargets, f, c);
      if 0 <= c < m {
        assert cs[..m][c] == cs[c];
      }
    }
  }

  // ----- facts about a built graph -----

  /** The registry: main first, then one Function per FUNCTION node, in pre-order. */
  lemma BuildRegistry(p: Program, externs: set<string>, forward: bool, backward: bool)
    ensures var g := Build(p, externs, forward, backward);
            var lits := LiteralsInStmts(p.stmts);
            && |g.functions| == FunctionNodeCountInStmts(p.stmts) + 1
            && g.functions[0].isMain
            && g.functions[0].astNode == GlobalBlock && g.functions[0].bodyNode == GlobalBlock
            && g.functions[0].name == Some(MainFunctionName)
            && !g.functions[0].isAliased && !g.functions[0].isExposedToCallOrApply
            && (forall i :: 1 <= i < |g.functions| ==>
                  && !g.functions[i].isMain
                  && g.functions[i].astNode == FunctionNode(lits[i - 1].node)
                  && g.functions[i].bodyNode == FunctionBody(lits[i - 1].node)
                  && g.functions[i].name == lits[i - 1].name)
  {
    LiteralsCountStmts(p.stmts);
  }

  /** The registry in terms of the names filed in the name index: main, then the literals' names. */
  lemma BuildNames(p: Program, externs: set<string>, forward: bool, backward: bool)
    ensures var g := Build(p, externs, forward, backward);
            && |g.functions| == |IndexedNames(p)|
            && g.functions[0].isMain && g.functions[0].name == Some(MainFunctionName)
            && (forall i :: 1 <= i < |g.functions| ==> !g.functions[i].isMain && g.functions[i].name == IndexedNames(p)[i])
  {
    BuildRegistry(p, externs, forward, backward);
    LiteralsCountStmts(p.stmts);
  }

  /** The node kinds a Function refers to: main's node and body are BLOCKs, a literal's node is its FUNCTION. */
  lemma BuildNodeTokens(p: Program, externs: set<string>, forward: bool, backward: bool)
    ensures var g := Build(p, externs, forward, backward);
            && NodeToken(g.functions[0].astNode) == BLOCK && g.functions[0].bodyNode == g.functions[0].astNode
            && (forall i :: 1 <= i < |g.functions| ==>
                  NodeToken(g.functions[i].astNode) == FUNCTION && NodeToken(g.functions[i].bodyNode) == BLOCK)
  {
    BuildRegistry(p, externs, forward, backward);
  }

  /** The registry entry of the literal statement j of the global code introduces first. */
  function TopLevelEntry(p: Program, j: nat): nat
    requires j <= |p.stmts|
  {
    1 + |LiteralsInStmts(p.stmts[..j])|
  }

  /** `function a(){…}` in the global code is registered under its own name a. */
  lemma BuildDeclaredName(p: Program, externs: set<string>, forward: bool, backward: bool, j: nat)
    requires j < |p.stmts| && p.stmts[j].FuncDecl? && p.stmts[j].name != ""
    ensures var g := Build(p, externs, forward, backward);
            var i := TopLevelEntry(p, j);
            && i < |g.functions| && !g.functions[i].isMain
            && g.functions[i].astNode == FunctionNode(p.stmts[j].node)
            && g.functions[i].name == Some(p.stmts[j].name)
  {
    StatementLiteral(p.stmts[j]);
    FirstLiteralOfStmt(p.stmts, j);
    BuildRegistry(p, externs, forward, backward);
    LiteralsCountStmts(p.stmts);
  }

  /** `var x = function…` in the global code is registered under x, whatever the literal's own name. */
  lemma BuildVarAssignedName(p: Program, externs: set<string>, forward: bool, backward: bool, j: nat)
    requires j < |p.stmts| && p.stmts[j].Var? && p.stmts[j].init.Some? && p.stmts[j].init.value.Func?
    ensures var g := Build(p, externs, forward, backward);
            var i := TopLevelEntry(p, j);
            && i < |g.functions| && !g.functions[i].isMain
            && g.functions[i].astNode == FunctionNode(p.stmts[j].init.value.node)
            && g.functions[i].name == Some(p.stmts[j].name)
  {
    StatementLiteral(p.stmts[j]);
    FirstLiteralOfStmt(p.stmts, j);
    BuildRegistry(p, externs, forward, backward);
    LiteralsCountStmts(p.stmts);
  }

  /** `q = function…` for a dotted name q (`namespace.A = function…`) is registered under q. */
  lemma BuildNamespaceAssignedName(p: Program, externs: set<string>, forward: bool, backward: bool, j: nat)
    requires j < |p.stmts| && p.stmts[j].ExprStmt? && p.stmts[j].expr.Assign? && p.stmts[j].expr.rhs.Func?
    requires QualifiedName(p.stmts[j].expr.lhs).Some?
    ensures var g := Build(p, externs, forward, backward);
            var i := TopLevelEntry(p, j);
            && i < |g.functions| && !g.functions[i].isMain
            && g.functions[i].astNode == FunctionNode(p.stmts[j].expr.rhs.node)
            && g.functions[i].name == QualifiedName(p.stmts[j].expr.lhs)
  {
    StatementLiteral(p.stmts[j]);
    FirstLiteralOfStmt(p.stmts, j);
    BuildRegistry(p, externs, forward, backward);
    LiteralsCountStmts(p.stmts);
  }

  /** Which functions are aliased and which are exposed to call or apply. */
  lemma BuildEscapes(p: Program, externs: set<string>, forward: bool, backward: bool, i: nat)
    requires i < |Build(p, externs, forward, backward).functions|
    ensures var f := Build(p, externs, forward, backward).functions[i];
            && (f.isAliased <==> !f.isMain && f.name.Some? && f.name.value in EscapingInStmts(p.stmts))
            && (f.isExposedToCallOrApply <==> !f.isMain && f.name.Some? && f.name.value in ExposedInStmts(p.stmts))
  {
  }

  /** Call site k of body i is entry Offset(i) + k of the call site arena, owned by function i. */
  lemma CallsiteOfBody(p: Program, externs: set<string>, i: nat, k: nat)
    requires i < |Bodies(p)| && k < |SitesInStmts(Bodies(p)[i])|
    ensures var c := Offset(Bodies(p), i) + k;
            var site := SitesInStmts(Bodies(p)[i])[k];
            && c < |Callsites(p, externs)|
            && Callsites(p, externs)[c].containingFunction == i
            && Callsites(p, externs)[c].astNode == site.node
            && Callsites(p, externs)[c].kind == site.kind
            && Callsites(p, externs)[c].target == site.callee
  {
    ArenaAt(Bodies(p), i, k);
  }

  /** Every call site is one invocation of its containing function's own body. */
  lemma CallsiteInBody(p: Program, externs: set<string>, c: nat)
    requires c < |Callsites(p, externs)|
    ensures var cs := Callsites(p, externs)[c];
            && cs.containingFunction < |Bodies(p)|
            && exists k :: 0 <= k < |SitesInStmts(Bodies(p)[cs.containingFunction])| &&
                 var site := SitesInStmts(Bodies(p)[cs.containingFunction])[k];
                 cs.astNode == site.node && cs.kind == site.kind && cs.target == site.callee
  {
    var bodies := Bodies(p);
    ArenaOwner(bodies, c);
    var o := Arena(bodies)[c].owner;
    var k := c - Offset(bodies, o);
    CallsiteOfBody(p, externs, o, k);
    assert Offset(bodies, o) + k == c;
  }

  lemma FunctionCallsites(p: Program, i: nat)
    requires i < |Bodies(p)|
    ensures var fs := Functions(p);
            i < |fs| &&
            fs[i].callsitesInFunction == Range(Offset(Bodies(p), i), |SitesInStmts(Bodies(p)[i])|)
  {
  }

  /** A built graph is made of the function registry and the call site arena. */
  lemma BuildParts(p: Program, externs: set<string>, forward: bool, backward: bool)
    ensures var g := Build(p, externs, forward, backward);
            g.functions == Functions(p) && g.callsites == Callsites(p, externs)
  {
  }

  /** The k-th call site function i lists, in terms of the registry and the arena. */
  lemma FunctionCallsiteAt(p: Program, externs: set<string>, i: nat, k: nat)
    requires i < |Bodies(p)| && k < |SitesInStmts(Bodies(p)[i])|
    ensures var fs := Functions(p);
            var cs := Callsites(p, externs);
            var mine := fs[i].callsitesInFunction;
            var site := SitesInStmts(Bodies(p)[i])[k];
            && k < |mine| && mine[k] < |cs|
            && cs[mine[k]].containingFunction == i
            && cs[mine[k]].astNode == site.node
            && cs[mine[k]].kind == site.kind
            && cs[mine[k]].target == site.callee
  {
    FunctionCallsites(p, i);
    CallsiteOfBody(p, externs, i, k);
  }

  /** The k-th call site function i lists is the k-th invocation of its own body. */
  lemma BuildCallsiteOfFunction(p: Program, externs: set<string>, forward: bool, backward: bool, i: nat, k: nat)
    requires i < |Bodies(p)| && k < |SitesInStmts(Bodies(p)[i])|
    ensures var g := Build(p, externs, forward, backward);
            var site := SitesInStmts(Bodies(p)[i])[k];
            var mine := g.functions[i].callsitesInFunction;
            && k < |mine| && mine[k] < |g.callsites|
            && g.callsites[mine[k]].containingFunction == i
            && g.callsites[mine[k]].astNode == site.node
            && g.callsites[mine[k]].kind == site.kind
            && g.callsites[mine[k]].target == site.callee
  {
    BuildParts(p, externs, forward, backward);
    FunctionCallsiteAt(p, externs, i, k);
  }

  /**
   * The call sites of function i are the CALL and NEW nodes of its own body,
   * nested literals excluded, in source order, and each names i as its
   * containing function.
   */
  lemma BuildCallsitesInFunction(p: Program, externs: set<string>, forward: bool, backward: bool, i: nat)
    requires i < |Build(p, externs, forward, backward).functions|
    ensures var g := Build(p, externs, forward, backward);
            var sites := SitesInStmts(Bodies(p)[i]);
            var mine := g.functions[i].callsitesInFunction;
            && |mine| == |sites|
            && forall k :: 0 <= k < |mine| ==>
                 && mine[k] < |g.callsites|
                 && g.callsites[mine[k]].containingFunction == i
                 && g.callsites[mine[k]].astNode == sites[k].node
                 && g.callsites[mine[k]].kind == sites[k].kind
                 && g.callsites[mine[k]].target == sites[k].callee
  {
    var g := Build(p, externs, forward, backward);
    var sites := SitesInStmts(Bodies(p)[i]);
    var mine := g.functions[i].callsitesInFunction;
    assert |mine| == |sites|;
    forall k | 0 <= k < |mine|
      ensures && mine[k] < |g.callsites|
              && g.callsites[mine[k]].containingFunction == i
              && g.callsites[mine[k]].astNode == sites[k].node
              && g.callsites[mine[k]].kind == sites[k].kind
              && g.callsites[mine[k]].target == sites[k].callee
    {
      BuildCallsiteOfFunction(p, externs, forward, backward, i, k);
    }
  }

  /** Every CALL and NEW node of the program is exactly one call site. */
  lemma BuildAllCallsites(p: Program, externs: set<string>, forward: bool, backward: bool)
    ensures |Build(p, externs, forward, backward).callsites| == InvocationCountInStmts(p.stmts)
  {
    var bodies := Bodies(p);
    var lits := LiteralsInStmts(p.stmts);
    ArenaSize(bodies);
    InvocationSplitStmts(p.stmts);
    SiteTotalConcat([p.stmts], LiteralBodies(lits));
    assert [p.stmts][1..] == [];
  }

  /** What each call site's target resolves to, in terms of the program's own functions. */
  lemma BuildResolution(p: Program, externs: set<string>, forward: bool, backward: bool, c: nat)
    requires c < |Build(p, externs, forward, backward).callsites|
    ensures var g := Build(p, externs, forward, backward);
            var cs := g.callsites[c];
            var qn := QualifiedName(cs.target);
            && (forall t: nat :: t in cs.knownTargets <==>
                  qn.Some? && t < |g.functions| && !g.functions[t].isMain && g.functions[t].name == qn)
            && (cs.hasExternTarget <==> qn.Some? && qn.value in externs)
            && (cs.hasUnknownTarget <==>
                  qn.None? || qn.value in ValueBoundInStmts(p.stmts) ||
                  (cs.knownTargets == [] && qn.value !in externs))
  {
    var g := Build(p, externs, forward, backward);
    var qn := QualifiedName(g.callsites[c].target);
    BuildRegistry(p, externs, forward, backward);
    if qn.Some? {
      IndexFunctionsCorrect(IndexedNames(p), qn.value);
    }
  }

  lemma BuildTargetsInRange(p: Program, externs: set<string>, forward: bool, backward: bool)
    ensures var g := Build(p, externs, forward, backward);
            forall c, k :: 0 <= c < |g.callsites| && 0 <= k < |g.callsites[c].knownTargets| ==>
              g.callsites[c].knownTargets[k] < |g.functions|
  {
    var g := Build(p, externs, forward, backward);
    forall c, k | 0 <= c < |g.callsites| && 0 <= k < |g.callsites[c].knownTargets|
      ensures g.callsites[c].knownTargets[k] < |g.functions|
    {
      BuildResolution(p, externs, forward, backward, c);
      assert g.callsites[c].knownTargets[k] in g.callsites[c].knownTargets;
    }
  }

  lemma BuildContainersList(p: Program, externs: set<string>, forward: bool, backward: bool)
    ensures var g := Build(p, externs, forward, backward);
            forall c :: 0 <= c < |g.callsites| ==>
              g.callsites[c].containingFunction < |g.functions| &&
              c in g.functions[g.callsites[c].containingFunction].callsitesInFunction
  {
    var g := Build(p, externs, forward, backward);
    var bodies := Bodies(p);
    BuildParts(p, externs, forward, backward);
    forall c | 0 <= c < |g.callsites|
      ensures g.callsites[c].containingFunction < |g.functions|
      ensures c in g.functions[g.callsites[c].containingFunction].callsitesInFunction
    {
      ArenaOwner(bodies, c);
      var o := Arena(bodies)[c].owner;
      FunctionCallsites(p, o);
      var mine := g.functions[o].callsitesInFunction;
      assert mine[c - Offset(bodies, o)] == c;
    }
  }

  lemma BuildListedContained(p: Program, externs: set<string>, forward: bool, backward: bool)
    ensures var g := Build(p, externs, forward, backward);
            forall f, k :: 0 <= f < |g.functions| && 0 <= k < |g.functions[f].callsitesInFunction| ==>
              g.functions[f].callsitesInFunction[k] < |g.callsites| &&
              g.callsites[g.functions[f].callsitesInFunction[k]].containingFunction == f
  {
    var g := Build(p, externs, forward, backward);
    forall f, k | 0 <= f < |g.functions| && 0 <= k < |g.functions[f].callsitesInFunction|
      ensures g.functions[f].callsitesInFunction[k] < |g.callsites|
      ensures g.callsites[g.functions[f].callsitesInFunction[k]].containingFunction == f
    {
      BuildCallsitesInFunction(p, externs, forward, backward, f);
    }
  }

  lemma BuildTargetingInverse(p: Program, externs: set<string>, forward: bool, backward: bool)
    ensures var g := Build(p, externs, forward, backward);
            && |g.targeting| == |g.functions|
            && (forall f, k :: 0 <= f < |g.functions| && 0 <= k < |g.targeting[f]| ==>
                  g.targeting[f][k] < |g.callsites| && f in g.callsites[g.targeting[f][k]].knownTargets)
            && (forall c, f :: 0 <= c < |g.callsites| && f in g.callsites[c].knownTargets && f < |g.functions| ==>
                  c in g.targeting[f])
  {
    var g := Build(p, externs, forward, backward);
    forall f, k | 0 <= f < |g.functions| && 0 <= k < |g.targeting[f]|
      ensures g.targeting[f][k] < |g.callsites| && f in g.callsites[g.targeting[f][k]].knownTargets
    {
      TargetingInverse(g.callsites, |g.functions|, f, g.targeting[f][k]);
    }
    forall c, f | 0 <= c < |g.callsites| && f in g.callsites[c].knownTargets && f < |g.functions|
      ensures c in g.targeting[f]
    {
      TargetingInverse(g.callsites, |g.functions|, f, c);
    }
  }

  /** A built call graph has the structure WellFormed describes. */
  lemma BuildWellFormed(p: Program, externs: set<string>, forward: bool, backward: bool)
    ensures WellFormed(Build(p, externs, forward, backward))
  {
    var g := Build(p, externs, forward, backward);
    BuildRegistry(p, externs, forward, backward);
    BuildTargetsInRange(p, externs, forward, backward);
    BuildContainersList(p, externs, forward, backward);
    BuildListedContained(p, externs, forward, backward);
    BuildTargetingInverse(p, externs, forward, backward);
    forall c, f | 0 <= c < |g.callsites| && f in g.callsites[c].knownTargets
      ensures f < |g.functions|
    {
      var k :| 0 <= k < |g.callsites[c].knownTargets| && g.callsites[c].knownTargets[k] == f;
    }
  }

  /**
   * With no two FUNCTION nodes or CALL/NEW nodes sharing a label (as no two
   * parse-tree nodes are the same object), no two Functions and no two call
   * sites share an AST node.
   */
  ghost predicate DistinctNodes(p: Program) {
    && (forall i, j :: 0 <= i < j < |LiteralsInStmts(p.stmts)| ==>
          LiteralsInStmts(p.stmts)[i].node != LiteralsInStmts(p.stmts)[j].node)
    && (forall c, d :: 0 <= c < d < |Arena(Bodies(p))| ==>
          Arena(Bodies(p))[c].site.node != Arena(Bodies(p))[d].site.node)
  }

  // ----- queries -----

  /** The main function: the one function with isMain. */
  function MainFunction(g: CallGraph): (r: nat)
    requires WellFormed(g)
    ensures r < |g.functions| && g.functions[r].isMain
    ensures forall f :: 0 <= f < |g.functions| && g.functions[f].isMain ==> f == r
  {
    0
  }

  /** The indices of the functions carrying a name, in registry order. */
  function FunctionsWithName(fns: seq<Function>, name: Option<string>): (r: seq<nat>)
    ensures forall i: nat :: i in r <==> i < |fns| && fns[i].name == name
    ensures forall a, b :: 0 <= a < b < |r| ==> r[a] < r[b]
    decreases |fns|
  {
    if fns == [] then []
    else
      var m := |fns| - 1;
      assert forall i :: 0 <= i < m ==> fns[..m][i] == fns[i];
      var front := FunctionsWithName(fns[..m], name);
      assert forall a :: 0 <= a < |front| ==> front[a] in front;
      front + (if fns[m].name == name then [m] else [])
  }

  /**
   * The one function with the given name (`None` asks for the anonymous
   * one); the caller ensures that exactly one function has it.
   */
  function UniqueFunctionWithName(g: CallGraph, name: Option<string>): (r: nat)
    requires |FunctionsWithName(g.functions, name)| == 1
    ensures r < |g.functions| && g.functions[r].name == name
    ensures forall f :: 0 <= f < |g.functions| && g.functions[f].name == name ==> f == r
  {
    var found := FunctionsWithName(g.functions, name);
    assert found[0] in found;
    found[0]
  }

  lemma {:induction false} FunctionsWithNameNone(fns: seq<Function>, name: Option<string>)
    requires forall j :: 0 <= j < |fns| ==> fns[j].name != name
    ensures FunctionsWithName(fns, name) == []
    decreases |fns|
  {
    if fns != [] {
      var m := |fns| - 1;
      assert forall j :: 0 <= j < m ==> fns[..m][j] == fns[j];
      FunctionsWithNameNone(fns[..m], name);
    }
  }

  /** When exactly function i carries the name, it is the one function with that name. */
  lemma {:induction false} FunctionsWithNameSingle(fns: seq<Function>, name: Option<string>, i: nat)
    requires i < |fns| && fns[i].name == name
    requires forall j :: 0 <= j < |fns| && j != i ==> fns[j].name != name
    ensures FunctionsWithName(fns, name) == [i]
    decreases |fns|
  {
    var m := |fns| - 1;
    assert forall j :: 0 <= j < m ==> fns[..m][j] == fns[j];
    if i == m {
      FunctionsWithNameNone(fns[..m], name);
    } else {
      FunctionsWithNameSingle(fns[..m], name, i);
    }
  }

  /** The first function, from index `from` on, whose AST node is `node`. */
  function FindFunction(fns: seq<Function>, node: AstNode, from: nat): (r: Option<nat>)
    requires from <= |fns|
    ensures r.Some? ==> from <= r.value < |fns| && fns[r.value].astNode == node
    ensures r.Some? ==> forall f :: from <= f < r.value ==> fns[f].astNode != node
    ensures r.None? ==> forall f :: from <= f < |fns| ==> fns[f].astNode != node
    decreases |fns| - from
  {
    if from == |fns| then None
    else if fns[from].astNode == node then Some(from)
    else FindFunction(fns, node, from + 1)
  }

  function FunctionForAstNode(g: CallGraph, node: AstNode): (r: Option<nat>)
    ensures r.Some? ==> r.value < |g.functions| && g.functions[r.value].astNode == node
    ensures r.None? ==> forall f :: 0 <= f < |g.functions| ==> g.functions[f].astNode != node
  {
    FindFunction(g.functions, node, 0)
  }

  /** The first call site, from index `from` on, whose AST node is `node`. */
  function FindCallsite(cs: seq<Callsite>, node: nat, from: nat): (r: Option<nat>)
    requires from <= |cs|
    ensures r.Some? ==> from <= r.value < |cs| && cs[r.value].astNode == node
    ensures r.Some? ==> forall c :: from <= c < r.value ==> cs[c].astNode != node
    ensures r.None? ==> forall c :: from <= c < |cs| ==> cs[c].astNode != node
    decreases |cs| - from
  {
    if from == |cs| then None
    else if cs[from].astNode == node then Some(from)
    else FindCallsite(cs, node, from + 1)
  }

  function CallsiteForAstNode(g: CallGraph, node: nat): (r: Option<nat>)
    ensures r.Some? ==> r.value < |g.callsites| && g.callsites[r.value].astNode == node
    ensures r.None? ==> forall c :: 0 <= c < |g.callsites| ==> g.callsites[c].astNode != node
  {
    FindCallsite(g.callsites, node, 0)
  }

  /** The search finds the first entry carrying the node. */
  lemma FindFunctionFirst(fns: seq<Function>, node: AstNode, i: nat)
    requires i < |fns| && fns[i].astNode == node
    requires forall j :: 0 <= j < i ==> fns[j].astNode != node
    ensures FindFunction(fns, node, 0) == Some(i)
  {
  }

  lemma FindCallsiteFirst(cs: seq<Callsite>, node: nat, c: nat)
    requires c < |cs| && cs[c].astNode == node
    requires forall d :: 0 <= d < c ==> cs[d].astNode != node
    ensures FindCallsite(cs, node, 0) == Some(c)
  {
  }

  /** The AST node of registry entry i: the global block for main, else its literal's FUNCTION node. */
  lemma FunctionAstNode(p: Program, i: nat)
    requires i < |Bodies(p)|
    ensures i < |Functions(p)|
    ensures Functions(p)[i].astNode == if i == 0 then GlobalBlock else FunctionNode(LiteralsInStmts(p.stmts)[i - 1].node)
  {
  }

  /** Looking a Function up by its own AST node gives that Function back. */
  lemma FunctionForAstNodeRoundTrip(p: Program, externs: set<string>, forward: bool, backward: bool, i: nat)
    requires DistinctNodes(p)
    requires i < |Build(p, externs, forward, backward).functions|
    ensures var g := Build(p, externs, forward, backward);
            FunctionForAstNode(g, g.functions[i].astNode) == Some(i)
  {
    var g := Build(p, externs, forward, backward);
    var fs := Functions(p);
    assert g.functions == fs;
    FunctionAstNode(p, i);
    forall j | 0 <= j < i
      ensures fs[j].astNode != fs[i].astNode
    {
      FunctionAstNode(p, j);
    }
    FindFunctionFirst(fs, fs[i].astNode, i);
  }

  /** Looking a call site up by its own AST node gives that call site back. */
  lemma CallsiteForAstNodeRoundTrip(p: Program, externs: set<string>, forward: bool, backward: bool, c: nat)
    requires DistinctNodes(p)
    requires c < |Build(p, externs, forward, backward).callsites|
    ensures var g := Build(p, externs, forward, backward);
            CallsiteForAstNode(g, g.callsites[c].astNode) == Some(c)
  {
    var g := Build(p, externs, forward, backward);
    var cs, arena := Callsites(p, externs), Arena(Bodies(p));
    assert g.callsites == cs;
    forall d | 0 <= d < c
      ensures cs[d].astNode != cs[c].astNode
    {
      assert cs[d].astNode == arena[d].site.node && cs[c].astNode == arena[c].site.node;
    }
    FindCallsiteFirst(cs, cs[c].astNode, c);
  }

  // ----- the two directed views -----

  /** An edge of a directed view, labelled with the call site that induces it. */
  datatype Edge = Edge(source: nat, callsite: nat, destination: nat)

  /** A directed graph over the functions 0 .. nodeCount - 1. */
  datatype DirectedGraph = DirectedGraph(nodeCount: nat, edges: seq<Edge>)

  function Reversed(e: Edge): Edge {
    Edge(e.destination, e.callsite, e.source)
  }

  /** One caller-to-callee edge per call site and known target, call site by call site. */
  function ForwardEdges(cs: seq<Callsite>): seq<Edge>
    decreases |cs|
  {
    if cs == [] then []
    else
      var m := |cs| - 1;
      var kt := cs[m].knownTargets;
      ForwardEdges(cs[..m]) + seq(|kt|, k requires 0 <= k < |kt| => Edge(cs[m].containingFunction, m, kt[k]))
  }

  lemma {:induction false} ForwardEdgesIff(cs: seq<Callsite>, e: Edge)
    ensures e in ForwardEdges(cs) <==>
              e.callsite < |cs| && e.source == cs[e.callsite].containingFunction &&
              e.destination in cs[e.callsite].knownTargets
    decreases |cs|
  {
    if cs != [] {
      var m := |cs| - 1;
      var kt := cs[m].knownTargets;
      var last := seq(|kt|, k requires 0 <= k < |kt| => Edge(cs[m].containingFunction, m, kt[k]));
      ForwardEdgesIff(cs[..m], e);
      if e.callsite < m {
        assert cs[..m][e.callsite] == cs[e.callsite];
      }
      if e.callsite == m && e.source == cs[m].containingFunction && e.destination in kt {
        var k :| 0 <= k < |kt| && kt[k] == e.destination;
        assert last[k] == e;
      }
    }
  }

  /** The containing function of call site c (0 for an index out of range). */
  function Caller(cs: seq<Callsite>, c: nat): nat {
    if c < |cs| then cs[c].containingFunction else 0
  }

  /** One callee-to-caller edge per call site filed under a function, function by function. */
  function BackwardEdges(targeting: seq<seq<nat>>, cs: seq<Callsite>): seq<Edge>
    decreases |targeting|
  {
    if targeting == [] then []
    else
      var f := |targeting| - 1;
      var ts := targeting[f];
      BackwardEdges(targeting[..f], cs) + seq(|ts|, k requires 0 <= k < |ts| => Edge(f, ts[k], Caller(cs, ts[k])))
  }

  lemma {:induction false} BackwardEdgesIff(targeting: seq<seq<nat>>, cs: seq<Callsite>, e: Edge)
    ensures e in BackwardEdges(targeting, cs) <==>
              e.source < |targeting| && e.callsite in targeting[e.source] && e.destination == Caller(cs, e.callsite)
    decreases |targeting|
  {
    if targeting != [] {
      var f := |targeting| - 1;
      var ts := targeting[f];
      var last := seq(|ts|, k requires 0 <= k < |ts| => Edge(f, ts[k], Caller(cs, ts[k])));
      BackwardEdgesIff(targeting[..f], cs, e);
      if e.source < f {
        assert targeting[..f][e.source] == targeting[e.source];
      }
      if e.source == f && e.callsite in ts && e.destination == Caller(cs, e.callsite) {
        var k :| 0 <= k < |ts| && ts[k] == e.callsite;
        assert last[k] == e;
      }
    }
  }

  /**
   * The caller-to-callee view: an edge from f to t labelled c exactly when
   * c is a call site of f with t among its known targets. Available whichever
   * capability was chosen.
   */
  function ForwardDirectedGraph(g: CallGraph): (r: DirectedGraph)
    requires WellFormed(g)
    ensures r.nodeCount == |g.functions|
    ensures forall e :: e in r.edges <==>
              e.callsite < |g.callsites| && e.source == g.callsites[e.callsite].containingFunction &&
              e.destination in g.callsites[e.callsite].knownTargets
  {
    var r := DirectedGraph(|g.functions|, ForwardEdges(g.callsites));
    forall e ensures e in r.edges <==>
              e.callsite < |g.callsites| && e.source == g.callsites[e.callsite].containingFunction &&
              e.destination in g.callsites[e.callsite].knownTargets
    {
      ForwardEdgesIff(g.callsites, e);
    }
    r
  }

  /**
   * The callee-to-caller view, read off the inverse relation: an edge from t
   * to f labelled c exactly when c possibly targets t and f contains c.
   * Available whichever capability was chosen.
   */
  function BackwardDirectedGraph(g: CallGraph): (r: DirectedGraph)
    requires WellFormed(g)
    ensures r.nodeCount == |g.functions|
    ensures forall e :: e in r.edges <==>
              e.source < |g.functions| && e.callsite in g.targeting[e.source] &&
              e.callsite < |g.callsites| && e.destination == g.callsites[e.callsite].containingFunction
  {
    var r := DirectedGraph(|g.functions|, BackwardEdges(g.targeting, g.callsites));
    forall e ensures e in r.edges <==>
              e.source < |g.functions| && e.callsite in g.targeting[e.source] &&
              e.callsite < |g.callsites| && e.destination == g.callsites[e.callsite].containingFunction
    {
      BackwardEdgesIff(g.targeting, g.callsites, e);
      if e.source < |g.functions| && e.callsite in g.targeting[e.source] {
        var k :| 0 <= k < |g.targeting[e.source]| && g.targeting[e.source][k] == e.callsite;
      }
    }
    r
  }

  lemma ForwardEdgeReversed(g: CallGraph, e: Edge)
    requires WellFormed(g) && e in ForwardDirectedGraph(g).edges
    ensures Reversed(e) in BackwardDirectedGraph(g).edges
  {
    var kt := g.callsites[e.callsite].knownTargets;
    var k :| 0 <= k < |kt| && kt[k] == e.destination;
  }

  /** The backward view is the forward view with every edge reversed, and back. */
  lemma DirectedGraphsMirror(g: CallGraph)
    requires WellFormed(g)
    ensures forall e :: e in ForwardDirectedGraph(g).edges <==> Reversed(e) in BackwardDirectedGraph(g).edges
    ensures forall e :: e in ForwardDirectedGraph(g).edges ==>
              e.source < |g.functions| && e.destination < |g.functions|
  {
    forall e ensures e in ForwardDirectedGraph(g).edges ==> e.destination < |g.functions| {
      if e in ForwardDirectedGraph(g).edges {
        var kt := g.callsites[e.callsite].knownTargets;
        var k :| 0 <= k < |kt| && kt[k] == e.destination;
      }
    }
  }

  /**
   * Call site c of function f calls through a dotted name that function t
   * (not main) carries: the k-th invocation of f's own body.
   */
  ghost predicate CallsByName(p: Program, g: CallGraph, f: nat, c: nat, t: nat) {
    && f < |g.functions| && f < |Bodies(p)| && t < |g.functions|
    && !g.functions[t].isMain
    && exists k :: 0 <= k < |SitesInStmts(Bodies(p)[f])| && k < |g.functions[f].callsitesInFunction|
         && c == g.functions[f].callsitesInFunction[k]
         && QualifiedName(SitesInStmts(Bodies(p)[f])[k].callee).Some?
         && QualifiedName(SitesInStmts(Bodies(p)[f])[k].callee) == g.functions[t].name
  }

  lemma ForwardEdgeCallsByName(p: Program, externs: set<string>, forward: bool, backward: bool, e: Edge)
    requires WellFormed(Build(p, externs, forward, backward))
    requires e in ForwardDirectedGraph(Build(p, externs, forward, backward)).edges
    ensures CallsByName(p, Build(p, externs, forward, backward), e.source, e.callsite, e.destination)
  {
    var g := Build(p, externs, forward, backward);
    var c := e.callsite;
    var mine := g.functions[e.source].callsitesInFunction;
    assert c in mine;
    var k :| 0 <= k < |mine| && mine[k] == c;
    BuildCallsitesInFunction(p, externs, forward, backward, e.source);
    BuildResolution(p, externs, forward, backward, c);
  }

  lemma CallsByNameKnownTarget(p: Program, externs: set<string>, forward: bool, backward: bool, f: nat, c: nat, t: nat)
    requires CallsByName(p, Build(p, externs, forward, backward), f, c, t)
    ensures var g := Build(p, externs, forward, backward);
            c < |g.callsites| && g.callsites[c].containingFunction == f && t in g.callsites[c].knownTargets
  {
    var g := Build(p, externs, forward, backward);
    var k :| 0 <= k < |SitesInStmts(Bodies(p)[f])| && k < |g.functions[f].callsitesInFunction|
         && c == g.functions[f].callsitesInFunction[k]
         && QualifiedName(SitesInStmts(Bodies(p)[f])[k].callee).Some?
         && QualifiedName(SitesInStmts(Bodies(p)[f])[k].callee) == g.functions[t].name;
    BuildCallsiteOfFunction(p, externs, forward, backward, f, k);
    BuildResolution(p, externs, forward, backward, c);
  }

  lemma CallsByNameForwardEdge(p: Program, externs: set<string>, forward: bool, backward: bool, f: nat, c: nat, t: nat)
    requires WellFormed(Build(p, externs, forward, backward))
    requires CallsByName(p, Build(p, externs, forward, backward), f, c, t)
    ensures Edge(f, c, t) in ForwardDirectedGraph(Build(p, externs, forward, backward)).edges
  {
    CallsByNameKnownTarget(p, externs, forward, backward, f, c, t);
  }

  /**
   * A forward edge from f to t, labelled c, exists exactly when c is one of
   * f's own call sites, calling through a dotted name that t (not main) carries.
   */
  lemma ForwardEdgeByName(p: Program, externs: set<string>, forward: bool, backward: bool, e: Edge)
    ensures WellFormed(Build(p, externs, forward, backward))
    ensures e in ForwardDirectedGraph(Build(p, externs, forward, backward)).edges <==>
              CallsByName(p, Build(p, externs, forward, backward), e.source, e.callsite, e.destination)
  {
    BuildWellFormed(p, externs, forward, backward);
    if e in ForwardDirectedGraph(Build(p, externs, forward, backward)).edges {
      ForwardEdgeCallsByName(p, externs, forward, backward, e);
    }
    if CallsByName(p, Build(p, externs, forward, backward), e.source, e.callsite, e.destination) {
      CallsByNameForwardEdge(p, externs, forward, backward, e.source, e.callsite, e.destination);
    }
  }

  /** The dotted names a list of call sites calls through. */
  function CalleeNames(sites: seq<Site>): (r: set<string>)
    ensures forall n :: n in r <==> exists k :: 0 <= k < |sites| && QualifiedName(sites[k].callee) == Some(n)
    decreases |sites|
  {
    if sites == [] then {}
    else
      var rest := CalleeNames(sites[1..]);
      assert forall k :: 1 <= k < |sites| ==> sites[1..][k - 1] == sites[k];
      (if QualifiedName(sites[0].callee).Some? then {QualifiedName(sites[0].callee).value} else {}) + rest
  }

  /** The dotted names the own call sites of function f call through. */
  function CalledNames(p: Program, f: nat): set<string>
    requires f < |Bodies(p)|
  {
    CalleeNames(SitesInStmts(Bodies(p)[f]))
  }

  /** The dotted names each registry entry's own body calls through, entry by entry. */
  function CallTable(p: Program): (r: seq<set<string>>)
    ensures |r| == |Bodies(p)|
  {
    seq(|Bodies(p)|, f requires 0 <= f < |Bodies(p)| => CalledNames(p, f))
  }

  lemma CallTableAt(p: Program, f: nat)
    requires f < |Bodies(p)|
    ensures CallTable(p)[f] == CalledNames(p, f)
  {
  }

  /**
   * A backward edge from t to f: t (not main) carries a name that f's own
   * body calls through.
   */
  lemma BackwardEdgeHasCalledName(p: Program, externs: set<string>, forward: bool, backward: bool, e: Edge)
    requires WellFormed(Build(p, externs, forward, backward))
    requires e in BackwardDirectedGraph(Build(p, externs, forward, backward)).edges
    ensures var g := Build(p, externs, forward, backward);
            && e.destination < |Bodies(p)| && e.source < |g.functions|
            && !g.functions[e.source].isMain && g.functions[e.source].name.Some?
            && g.functions[e.source].name.value in CalledNames(p, e.destination)
  {
    var g := Build(p, externs, forward, backward);
    assert e.source in g.callsites[e.callsite].knownTargets by {
      var k :| 0 <= k < |g.targeting[e.source]| && g.targeting[e.source][k] == e.callsite;
    }
    ForwardEdgeHasCalledName(p, externs, forward, backward, Reversed(e));
  }

  /** A forward edge from f to t: t (not main) carries a name that f's own body calls through. */
  lemma ForwardEdgeHasCalledName(p: Program, externs: set<string>, forward: bool, backward: bool, e: Edge)
    requires WellFormed(Build(p, externs, forward, backward))
    requires e in ForwardDirectedGraph(Build(p, externs, forward, backward)).edges
    ensures var g := Build(p, externs, forward, backward);
            && e.source < |Bodies(p)| && e.destination < |g.functions|
            && !g.functions[e.destination].isMain && g.functions[e.destination].name.Some?
            && g.functions[e.destination].name.value in CalledNames(p, e.source)
  {
    var g := Build(p, externs, forward, backward);
    ForwardEdgeByName(p, externs, forward, backward, e);
    var sites := SitesInStmts(Bodies(p)[e.source]);
    var k :| 0 <= k < |sites| && k < |g.functions[e.source].callsitesInFunction|
         && e.callsite == g.functions[e.source].callsitesInFunction[k]
         && QualifiedName(sites[k].callee).Some?
         && QualifiedName(sites[k].callee) == g.functions[e.destination].name;
  }

  /** When f's own body calls through a name t (not main) carries, some call site of f leads to t. */
  lemma CalledNameHasForwardEdge(p: Program, externs: set<string>, forward: bool, backward: bool, f: nat, t: nat)
    requires f < |Bodies(p)| && t < |Build(p, externs, forward, backward).functions|
    requires var g := Build(p, externs, forward, backward);
             !g.functions[t].isMain && g.functions[t].name.Some? && g.functions[t].name.value in CalledNames(p, f)
    ensures WellFormed(Build(p, externs, forward, backward))
    ensures exists c :: Edge(f, c, t) in ForwardDirectedGraph(Build(p, externs, forward, backward)).edges
  {
    var g := Build(p, externs, forward, backward);
    BuildWellFormed(p, externs, forward, backward);
    var sites := SitesInStmts(Bodies(p)[f]);
    var k :| 0 <= k < |sites| && QualifiedName(sites[k].callee) == Some(g.functions[t].name.value);
    BuildCallsiteOfFunction(p, externs, forward, backward, f, k);
    var c := g.functions[f].callsitesInFunction[k];
    assert CallsByName(p, g, f, c, t);
    ForwardEdgeByName(p, externs, forward, backward, Edge(f, c, t));
  }

  /**
   * In terms of names only: there is a forward edge from f to t exactly when
   * t is not main and carries a name that f's own body calls through.
   */
  lemma ForwardEdgeByCalledName(p: Program, externs: set<string>, forward: bool, backward: bool, f: nat, t: nat)
    requires f < |Build(p, externs, forward, backward).functions| && t < |Build(p, externs, forward, backward).functions|
    ensures var g := Build(p, externs, forward, backward);
            && WellFormed(g)
            && ((exists c :: Edge(f, c, t) in ForwardDirectedGraph(g).edges) <==>
                  !g.functions[t].isMain && g.functions[t].name.Some? && g.functions[t].name.value in CalledNames(p, f))
  {
    var g := Build(p, externs, forward, backward);
    BuildWellFormed(p, externs, forward, backward);
    if c :| Edge(f, c, t) in ForwardDirectedGraph(g).edges {
      ForwardEdgeHasCalledName(p, externs, forward, backward, Edge(f, c, t));
    }
    if !g.functions[t].isMain && g.functions[t].name.Some? && g.functions[t].name.value in CalledNames(p, f) {
      CalledNameHasForwardEdge(p, externs, forward, backward, f, t);
    }
  }

  // ----- the capability gate -----

  /**
   * The functions call site c may invoke. Only a graph built with the
   * forward capability answers; otherwise UnsupportedOperation.
   */
  function PossibleTargets(g: CallGraph, c: nat): (r: Result<set<nat>, Unsupported>)
    requires WellFormed(g) && c < |g.callsites|
    ensures r.Failure? <==> !g.forward
    ensures r.Success? ==> forall t :: t in r.value <==>
              Edge(g.callsites[c].containingFunction, c, t) in ForwardDirectedGraph(g).edges
  {
    if g.forward then Success(set t | t in g.callsites[c].knownTargets) else Failure(UnsupportedOperation)
  }

  /**
   * The call sites that may invoke function f: exactly those resolving to f.
   * Only a graph built with the backward capability answers; otherwise
   * UnsupportedOperation.
   */
  function CallsitesPossiblyTargetingFunction(g: CallGraph, f: nat): (r: Result<set<nat>, Unsupported>)
    requires WellFormed(g) && f < |g.functions|
    ensures r.Failure? <==> !g.backward
    ensures r.Success? ==> forall c :: c in r.value <==>
              0 <= c < |g.callsites| && f in g.callsites[c].knownTargets
  {
    if g.backward then Success(set c | c in g.targeting[f]) else Failure(UnsupportedOperation)
  }

  /** The views do not depend on the capabilities: both work on every graph. */
  lemma DirectedGraphsIgnoreCapabilities(p: Program, externs: set<string>, f1: bool, b1: bool, f2: bool, b2: bool)
    ensures var g1 := Build(p, externs, f1, b1);
            var g2 := Build(p, externs, f2, b2);
            WellFormed(g1) && WellFormed(g2) &&
            ForwardDirectedGraph(g1) == ForwardDirectedGraph(g2) &&
            BackwardDirectedGraph(g1) == BackwardDirectedGraph(g2)
  {
    BuildWellFormed(p, externs, f1, b1);
    BuildWellFormed(p, externs, f2, b2);
  }
}
