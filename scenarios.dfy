/**
 * The propagation scenarios of the test suite. Each scenario is a program
 * described by what the call graph sees of it: the names filed in the name
 * index (main first, unnamed) and, entry by entry, the dotted names its own
 * body calls through. Every result below holds for each program with that
 * description, whichever capabilities its graph was built with.
 */
module CallGraphScenarios {
  import opened Wrappers
  import opened Ast
  import opened Discovery
  import opened CallGraphs
  import opened FixedPoint
  import opened CallGraphTests

  // ----- the programs of the scenarios -----

  /** `f(…)`: a statement calling a simple name, with arguments that are plain values. */
  ghost predicate PlainCall(s: Stmt) {
    s.ExprStmt? && s.expr.Invoke? && s.expr.callee.Name? && forall a :: a in s.expr.args ==> a == Value
  }

  /** The statement `f(args)`, at the given node. */
  function Call(node: nat, f: string, args: seq<Expr>): Stmt {
    ExprStmt(Invoke(CallOp, node, Name(f), args))
  }

  ghost predicate PlainCalls(ss: seq<Stmt>) {
    forall k :: 0 <= k < |ss| ==> PlainCall(ss[k])
  }

  /** The names a list of plain calls calls. */
  function CallNamesOf(ss: seq<Stmt>): set<string> {
    set k | 0 <= k < |ss| && ss[k].ExprStmt? && ss[k].expr.Invoke? && ss[k].expr.callee.Name? :: ss[k].expr.callee.id
  }

  lemma CallNamesOfCons(s: Stmt, ss: seq<Stmt>)
    requires PlainCall(s)
    ensures CallNamesOf([s] + ss) == {s.expr.callee.id} + CallNamesOf(ss)
  {
    var t := [s] + ss;
    assert t[0] == s;
    forall x ensures x in CallNamesOf(t) <==> x in {s.expr.callee.id} + CallNamesOf(ss) {
      if x in CallNamesOf(ss) {
        var k :| 0 <= k < |ss| && ss[k].ExprStmt? && ss[k].expr.Invoke? && ss[k].expr.callee.Name? &&
                 ss[k].expr.callee.id == x;
        assert t[k + 1] == ss[k];
      }
      if x in CallNamesOf(t) && x != s.expr.callee.id {
        var k :| 0 <= k < |t| && t[k].ExprStmt? && t[k].expr.Invoke? && t[k].expr.callee.Name? &&
                 t[k].expr.callee.id == x;
        assert ss[k - 1] == t[k];
      }
    }
  }

  lemma {:induction false} PlainValues(args: seq<Expr>)
    requires forall a :: a in args ==> a == Value
    ensures LiteralsInExprs(args) == [] && SitesInExprs(args) == []
    decreases |args|
  {
    if args != [] {
      assert args[0] in args;
      assert forall a :: a in args[1..] ==> a in args;
      PlainValues(args[1..]);
    }
  }

  lemma PlainCallSites(s: Stmt)
    requires PlainCall(s)
    ensures LiteralsInStmt(s) == []
    ensures SitesInStmt(s) == [Site(s.expr.node, s.expr.kind, s.expr.callee)]
  {
    var e := s.expr;
    PlainValues(e.args);
    assert LiteralsInExpr(e.callee, None) == [] && SitesInExpr(e.callee) == [];
    assert LiteralsInExpr(e, None) == [] + LiteralsInExprs(e.args);
    assert SitesInExpr(e) == [Site(e.node, e.kind, e.callee)] + [] + SitesInExprs(e.args);
  }

  /** Plain calls hold no function literal and have one call site each, in order. */
  lemma {:induction false} PlainCallsSites(ss: seq<Stmt>)
    requires PlainCalls(ss)
    ensures LiteralsInStmts(ss) == []
    ensures |SitesInStmts(ss)| == |ss|
    ensures forall k :: 0 <= k < |ss| ==> SitesInStmts(ss)[k].callee == ss[k].expr.callee
    decreases |ss|
  {
    if ss != [] {
      PlainCallSites(ss[0]);
      assert PlainCalls(ss[1..]) by {
        forall k | 0 <= k < |ss[1..]| ensures PlainCall(ss[1..][k]) {
          assert ss[1..][k] == ss[k + 1];
        }
      }
      PlainCallsSites(ss[1..]);
      forall k | 1 <= k < |ss| ensures SitesInStmts(ss)[k].callee == ss[k].expr.callee {
        assert SitesInStmts(ss)[k] == SitesInStmts(ss[1..])[k - 1];
        assert ss[1..][k - 1] == ss[k];
      }
    }
  }

  /** Plain calls call exactly through their callees' names. */
  lemma PlainCallsFacts(ss: seq<Stmt>)
    requires PlainCalls(ss)
    ensures LiteralsInStmts(ss) == []
    ensures CalleeNames(SitesInStmts(ss)) == CallNamesOf(ss)
  {
    PlainCallsSites(ss);
    var sites := SitesInStmts(ss);
    forall n ensures n in CalleeNames(sites) <==> n in CallNamesOf(ss) {
      if n in CallNamesOf(ss) {
        var k :| 0 <= k < |ss| && ss[k].ExprStmt? && ss[k].expr.Invoke? && ss[k].expr.callee.Name? &&
                 ss[k].expr.callee.id == n;
        assert QualifiedName(sites[k].callee) == Some(n);
      }
      if n in CalleeNames(sites) {
        var k :| 0 <= k < |sites| && QualifiedName(sites[k].callee) == Some(n);
        assert PlainCall(ss[k]);
      }
    }
  }

  /**
   * The shape of the scenarios' programs: `k` named function declarations whose
   * bodies are plain calls, then the global code's plain calls.
   */
  ghost predicate FlatProgram(ss: seq<Stmt>, k: nat) {
    && k <= |ss|
    && (forall i :: 0 <= i < k ==> ss[i].FuncDecl? && ss[i].name != "" && PlainCalls(ss[i].body))
    && PlainCalls(ss[k..])
  }

  lemma {:induction false} FlatLiterals(ss: seq<Stmt>, k: nat)
    requires FlatProgram(ss, k)
    ensures LiteralsInStmts(ss) == seq(k, i requires 0 <= i < k => Literal(ss[i].node, Some(ss[i].name), ss[i].body))
    ensures SitesInStmts(ss) == SitesInStmts(ss[k..])
    decreases k
  {
    if k == 0 {
      assert ss[0..] == ss;
      PlainCallsFacts(ss);
    } else {
      PlainCallsFacts(ss[0].body);
      assert ss[1..][k - 1..] == ss[k..];
      assert FlatProgram(ss[1..], k - 1) by {
        forall i | 0 <= i < k - 1 ensures ss[1..][i] == ss[i + 1] { }
      }
      FlatLiterals(ss[1..], k - 1);
    }
  }

  lemma FlatBodies(p: Program, k: nat)
    requires FlatProgram(p.stmts, k)
    ensures |Bodies(p)| == |IndexedNames(p)| == k + 1
    ensures forall i :: 1 <= i <= k ==> IndexedNames(p)[i] == Some(p.stmts[i - 1].name)
    ensures forall i :: 1 <= i <= k ==> Bodies(p)[i] == p.stmts[i - 1].body
    ensures SitesInStmts(Bodies(p)[0]) == SitesInStmts(p.stmts[k..])
  {
    FlatLiterals(p.stmts, k);
  }

  lemma FlatCalls(p: Program, k: nat, i: nat)
    requires FlatProgram(p.stmts, k) && 1 <= i <= k
    ensures |CallTable(p)| == k + 1
    ensures CallTable(p)[i] == CallNamesOf(p.stmts[i - 1].body)
  {
    FlatBodies(p, k);
    PlainCallsFacts(p.stmts[i - 1].body);
    CallTableAt(p, i);
  }

  lemma FlatGlobalCalls(p: Program, k: nat)
    requires FlatProgram(p.stmts, k)
    ensures |CallTable(p)| == k + 1
    ensures CallTable(p)[0] == CallNamesOf(p.stmts[k..])
  {
    FlatBodies(p, k);
    PlainCallsFacts(p.stmts[k..]);
    CallTableAt(p, 0);
  }

  /**
   * What the call graph sees of a flat program: main and then the declared
   * names, and what the global code and each declared body call.
   */
  lemma FlatProgramTables(p: Program, k: nat, names: seq<Option<string>>, calls: seq<set<string>>)
    requires FlatProgram(p.stmts, k)
    requires |names| == |calls| == k + 1 && names[0] == None
    requires forall i :: 1 <= i <= k ==> names[i] == Some(p.stmts[i - 1].name)
    requires calls[0] == CallNamesOf(p.stmts[k..])
    requires forall i :: 1 <= i <= k ==> calls[i] == CallNamesOf(p.stmts[i - 1].body)
    ensures IndexedNames(p) == names && CallTable(p) == calls
  {
    FlatBodies(p, k);
    FlatGlobalCalls(p, k);
    var n := IndexedNames(p);
    var t := CallTable(p);
    forall i | 1 <= i <= k ensures t[i] == calls[i] {
      FlatCalls(p, k, i);
    }
    assert forall i :: 0 <= i < |n| ==> n[i] == names[i];
    assert forall i :: 0 <= i < |t| ==> t[i] == calls[i];
  }

  /** The statements of registry entry o of a flat program: the global code for main, else a declared body. */
  function FlatBody(ss: seq<Stmt>, n: nat, o: nat): seq<Stmt>
    requires FlatProgram(ss, n) && o <= n
  {
    if o == 0 then ss[n..] else ss[o - 1].body
  }

  /** Entry o of a flat program has one call site per statement of its body, calling that statement's callee. */
  lemma FlatSites(p: Program, n: nat, o: nat)
    requires FlatProgram(p.stmts, n) && o <= n
    ensures o < |Bodies(p)|
    ensures |SitesInStmts(Bodies(p)[o])| == |FlatBody(p.stmts, n, o)|
    ensures forall j :: 0 <= j < |FlatBody(p.stmts, n, o)| ==>
              SitesInStmts(Bodies(p)[o])[j].callee == FlatBody(p.stmts, n, o)[j].expr.callee
  {
    FlatBodies(p, n);
    PlainCallsSites(FlatBody(p.stmts, n, o));
  }

  lemma FlatArenaCallee(p: Program, n: nat, externs: set<string>, c: nat)
    requires FlatProgram(p.stmts, n) && c < |Callsites(p, externs)|
    ensures var cs := Callsites(p, externs)[c];
            && cs.containingFunction <= n
            && exists j :: 0 <= j < |FlatBody(p.stmts, n, cs.containingFunction)| &&
                 cs.target == FlatBody(p.stmts, n, cs.containingFunction)[j].expr.callee
  {
    CallsiteInBody(p, externs, c);
    FlatBodies(p, n);
    FlatSites(p, n, Callsites(p, externs)[c].containingFunction);
  }

  /** Every call site of a flat program calls the callee of one statement of its containing entry. */
  lemma FlatCallsiteCallee(p: Program, n: nat, externs: set<string>, forward: bool, backward: bool, c: nat)
    requires FlatProgram(p.stmts, n) && c < |Build(p, externs, forward, backward).callsites|
    ensures var g := Build(p, externs, forward, backward);
            var o := g.callsites[c].containingFunction;
            && o <= n
            && exists j :: 0 <= j < |FlatBody(p.stmts, n, o)| && g.callsites[c].target == FlatBody(p.stmts, n, o)[j].expr.callee
  {
    BuildParts(p, externs, forward, backward);
    FlatArenaCallee(p, n, externs, c);
  }

  /** The j-th call site entry o lists calls the callee of its j-th statement. */
  lemma FlatListedCallee(p: Program, n: nat, externs: set<string>, forward: bool, backward: bool, o: nat, j: nat)
    requires FlatProgram(p.stmts, n) && o <= n && j < |FlatBody(p.stmts, n, o)|
    ensures o < |Build(p, externs, forward, backward).functions|
    ensures var g := Build(p, externs, forward, backward);
            var mine := g.functions[o].callsitesInFunction;
            && j < |mine| && mine[j] < |g.callsites|
            && g.callsites[mine[j]].containingFunction == o
            && g.callsites[mine[j]].target == FlatBody(p.stmts, n, o)[j].expr.callee
  {
    FlatSites(p, n, o);
    BuildNames(p, externs, forward, backward);
    BuildCallsiteOfFunction(p, externs, forward, backward, o, j);
  }

  /** Entry o lists one call site per statement of its body. */
  lemma FlatListedCount(p: Program, n: nat, externs: set<string>, forward: bool, backward: bool, o: nat)
    requires FlatProgram(p.stmts, n) && o <= n
    ensures var g := Build(p, externs, forward, backward);
            o < |g.functions| && |g.functions[o].callsitesInFunction| == |FlatBody(p.stmts, n, o)|
  {
    FlatSites(p, n, o);
    BuildParts(p, externs, forward, backward);
    FunctionCallsites(p, o);
  }

  /**
   * A call graph seen at the level of names: entry i (after main) is named
   * names[i]; an edge leads from f to t exactly when t is not main and f's own
   * body calls through t's name, as calls[f] lists; the extern callers are
   * the entries calling through a name the externs declare.
   */
  ghost predicate NameGraph(g: CallGraph, names: seq<Option<string>>, calls: seq<set<string>>, externs: set<string>) {
    && WellFormed(g)
    && |g.functions| == |names| == |calls|
    && g.functions[0].name == Some(MainFunctionName)
    && (forall i :: 1 <= i < |names| ==> g.functions[i].name == names[i])
    && (forall e :: e in ForwardDirectedGraph(g).edges ==>
          && e.source < |calls| && 1 <= e.destination < |names|
          && names[e.destination].Some? && names[e.destination].value in calls[e.source])
    && (forall f, t :: 0 <= f < |calls| && 1 <= t < |names| && names[t].Some? && names[t].value in calls[f] ==>
          exists c :: Edge(f, c, t) in ForwardDirectedGraph(g).edges)
    && (forall f: nat :: f in ExternCallers(g) <==> f < |calls| && calls[f] * externs != {})
  }

  lemma BuildNamesAndEdges(p: Program, externs: set<string>, forward: bool, backward: bool)
    ensures var g := Build(p, externs, forward, backward);
            var names := IndexedNames(p);
            var calls := CallTable(p);
            && WellFormed(g)
            && |g.functions| == |names| == |calls|
            && g.functions[0].name == Some(MainFunctionName)
            && (forall i :: 1 <= i < |names| ==> g.functions[i].name == names[i])
            && (forall e :: e in ForwardDirectedGraph(g).edges ==>
                  && e.source < |calls| && 1 <= e.destination < |names|
                  && names[e.destination].Some? && names[e.destination].value in calls[e.source])
  {
    var g := Build(p, externs, forward, backward);
    BuildWellFormed(p, externs, forward, backward);
    BuildNames(p, externs, forward, backward);
    forall e | e in ForwardDirectedGraph(g).edges
      ensures e.source < |CallTable(p)| && 1 <= e.destination < |IndexedNames(p)|
      ensures IndexedNames(p)[e.destination].Some? && IndexedNames(p)[e.destination].value in CallTable(p)[e.source]
    {
      ForwardEdgeHasCalledName(p, externs, forward, backward, e);
      CallTableAt(p, e.source);
    }
  }

  lemma BuildCalledEdges(p: Program, externs: set<string>, forward: bool, backward: bool)
    ensures var g := Build(p, externs, forward, backward);
            var names := IndexedNames(p);
            var calls := CallTable(p);
            && WellFormed(g)
            && (forall f, t :: 0 <= f < |calls| && 1 <= t < |names| && names[t].Some? && names[t].value in calls[f] ==>
                  exists c :: Edge(f, c, t) in ForwardDirectedGraph(g).edges)
  {
    var g := Build(p, externs, forward, backward);
    BuildWellFormed(p, externs, forward, backward);
    BuildNames(p, externs, forward, backward);
    var names := IndexedNames(p);
    var calls := CallTable(p);
    forall f, t | 0 <= f < |calls| && 1 <= t < |names| && names[t].Some? && names[t].value in calls[f]
      ensures exists c :: Edge(f, c, t) in ForwardDirectedGraph(g).edges
    {
      CallTableAt(p, f);
      CalledNameHasForwardEdge(p, externs, forward, backward, f, t);
    }
  }

  lemma BuildExternCallers(p: Program, externs: set<string>, forward: bool, backward: bool)
    ensures forall f: nat :: f in ExternCallers(Build(p, externs, forward, backward)) <==>
              f < |CallTable(p)| && CallTable(p)[f] * externs != {}
  {
    forall f: nat
      ensures f in ExternCallers(Build(p, externs, forward, backward)) <==>
              f < |CallTable(p)| && CallTable(p)[f] * externs != {}
    {
      ExternCallersByName(p, externs, forward, backward, f);
      if f < |CallTable(p)| {
        CallTableAt(p, f);
      }
    }
  }

  /** The graph built from a program is the name graph of its names and its call table. */
  lemma BuildNameGraph(p: Program, externs: set<string>, forward: bool, backward: bool)
    ensures NameGraph(Build(p, externs, forward, backward), IndexedNames(p), CallTable(p), externs)
  {
    BuildNamesAndEdges(p, externs, forward, backward);
    BuildCalledEdges(p, externs, forward, backward);
    BuildExternCallers(p, externs, forward, backward);
  }

  /** No two entries after main carry the same name, and none carries main's. */
  ghost predicate DistinctNames(names: seq<Option<string>>) {
    && (forall i :: 1 <= i < |names| ==> names[i] != Some(MainFunctionName))
    && (forall i, j :: 1 <= i < j < |names| ==> names[i] != names[j])
  }

  /** With distinct names, entry i is the one function named names[i]. */
  lemma UniqueName(g: CallGraph, names: seq<Option<string>>, calls: seq<set<string>>, externs: set<string>, i: nat)
    requires NameGraph(g, names, calls, externs) && DistinctNames(names)
    requires 1 <= i < |names|
    ensures FunctionsWithName(g.functions, names[i]) == [i]
    ensures UniqueFunctionWithName(g, names[i]) == i
  {
    forall j | 0 <= j < |g.functions| && j != i
      ensures g.functions[j].name != names[i]
    {
      if j > 0 {
        if j < i {
          assert names[j] != names[i];
        } else {
          assert names[i] != names[j];
        }
      }
    }
    FunctionsWithNameSingle(g.functions, names[i], i);
  }

  // ----- poisoning: function A(){}; function B(){ExternalFunction(6); C(); D();}
  //       function C(){B(); A();}; function D(){A();}; function E(){C()}; A();

  const PoisonNames: seq<Option<string>> := [None, Some("A"), Some("B"), Some("C"), Some("D"), Some("E")]

  const PoisonCalls: seq<set<string>> :=
    [{"A"}, {}, {"ExternalFunction", "C", "D"}, {"B", "A"}, {"A"}, {"C"}]

  lemma PoisonNamesDistinct()
    ensures DistinctNames(PoisonNames)
  {
  }

  ghost predicate PoisonShape(p: Program) {
    IndexedNames(p) == PoisonNames && CallTable(p) == PoisonCalls
  }

  /** The poisoning test's source; node numbers are in source order. */
  const PoisonProgram: Program := Program([
    FuncDecl(1, "A", []),
    FuncDecl(2, "B", [Call(3, "ExternalFunction", [Value]), Call(4, "C", []), Call(5, "D", [])]),
    FuncDecl(6, "C", [Call(7, "B", []), Call(8, "A", [])]),
    FuncDecl(9, "D", [Call(10, "A", [])]),
    FuncDecl(11, "E", [Call(12, "C", [])]),
    Call(13, "A", [])])

  lemma PoisonBodyB()
    ensures CallNamesOf(PoisonProgram.stmts[1].body) == {"ExternalFunction", "C", "D"}
  {
    var d := [Call(5, "D", [])];
    var cd := [Call(4, "C", [])] + d;
    CallNamesOfCons(Call(5, "D", []), []);
    assert d == [Call(5, "D", [])] + [];
    CallNamesOfCons(Call(4, "C", []), d);
    CallNamesOfCons(Call(3, "ExternalFunction", [Value]), cd);
    assert PoisonProgram.stmts[1].body == [Call(3, "ExternalFunction", [Value])] + cd;
  }

  lemma PoisonBodyC()
    ensures CallNamesOf(PoisonProgram.stmts[2].body) == {"B", "A"}
  {
    var a := [Call(8, "A", [])];
    CallNamesOfCons(Call(8, "A", []), []);
    assert a == [Call(8, "A", [])] + [];
    CallNamesOfCons(Call(7, "B", []), a);
    assert PoisonProgram.stmts[2].body == [Call(7, "B", [])] + a;
  }

  lemma PoisonProgramFlat()
    ensures FlatProgram(PoisonProgram.stmts, 5)
    ensures CallNamesOf(PoisonProgram.stmts[5..]) == {"A"}
  {
    var ss := PoisonProgram.stmts;
    assert ss[5..] == [Call(13, "A", [])];
    CallNamesOfCons(Call(13, "A", []), []);
  }

  lemma PoisonSingleBodies()
    ensures CallNamesOf(PoisonProgram.stmts[3].body) == {"A"}
    ensures CallNamesOf(PoisonProgram.stmts[4].body) == {"C"}
  {
    CallNamesOfCons(Call(10, "A", []), []);
    CallNamesOfCons(Call(12, "C", []), []);
  }

  /** The poisoning test's source has the names and the call table above. */
  lemma PoisonProgramShape()
    ensures PoisonShape(PoisonProgram)
  {
    PoisonProgramFlat();
    PoisonSingleBodies();
    PoisonBodyB();
    PoisonBodyC();
    FlatProgramTables(PoisonProgram, 5, PoisonNames, PoisonCalls);
  }

  /** Only B's body calls through a name the externs declare. */
  lemma PoisonExternCalls()
    ensures forall f :: 0 <= f < |PoisonCalls| ==> (PoisonCalls[f] * SharedExterns != {} <==> f == 2)
  {
    assert "ExternalFunction" in PoisonCalls[2] * SharedExterns;
  }

  /** Only B, C and E call B, C or E. */
  lemma PoisonCallersOfBCE()
    ensures forall f :: 0 <= f < |PoisonCalls| && PoisonCalls[f] * {"B", "C", "E"} != {} ==> f in {2, 3, 5}
  {
  }

  lemma PoisonCalledByBCE(t: nat, f: nat)
    requires t in {2, 3, 5} && f < |PoisonCalls| && PoisonNames[t].Some? && PoisonNames[t].value in PoisonCalls[f]
    ensures f in {2, 3, 5}
  {
    PoisonCallersOfBCE();
    assert PoisonNames[t].value in PoisonCalls[f] * {"B", "C", "E"};
  }

  /** B, C and E call each other (C calls B, E calls C), never an entry outside them. */
  lemma PoisonClosure(edges: seq<Edge>, c: nat, d: nat)
    requires Closed({2, 3, 5}, edges) && Edge(2, c, 3) in edges && Edge(3, d, 5) in edges
    ensures Closure({2}, edges) == {2, 3, 5}
  {
    ClosureIsLeast({2}, edges, {2, 3, 5});
    ClosureContainsSeed({2}, edges);
    ClosureIsClosed({2}, edges);
  }

  lemma PoisonSeedsOfNameGraph(g: CallGraph)
    requires NameGraph(g, PoisonNames, PoisonCalls, SharedExterns)
    ensures ExternCallers(g) == {2}
  {
    PoisonExternCalls();
  }

  lemma PoisonClosedOfNameGraph(g: CallGraph)
    requires NameGraph(g, PoisonNames, PoisonCalls, SharedExterns)
    ensures Closed({2, 3, 5}, BackwardDirectedGraph(g).edges)
  {
    forall e | e in BackwardDirectedGraph(g).edges && e.source in {2, 3, 5}
      ensures e.destination in {2, 3, 5}
    {
      NameGraphBackwardEdgeNames(g, PoisonNames, PoisonCalls, SharedExterns, e);
      PoisonCalledByBCE(e.source, e.destination);
    }
  }

  /** A backward edge leads from t to a function whose body calls through t's name. */
  lemma NameGraphBackwardEdgeNames(g: CallGraph, names: seq<Option<string>>, calls: seq<set<string>>, externs: set<string>, e: Edge)
    requires NameGraph(g, names, calls, externs)
    requires e in BackwardDirectedGraph(g).edges
    ensures e.destination < |calls| && 1 <= e.source < |names|
    ensures names[e.source].Some? && names[e.source].value in calls[e.destination]
  {
    assert e.source in g.callsites[e.callsite].knownTargets by {
      var k :| 0 <= k < |g.targeting[e.source]| && g.targeting[e.source][k] == e.callsite;
    }
    assert Reversed(e) in ForwardDirectedGraph(g).edges;
  }

  /** There is a backward edge from t to f when f calls through t's name. */
  lemma NameGraphBackwardEdge(g: CallGraph, names: seq<Option<string>>, calls: seq<set<string>>, externs: set<string>, t: nat, f: nat)
    requires NameGraph(g, names, calls, externs)
    requires 1 <= t < |names| && f < |calls| && names[t].Some? && names[t].value in calls[f]
    ensures exists c :: Edge(t, c, f) in BackwardDirectedGraph(g).edges
  {
    var c :| Edge(f, c, t) in ForwardDirectedGraph(g).edges;
    ForwardEdgeReversed(g, Edge(f, c, t));
  }

  /**
   * Poisoning propagated from the extern callers over the backward view
   * reaches exactly B, C and E.
   */
  lemma PoisoningOfNameGraph(g: CallGraph)
    requires NameGraph(g, PoisonNames, PoisonCalls, SharedExterns)
    ensures Closure(ExternCallers(g), BackwardDirectedGraph(g).edges) == {2, 3, 5}
  {
    PoisonSeedsOfNameGraph(g);
    PoisonClosedOfNameGraph(g);
    NameGraphBackwardEdge(g, PoisonNames, PoisonCalls, SharedExterns, 2, 3);
    NameGraphBackwardEdge(g, PoisonNames, PoisonCalls, SharedExterns, 3, 5);
    var edges := BackwardDirectedGraph(g).edges;
    var c :| Edge(2, c, 3) in edges;
    var d :| Edge(3, d, 5) in edges;
    PoisonClosure(edges, c, d);
  }

  /** Every program of this shape builds the poisoning name graph. */
  lemma PoisonNameGraph(p: Program, forward: bool, backward: bool)
    requires PoisonShape(p)
    ensures NameGraph(Build(p, SharedExterns, forward, backward), PoisonNames, PoisonCalls, SharedExterns)
  {
    BuildNameGraph(p, SharedExterns, forward, backward);
  }

  /** B, C and E are each the one function with that name. */
  lemma PoisonUniqueNames(g: CallGraph)
    requires NameGraph(g, PoisonNames, PoisonCalls, SharedExterns)
    ensures FunctionsWithName(g.functions, Some("B")) == [2] && UniqueFunctionWithName(g, Some("B")) == 2
    ensures FunctionsWithName(g.functions, Some("C")) == [3] && UniqueFunctionWithName(g, Some("C")) == 3
    ensures FunctionsWithName(g.functions, Some("E")) == [5] && UniqueFunctionWithName(g, Some("E")) == 5
  {
    PoisonNamesDistinct();
    UniqueName(g, PoisonNames, PoisonCalls, SharedExterns, 2);
    UniqueName(g, PoisonNames, PoisonCalls, SharedExterns, 3);
    UniqueName(g, PoisonNames, PoisonCalls, SharedExterns, 5);
  }

  lemma ThreeFunctions(a: nat, b: nat, c: nat)
    requires a != b && b != c && a != c
    ensures |{a, b, c}| == 3
  {
    assert {a, b, c} == {a, b} + {c};
  }

  /** What the poisoning test checks: three functions poisoned, the ones named B, C and E. */
  lemma PoisoningResult(g: CallGraph)
    requires NameGraph(g, PoisonNames, PoisonCalls, SharedExterns)
    ensures var poisoned := Closure(ExternCallers(g), BackwardDirectedGraph(g).edges);
            && |poisoned| == 3
            && FunctionsWithName(g.functions, Some("B")) == [2] && UniqueFunctionWithName(g, Some("B")) in poisoned
            && FunctionsWithName(g.functions, Some("C")) == [3] && UniqueFunctionWithName(g, Some("C")) in poisoned
            && FunctionsWithName(g.functions, Some("E")) == [5] && UniqueFunctionWithName(g, Some("E")) in poisoned
  {
    PoisoningOfNameGraph(g);
    PoisonUniqueNames(g);
    ThreeFunctions(2, 3, 5);
  }

  /**
   * The poisoning test, on a graph built with either capability: seed with
   * the extern callers, propagate over the backward view. The poisoned
   * functions are the three named B, C and E.
   */
  method PoisoningTest(p: Program, forward: bool) returns (g: CallGraph, poisoned: set<nat>)
    requires PoisonShape(p)
    ensures g == Build(p, SharedExterns, forward, !forward)
    ensures |poisoned| == 3
    ensures FunctionsWithName(g.functions, Some("B")) == [2] && UniqueFunctionWithName(g, Some("B")) in poisoned
    ensures FunctionsWithName(g.functions, Some("C")) == [3] && UniqueFunctionWithName(g, Some("C")) in poisoned
    ensures FunctionsWithName(g.functions, Some("E")) == [5] && UniqueFunctionWithName(g, Some("E")) in poisoned
  {
    var fixture := new CallGraphFixture();
    if forward {
      g := fixture.CompileAndRunForward(p);
    } else {
      g := fixture.CompileAndRunBackward(p);
    }
    PoisonNameGraph(p, forward, !forward);
    PoisoningResult(g);
    poisoned := PoisonedFunctions(g);
  }

  // ----- reachability: function A(){B()}; function B(){C();D()}; function C(){B()};
  //       function D(){}; function E(){C()}; function X(){Y()}; function Y(){Z()};
  //       function Z(){}; B();

  const ReachNames: seq<Option<string>> :=
    [None, Some("A"), Some("B"), Some("C"), Some("D"), Some("E"), Some("X"), Some("Y"), Some("Z")]

  const ReachCalls: seq<set<string>> :=
    [{"B"}, {"B"}, {"C", "D"}, {"B"}, {}, {"C"}, {"Y"}, {"Z"}, {}]

  /** Main, B, C, D, X, Y and Z. */
  const Reached: set<nat> := {0, 2, 3, 4, 6, 7, 8}

  lemma ReachNamesDistinct()
    ensures DistinctNames(ReachNames)
  {
  }

  ghost predicate ReachShape(p: Program) {
    IndexedNames(p) == ReachNames && CallTable(p) == ReachCalls
  }

  /** The reachability test's source; node numbers are in source order. */
  const ReachProgram: Program := Program([
    FuncDecl(1, "A", [Call(2, "B", [])]),
    FuncDecl(3, "B", [Call(4, "C", []), Call(5, "D", [])]),
    FuncDecl(6, "C", [Call(7, "B", [])]),
    FuncDecl(8, "D", []),
    FuncDecl(9, "E", [Call(10, "C", [])]),
    FuncDecl(11, "X", [Call(12, "Y", [])]),
    FuncDecl(13, "Y", [Call(14, "Z", [])]),
    FuncDecl(15, "Z", []),
    Call(16, "B", [])])

  lemma ReachBodyB()
    ensures CallNamesOf(ReachProgram.stmts[1].body) == {"C", "D"}
  {
    var d := [Call(5, "D", [])];
    CallNamesOfCons(Call(5, "D", []), []);
    assert d == [Call(5, "D", [])] + [];
    CallNamesOfCons(Call(4, "C", []), d);
    assert ReachProgram.stmts[1].body == [Call(4, "C", [])] + d;
  }

  lemma ReachProgramFlat()
    ensures FlatProgram(ReachProgram.stmts, 8)
    ensures CallNamesOf(ReachProgram.stmts[8..]) == {"B"}
  {
    var ss := ReachProgram.stmts;
    assert ss[8..] == [Call(16, "B", [])];
    CallNamesOfCons(Call(16, "B", []), []);
  }

  lemma ReachSingleBodies()
    ensures CallNamesOf(ReachProgram.stmts[0].body) == {"B"}
    ensures CallNamesOf(ReachProgram.stmts[2].body) == {"B"}
    ensures CallNamesOf(ReachProgram.stmts[4].body) == {"C"}
    ensures CallNamesOf(ReachProgram.stmts[5].body) == {"Y"}
    ensures CallNamesOf(ReachProgram.stmts[6].body) == {"Z"}
  {
    CallNamesOfCons(Call(2, "B", []), []);
    CallNamesOfCons(Call(7, "B", []), []);
    CallNamesOfCons(Call(10, "C", []), []);
    CallNamesOfCons(Call(12, "Y", []), []);
    CallNamesOfCons(Call(14, "Z", []), []);
  }

  /** The reachability test's source has the names and the call table above. */
  lemma ReachProgramShape()
    ensures ReachShape(ReachProgram)
  {
    ReachProgramFlat();
    ReachSingleBodies();
    ReachBodyB();
    FlatProgramTables(ReachProgram, 8, ReachNames, ReachCalls);
  }

  /** What main, B, C, D, X, Y and Z call is main, B, C, D, X, Y or Z. */
  lemma ReachCalledFromReached(f: nat, t: nat)
    requires f in Reached && 1 <= t < |ReachNames| && ReachNames[t].Some? && ReachNames[t].value in ReachCalls[f]
    ensures t in Reached
  {
  }

  lemma ReachedSize()
    ensures |Reached| == 7 && 1 !in Reached && 5 !in Reached
  {
    assert Reached == {0, 2, 3, 4} + {6, 7, 8};
    assert |{0, 2, 3, 4}| == 4 by {
      assert {0, 2, 3, 4} == {0, 2} + {3, 4};
    }
    assert |{6, 7, 8}| == 3 by {
      assert {6, 7, 8} == {6, 7} + {8};
    }
  }

  /** Main, B, C, D, X, Y and Z form a set no forward edge leaves, reached from main and X. */
  lemma ReachClosure(edges: seq<Edge>)
    requires Closed(Reached, edges)
    requires (exists c :: Edge(0, c, 2) in edges) && (exists c :: Edge(2, c, 3) in edges)
    requires (exists c :: Edge(2, c, 4) in edges)
    requires (exists c :: Edge(6, c, 7) in edges) && (exists c :: Edge(7, c, 8) in edges)
    ensures Closure({0, 6}, edges) == Reached
  {
    ClosureIsLeast({0, 6}, edges, Reached);
    ClosureContainsSeed({0, 6}, edges);
    ClosureIsClosed({0, 6}, edges);
  }

  lemma ReachClosedOfNameGraph(g: CallGraph)
    requires NameGraph(g, ReachNames, ReachCalls, SharedExterns)
    ensures Closed(Reached, ForwardDirectedGraph(g).edges)
  {
    forall e | e in ForwardDirectedGraph(g).edges && e.source in Reached
      ensures e.destination in Reached
    {
      ReachCalledFromReached(e.source, e.destination);
    }
  }

  /** Main calls B, B calls C and D, X calls Y, Y calls Z. */
  lemma ReachEdgesOfNameGraph(g: CallGraph)
    requires NameGraph(g, ReachNames, ReachCalls, SharedExterns)
    ensures var edges := ForwardDirectedGraph(g).edges;
            && (exists c :: Edge(0, c, 2) in edges) && (exists c :: Edge(2, c, 3) in edges)
            && (exists c :: Edge(2, c, 4) in edges)
            && (exists c :: Edge(6, c, 7) in edges) && (exists c :: Edge(7, c, 8) in edges)
  {
    assert ReachNames[2].value in ReachCalls[0];
    assert ReachNames[3].value in ReachCalls[2];
    assert ReachNames[4].value in ReachCalls[2];
    assert ReachNames[7].value in ReachCalls[6];
    assert ReachNames[8].value in ReachCalls[7];
  }

  /**
   * Reachability propagated from main and X over the forward view reaches
   * exactly main, B, C, D, X, Y and Z.
   */
  lemma ReachabilityOfNameGraph(g: CallGraph)
    requires NameGraph(g, ReachNames, ReachCalls, SharedExterns)
    ensures Closure({MainFunction(g), 6}, ForwardDirectedGraph(g).edges) == Reached
  {
    ReachClosedOfNameGraph(g);
    ReachEdgesOfNameGraph(g);
    ReachClosure(ForwardDirectedGraph(g).edges);
  }

  /** A and B are each the one function with that name. */
  lemma ReachUniqueNamesAB(g: CallGraph)
    requires NameGraph(g, ReachNames, ReachCalls, SharedExterns)
    ensures FunctionsWithName(g.functions, Some("A")) == [1] && UniqueFunctionWithName(g, Some("A")) == 1
    ensures FunctionsWithName(g.functions, Some("B")) == [2] && UniqueFunctionWithName(g, Some("B")) == 2
  {
    ReachNamesDistinct();
    UniqueName(g, ReachNames, ReachCalls, SharedExterns, 1);
    UniqueName(g, ReachNames, ReachCalls, SharedExterns, 2);
  }

  /** C and D are each the one function with that name. */
  lemma ReachUniqueNamesCD(g: CallGraph)
    requires NameGraph(g, ReachNames, ReachCalls, SharedExterns)
    ensures FunctionsWithName(g.functions, Some("C")) == [3] && UniqueFunctionWithName(g, Some("C")) == 3
    ensures FunctionsWithName(g.functions, Some("D")) == [4] && UniqueFunctionWithName(g, Some("D")) == 4
  {
    ReachNamesDistinct();
    UniqueName(g, ReachNames, ReachCalls, SharedExterns, 3);
    UniqueName(g, ReachNames, ReachCalls, SharedExterns, 4);
  }

  /** E and X are each the one function with that name. */
  lemma ReachUniqueNamesEX(g: CallGraph)
    requires NameGraph(g, ReachNames, ReachCalls, SharedExterns)
    ensures FunctionsWithName(g.functions, Some("E")) == [5] && UniqueFunctionWithName(g, Some("E")) == 5
    ensures FunctionsWithName(g.functions, Some("X")) == [6] && UniqueFunctionWithName(g, Some("X")) == 6
  {
    ReachNamesDistinct();
    UniqueName(g, ReachNames, ReachCalls, SharedExterns, 5);
    UniqueName(g, ReachNames, ReachCalls, SharedExterns, 6);
  }

  /** Y and Z are each the one function with that name. */
  lemma ReachUniqueNamesYZ(g: CallGraph)
    requires NameGraph(g, ReachNames, ReachCalls, SharedExterns)
    ensures FunctionsWithName(g.functions, Some("Y")) == [7] && UniqueFunctionWithName(g, Some("Y")) == 7
    ensures FunctionsWithName(g.functions, Some("Z")) == [8] && UniqueFunctionWithName(g, Some("Z")) == 8
  {
    ReachNamesDistinct();
    UniqueName(g, ReachNames, ReachCalls, SharedExterns, 7);
    UniqueName(g, ReachNames, ReachCalls, SharedExterns, 8);
  }

  /** Every program of this shape builds the reachability name graph. */
  lemma ReachNameGraph(p: Program, forward: bool, backward: bool)
    requires ReachShape(p)
    ensures NameGraph(Build(p, SharedExterns, forward, backward), ReachNames, ReachCalls, SharedExterns)
  {
    BuildNameGraph(p, SharedExterns, forward, backward);
  }

  /**
   * What the reachability test checks: seven functions reached, main and the
   * ones named B, C, D, X, Y and Z; the ones named A and E are not.
   */
  lemma ReachabilityResult(g: CallGraph)
    requires NameGraph(g, ReachNames, ReachCalls, SharedExterns)
    ensures FunctionsWithName(g.functions, Some("X")) == [6]
    ensures var reachable := Closure({MainFunction(g), UniqueFunctionWithName(g, Some("X"))}, ForwardDirectedGraph(g).edges);
            && |reachable| == 7 && MainFunction(g) in reachable
            && FunctionsWithName(g.functions, Some("B")) == [2] && UniqueFunctionWithName(g, Some("B")) in reachable
            && FunctionsWithName(g.functions, Some("C")) == [3] && UniqueFunctionWithName(g, Some("C")) in reachable
            && FunctionsWithName(g.functions, Some("D")) == [4] && UniqueFunctionWithName(g, Some("D")) in reachable
            && UniqueFunctionWithName(g, Some("X")) in reachable
            && FunctionsWithName(g.functions, Some("Y")) == [7] && UniqueFunctionWithName(g, Some("Y")) in reachable
            && FunctionsWithName(g.functions, Some("Z")) == [8] && UniqueFunctionWithName(g, Some("Z")) in reachable
            && FunctionsWithName(g.functions, Some("A")) == [1] && UniqueFunctionWithName(g, Some("A")) !in reachable
            && FunctionsWithName(g.functions, Some("E")) == [5] && UniqueFunctionWithName(g, Some("E")) !in reachable
  {
    ReachUniqueNamesAB(g);
    ReachUniqueNamesCD(g);
    ReachUniqueNamesEX(g);
    ReachUniqueNamesYZ(g);
    ReachabilityOfNameGraph(g);
    ReachedSize();
  }

  /**
   * The reachability test, on a graph built with either capability: seed with
   * main and X, propagate over the forward view.
   */
  method ReachabilityTest(p: Program, forward: bool) returns (g: CallGraph, reachable: set<nat>)
    requires ReachShape(p)
    ensures g == Build(p, SharedExterns, forward, !forward)
    ensures WellFormed(g) && FunctionsWithName(g.functions, Some("X")) == [6]
    ensures reachable == Closure({MainFunction(g), UniqueFunctionWithName(g, Some("X"))}, ForwardDirectedGraph(g).edges)
    ensures |reachable| == 7 && MainFunction(g) in reachable
    ensures FunctionsWithName(g.functions, Some("B")) == [2] && UniqueFunctionWithName(g, Some("B")) in reachable
    ensures FunctionsWithName(g.functions, Some("C")) == [3] && UniqueFunctionWithName(g, Some("C")) in reachable
    ensures FunctionsWithName(g.functions, Some("D")) == [4] && UniqueFunctionWithName(g, Some("D")) in reachable
    ensures UniqueFunctionWithName(g, Some("X")) in reachable
    ensures FunctionsWithName(g.functions, Some("Y")) == [7] && UniqueFunctionWithName(g, Some("Y")) in reachable
    ensures FunctionsWithName(g.functions, Some("Z")) == [8] && UniqueFunctionWithName(g, Some("Z")) in reachable
    ensures FunctionsWithName(g.functions, Some("A")) == [1] && UniqueFunctionWithName(g, Some("A")) !in reachable
    ensures FunctionsWithName(g.functions, Some("E")) == [5] && UniqueFunctionWithName(g, Some("E")) !in reachable
  {
    var fixture := new CallGraphFixture();
    if forward {
      g := fixture.CompileAndRunForward(p);
    } else {
      g := fixture.CompileAndRunBackward(p);
    }
    ReachNameGraph(p, forward, !forward);
    ReachabilityResult(g);
    var x := UniqueFunctionWithName(g, Some("X"));
    reachable := ReachableFunctions(g, x);
  }
}
