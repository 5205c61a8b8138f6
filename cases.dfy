/**
 * Two single-purpose tests of the call graph, on their own source programs:
 * the number of call sites of a program with a nested anonymous literal, and
 * the call sites possibly targeting each function of a small program.
 */
module CallGraphCases {
  import opened Wrappers
  import opened Ast
  import opened Discovery
  import opened CallGraphs
  import opened CallGraphTests
  import opened CallGraphScenarios

  // ----- function A() {}; var B = function() { (function () { A() })() }; A(); B(); -----

  const MultipleProgram: Program := Program([
    FuncDecl(1, "A", []),
    Var("B", Some(Func(2, "", [ExprStmt(Invoke(CallOp, 3, Func(4, "", [Call(5, "A", [])]), []))]))),
    Call(6, "A", []),
    Call(7, "B", [])])

  lemma MultipleInvocations()
    ensures InvocationCountInStmts(MultipleProgram.stmts) == 4
  {
    var ss := MultipleProgram.stmts;
    assert InvocationCountInStmt(ss[1]) == 2;
    assert InvocationCountInStmts(ss[3..]) == 1;
    assert InvocationCountInStmts(ss[2..]) == 2;
    assert InvocationCountInStmts(ss[1..]) == 4;
  }

  /** The program has four call sites: the global two, the call of the inner literal, and the call inside it. */
  lemma MultipleCallsites(forward: bool, backward: bool)
    ensures |Build(MultipleProgram, SharedExterns, forward, backward).callsites| == 4
  {
    BuildAllCallsites(MultipleProgram, SharedExterns, forward, backward);
    MultipleInvocations();
  }

  // ----- function A(){B()}; function B(){C();C();}; function C(){C()}; A(); -----

  const TargetProgram: Program := Program([
    FuncDecl(1, "A", [Call(2, "B", [])]),
    FuncDecl(3, "B", [Call(4, "C", []), Call(5, "C", [])]),
    FuncDecl(6, "C", [Call(7, "C", [])]),
    Call(8, "A", [])])

  const TargetNames: seq<Option<string>> := [None, Some("A"), Some("B"), Some("C")]

  const TargetCalls: seq<set<string>> := [{"A"}, {"B"}, {"C"}, {"C"}]

  lemma TargetProgramFlat()
    ensures FlatProgram(TargetProgram.stmts, 3)
    ensures CallNamesOf(TargetProgram.stmts[3..]) == {"A"}
  {
    assert TargetProgram.stmts[3..] == [Call(8, "A", [])];
    CallNamesOfCons(Call(8, "A", []), []);
  }

  lemma TargetBodies()
    ensures CallNamesOf(TargetProgram.stmts[0].body) == {"B"}
    ensures CallNamesOf(TargetProgram.stmts[1].body) == {"C"}
    ensures CallNamesOf(TargetProgram.stmts[2].body) == {"C"}
  {
    CallNamesOfCons(Call(2, "B", []), []);
    CallNamesOfCons(Call(5, "C", []), []);
    CallNamesOfCons(Call(4, "C", []), [Call(5, "C", [])]);
    assert TargetProgram.stmts[1].body == [Call(4, "C", [])] + [Call(5, "C", [])];
    CallNamesOfCons(Call(7, "C", []), []);
  }

  /**
   * What the call graph sees of the program: the names, the call table, and
   * the callee of each statement of each entry's body.
   */
  ghost predicate TargetShape(p: Program) {
    && FlatProgram(p.stmts, 3)
    && IndexedNames(p) == TargetNames && CallTable(p) == TargetCalls
    && |FlatBody(p.stmts, 3, 0)| == 1 && FlatBody(p.stmts, 3, 0)[0].expr.callee == Name("A")
    && |FlatBody(p.stmts, 3, 1)| == 1 && FlatBody(p.stmts, 3, 1)[0].expr.callee == Name("B")
    && |FlatBody(p.stmts, 3, 2)| == 2 && FlatBody(p.stmts, 3, 2)[0].expr.callee == Name("C")
    && FlatBody(p.stmts, 3, 2)[1].expr.callee == Name("C")
    && |FlatBody(p.stmts, 3, 3)| == 1 && FlatBody(p.stmts, 3, 3)[0].expr.callee == Name("C")
  }

  lemma TargetProgramTables()
    ensures IndexedNames(TargetProgram) == TargetNames && CallTable(TargetProgram) == TargetCalls
  {
    TargetProgramFlat();
    TargetBodies();
    FlatProgramTables(TargetProgram, 3, TargetNames, TargetCalls);
  }

  /** The test's source has the shape above. */
  lemma TargetProgramShape()
    ensures TargetShape(TargetProgram)
  {
    TargetProgramFlat();
    TargetProgramTables();
    assert FlatBody(TargetProgram.stmts, 3, 0) == [Call(8, "A", [])];
  }

  lemma TargetNamesDistinct()
    ensures DistinctNames(TargetNames)
  {
  }

  /** A, B and C are each the one function with that name. */
  lemma TargetUniqueNamesOfNameGraph(g: CallGraph)
    requires NameGraph(g, TargetNames, TargetCalls, SharedExterns)
    ensures FunctionsWithName(g.functions, Some("A")) == [1] && UniqueFunctionWithName(g, Some("A")) == 1
    ensures FunctionsWithName(g.functions, Some("B")) == [2] && UniqueFunctionWithName(g, Some("B")) == 2
    ensures FunctionsWithName(g.functions, Some("C")) == [3] && UniqueFunctionWithName(g, Some("C")) == 3
  {
    TargetNamesDistinct();
    UniqueName(g, TargetNames, TargetCalls, SharedExterns, 1);
    UniqueName(g, TargetNames, TargetCalls, SharedExterns, 2);
    UniqueName(g, TargetNames, TargetCalls, SharedExterns, 3);
  }

  lemma TargetNameGraph(p: Program, forward: bool, backward: bool)
    requires TargetShape(p)
    ensures NameGraph(Build(p, SharedExterns, forward, backward), TargetNames, TargetCalls, SharedExterns)
  {
    BuildNameGraph(p, SharedExterns, forward, backward);
  }

  /** Call site c targets function t exactly when it calls through t's name. */
  lemma TargetResolution(p: Program, forward: bool, backward: bool, c: nat, t: nat)
    requires TargetShape(p)
    requires c < |Build(p, SharedExterns, forward, backward).callsites| && t < |TargetNames|
    ensures var g := Build(p, SharedExterns, forward, backward);
            t in g.callsites[c].knownTargets <==> 1 <= t && QualifiedName(g.callsites[c].target) == TargetNames[t]
  {
    BuildNames(p, SharedExterns, forward, backward);
    BuildResolution(p, SharedExterns, forward, backward, c);
  }

  /** Main calls A, A calls B, and B and C call C: what each call site calls, by its containing function. */
  lemma TargetCallee(p: Program, forward: bool, backward: bool, c: nat)
    requires TargetShape(p)
    requires c < |Build(p, SharedExterns, forward, backward).callsites|
    ensures var cs := Build(p, SharedExterns, forward, backward).callsites[c];
            && cs.containingFunction < 4
            && cs.target == Name(if cs.containingFunction == 0 then "A"
                                 else if cs.containingFunction == 1 then "B"
                                 else "C")
  {
    FlatCallsiteCallee(p, 3, SharedExterns, forward, backward, c);
  }

  /** Which function each call site targets, by its containing function. */
  lemma TargetedByCaller(p: Program, forward: bool, backward: bool, c: nat, t: nat)
    requires TargetShape(p)
    requires c < |Build(p, SharedExterns, forward, backward).callsites| && t < 4
    ensures var cs := Build(p, SharedExterns, forward, backward).callsites[c];
            t in cs.knownTargets <==> (t == 1 && cs.containingFunction == 0) ||
                                      (t == 2 && cs.containingFunction == 1) ||
                                      (t == 3 && cs.containingFunction >= 2)
  {
    TargetResolution(p, forward, backward, c, t);
    TargetCallee(p, forward, backward, c);
  }

  /**
   * The call graph of the program at the level of call sites: four
   * functions listing one, one, two and one call sites, and which function
   * each call site targets.
   */
  ghost predicate TargetGraph(g: CallGraph) {
    && NameGraph(g, TargetNames, TargetCalls, SharedExterns)
    && WellFormed(g) && |g.functions| == 4
    && |g.functions[0].callsitesInFunction| == 1 && |g.functions[1].callsitesInFunction| == 1
    && |g.functions[2].callsitesInFunction| == 2 && |g.functions[3].callsitesInFunction| == 1
    && g.functions[2].callsitesInFunction[0] != g.functions[2].callsitesInFunction[1]
    && forall c, t :: 0 <= c < |g.callsites| && 0 <= t < 4 ==>
         (t in g.callsites[c].knownTargets <==> (t == 1 && g.callsites[c].containingFunction == 0) ||
                                                 (t == 2 && g.callsites[c].containingFunction == 1) ||
                                                 (t == 3 && g.callsites[c].containingFunction >= 2))
  }

  lemma TargetListed(p: Program, forward: bool, backward: bool)
    requires TargetShape(p)
    ensures var g := Build(p, SharedExterns, forward, backward);
            && |g.functions| == 4
            && |g.functions[0].callsitesInFunction| == 1 && |g.functions[1].callsitesInFunction| == 1
            && |g.functions[2].callsitesInFunction| == 2 && |g.functions[3].callsitesInFunction| == 1
            && g.functions[2].callsitesInFunction[0] != g.functions[2].callsitesInFunction[1]
  {
    BuildNames(p, SharedExterns, forward, backward);
    FlatListedCount(p, 3, SharedExterns, forward, backward, 0);
    FlatListedCount(p, 3, SharedExterns, forward, backward, 1);
    FlatListedCount(p, 3, SharedExterns, forward, backward, 2);
    FlatListedCount(p, 3, SharedExterns, forward, backward, 3);
    BuildParts(p, SharedExterns, forward, backward);
    FunctionCallsites(p, 2);
  }

  lemma TargetGraphOfBuild(p: Program, forward: bool, backward: bool)
    requires TargetShape(p)
    ensures TargetGraph(Build(p, SharedExterns, forward, backward))
  {
    var g := Build(p, SharedExterns, forward, backward);
    TargetNameGraph(p, forward, backward);
    BuildWellFormed(p, SharedExterns, forward, backward);
    TargetListed(p, forward, backward);
    forall c, t | 0 <= c < |g.callsites| && 0 <= t < 4
      ensures t in g.callsites[c].knownTargets <==> (t == 1 && g.callsites[c].containingFunction == 0) ||
                                                     (t == 2 && g.callsites[c].containingFunction == 1) ||
                                                     (t == 3 && g.callsites[c].containingFunction >= 2)
    {
      TargetedByCaller(p, forward, backward, c, t);
    }
  }

  /** The test's own source builds such a graph, whichever capabilities are chosen. */
  lemma TargetProgramGraph(forward: bool, backward: bool)
    ensures TargetGraph(Build(TargetProgram, SharedExterns, forward, backward))
  {
    TargetProgramShape();
    TargetGraphOfBuild(TargetProgram, forward, backward);
  }

  /** Nothing targets main. */
  lemma NothingTargetsMain(g: CallGraph)
    requires TargetGraph(g) && g.backward
    ensures CallsitesPossiblyTargetingFunction(g, MainFunction(g)) == Success({})
  {
    var r := CallsitesPossiblyTargetingFunction(g, 0).value;
    assert forall c :: 0 <= c < |g.callsites| ==> 0 !in g.callsites[c].knownTargets;
    assert r == {};
  }

  /** The one call site of function `caller` is the only one targeting function `callee`. */
  lemma TargetedOnlyFrom(g: CallGraph, caller: nat, callee: nat)
    requires TargetGraph(g) && g.backward
    requires (caller == 0 && callee == 1) || (caller == 1 && callee == 2)
    ensures var r := CallsitesPossiblyTargetingFunction(g, callee);
            && r == Success({g.functions[caller].callsitesInFunction[0]})
            && g.callsites[g.functions[caller].callsitesInFunction[0]].containingFunction == caller
  {
    var mine := g.functions[caller].callsitesInFunction;
    var r := CallsitesPossiblyTargetingFunction(g, callee).value;
    forall c ensures c in r <==> c == mine[0] {
      if c in r {
        assert callee in g.callsites[c].knownTargets;
        assert c in g.functions[g.callsites[c].containingFunction].callsitesInFunction;
        var k :| 0 <= k < |mine| && mine[k] == c;
      }
      if c == mine[0] {
        assert g.callsites[c].containingFunction == caller;
        assert callee in g.callsites[c].knownTargets;
      }
    }
    assert r == {mine[0]};
  }

  /** The call sites targeting C are exactly the three listed by B and C. */
  lemma TargetedFromBAndC(g: CallGraph)
    requires TargetGraph(g) && g.backward
    ensures var r := CallsitesPossiblyTargetingFunction(g, 3);
            && r.Success?
            && (forall c :: c in r.value <==> c in g.functions[2].callsitesInFunction || c in g.functions[3].callsitesInFunction)
            && |r.value| == 3
  {
    var b := g.functions[2].callsitesInFunction;
    var c3 := g.functions[3].callsitesInFunction;
    var r := CallsitesPossiblyTargetingFunction(g, 3).value;
    forall c ensures c in r <==> c in b || c in c3 {
      if c in r {
        var f := g.callsites[c].containingFunction;
        assert c in g.functions[f].callsitesInFunction;
      }
    }
    assert r == {b[0], b[1], c3[0]} by {
      forall c ensures c in b || c in c3 <==> c == b[0] || c == b[1] || c == c3[0] {
        if c in b {
          var k :| 0 <= k < |b| && b[k] == c;
        }
      }
    }
    assert b[0] != c3[0] && b[1] != c3[0] by {
      assert g.callsites[b[0]].containingFunction == 2 && g.callsites[b[1]].containingFunction == 2;
      assert g.callsites[c3[0]].containingFunction == 3;
    }
    ThreeFunctions(b[0], b[1], c3[0]);
  }

  /**
   * The test, on a graph of the program that answers the backward query:
   * nothing targets main, only main's call site targets A, only A's targets
   * B, and the ones targeting C are the three of B and C.
   */
  lemma CallsitesPossiblyTargetingTest(g: CallGraph)
    requires TargetGraph(g) && g.backward
    ensures FunctionsWithName(g.functions, Some("A")) == [1] && UniqueFunctionWithName(g, Some("A")) == 1
    ensures FunctionsWithName(g.functions, Some("B")) == [2] && UniqueFunctionWithName(g, Some("B")) == 2
    ensures FunctionsWithName(g.functions, Some("C")) == [3] && UniqueFunctionWithName(g, Some("C")) == 3
    ensures CallsitesPossiblyTargetingFunction(g, MainFunction(g)) == Success({})
    ensures CallsitesPossiblyTargetingFunction(g, 1) == Success({g.functions[MainFunction(g)].callsitesInFunction[0]})
    ensures g.callsites[g.functions[MainFunction(g)].callsitesInFunction[0]].containingFunction == MainFunction(g)
    ensures CallsitesPossiblyTargetingFunction(g, 2) == Success({g.functions[1].callsitesInFunction[0]})
    ensures g.callsites[g.functions[1].callsitesInFunction[0]].containingFunction == 1
    ensures CallsitesPossiblyTargetingFunction(g, 3).Success?
    ensures |CallsitesPossiblyTargetingFunction(g, 3).value| == 3
    ensures forall s :: s in CallsitesPossiblyTargetingFunction(g, 3).value <==>
              s in g.functions[2].callsitesInFunction || s in g.functions[3].callsitesInFunction
  {
    TargetUniqueNamesOfNameGraph(g);
    NothingTargetsMain(g);
    TargetedOnlyFrom(g, 0, 1);
    TargetedOnlyFrom(g, 1, 2);
    TargetedFromBAndC(g);
  }

  /** On a graph built without the backward capability, asking which call sites target A fails. */
  lemma BackwardOpOnForwardGraph(g: CallGraph)
    requires TargetGraph(g) && !g.backward
    ensures FunctionsWithName(g.functions, Some("A")) == [1]
    ensures CallsitesPossiblyTargetingFunction(g, UniqueFunctionWithName(g, Some("A"))) == Failure(UnsupportedOperation)
  {
    TargetUniqueNamesOfNameGraph(g);
  }
}
