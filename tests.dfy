/**
 * The step-by-step logic of the call graph's test suite: the fixture that
 * builds a graph with the chosen capabilities, the seeding loops and the
 * propagation runs of the poisoning and reachability scenarios, and the
 * helper that lists the simple names call sites call through.
 */
module CallGraphTests {
  import opened Wrappers
  import opened Ast
  import opened Discovery
  import opened Names
  import opened CallGraphs
  import opened FixedPoint

  /** The names the shared externs declare: a function, a namespace and a property of it. */
  const SharedExterns: set<string> := {"ExternalFunction", "externalnamespace", "externalnamespace.prop"}

  /** The fixture: the capabilities of the next graph, and the graph last built. */
  class CallGraphFixture {
    var createForwardCallGraph: bool
    var createBackwardCallGraph: bool
    var currentProcessor: Option<CallGraph>

    constructor()
      ensures !createForwardCallGraph && !createBackwardCallGraph && currentProcessor.None?
    {
      createForwardCallGraph := false;
      createBackwardCallGraph := false;
      currentProcessor := None;
    }

    /** Builds the graph of a program with the capabilities the fields hold, and keeps it. */
    method RunPass(externs: set<string>, p: Program)
      modifies this
      ensures currentProcessor == Some(Build(p, externs, createForwardCallGraph, createBackwardCallGraph))
      ensures createForwardCallGraph == old(createForwardCallGraph)
      ensures createBackwardCallGraph == old(createBackwardCallGraph)
    {
      currentProcessor := Some(Build(p, externs, createForwardCallGraph, createBackwardCallGraph));
    }

    /** Records the capabilities, runs the pass and returns the graph it built. */
    method CompileAndRun(externs: set<string>, p: Program, forward: bool, backward: bool) returns (g: CallGraph)
      modifies this
      ensures createForwardCallGraph == forward && createBackwardCallGraph == backward
      ensures g == Build(p, externs, forward, backward) && currentProcessor == Some(g)
    {
      createBackwardCallGraph := backward;
      createForwardCallGraph := forward;
      RunPass(externs, p);
      g := currentProcessor.value;
    }

    method CompileAndRunForward(p: Program) returns (g: CallGraph)
      modifies this
      ensures g == Build(p, SharedExterns, true, false) && currentProcessor == Some(g)
      ensures g.forward && !g.backward
    {
      g := CompileAndRun(SharedExterns, p, true, false);
    }

    method CompileAndRunBackward(p: Program) returns (g: CallGraph)
      modifies this
      ensures g == Build(p, SharedExterns, false, true) && currentProcessor == Some(g)
      ensures !g.forward && g.backward
    {
      g := CompileAndRun(SharedExterns, p, false, true);
    }
  }

  // ----- seeding and propagation -----

  /** The functions containing a call site with an extern target. */
  function ExternCallers(g: CallGraph): set<nat> {
    set c | 0 <= c < |g.callsites| && g.callsites[c].hasExternTarget :: g.callsites[c].containingFunction
  }

  lemma ExternCallerCallsExternName(p: Program, externs: set<string>, forward: bool, backward: bool, f: nat)
    requires f in ExternCallers(Build(p, externs, forward, backward))
    ensures f < |Bodies(p)| && CalledNames(p, f) * externs != {}
  {
    var g := Build(p, externs, forward, backward);
    BuildWellFormed(p, externs, forward, backward);
    var c :| 0 <= c < |g.callsites| && g.callsites[c].hasExternTarget && g.callsites[c].containingFunction == f;
    var mine := g.functions[f].callsitesInFunction;
    assert c in mine;
    var k :| 0 <= k < |mine| && mine[k] == c;
    BuildCallsitesInFunction(p, externs, forward, backward, f);
    BuildResolution(p, externs, forward, backward, c);
    assert QualifiedName(g.callsites[c].target).value in CalledNames(p, f) * externs;
  }

  lemma ExternNameCallerIsExternCaller(p: Program, externs: set<string>, forward: bool, backward: bool, f: nat)
    requires f < |Bodies(p)| && CalledNames(p, f) * externs != {}
    ensures f in ExternCallers(Build(p, externs, forward, backward))
  {
    var g := Build(p, externs, forward, backward);
    var n :| n in CalledNames(p, f) * externs;
    var sites := SitesInStmts(Bodies(p)[f]);
    var k :| 0 <= k < |sites| && QualifiedName(sites[k].callee) == Some(n);
    BuildCallsiteOfFunction(p, externs, forward, backward, f, k);
    var c := g.functions[f].callsitesInFunction[k];
    BuildResolution(p, externs, forward, backward, c);
  }

  /**
   * The extern callers are the functions some own call site of which calls
   * through a name the externs declare.
   */
  lemma ExternCallersByName(p: Program, externs: set<string>, forward: bool, backward: bool, f: nat)
    ensures f in ExternCallers(Build(p, externs, forward, backward)) <==>
              f < |Bodies(p)| && CalledNames(p, f) * externs != {}
  {
    if f in ExternCallers(Build(p, externs, forward, backward)) {
      ExternCallerCallsExternName(p, externs, forward, backward, f);
    }
    if f < |Bodies(p)| && CalledNames(p, f) * externs != {} {
      ExternNameCallerIsExternCaller(p, externs, forward, backward, f);
    }
  }

  /** The seeding loop of the poisoning scenario: every function that calls an extern. */
  method PoisonSeeds(g: CallGraph) returns (poisoned: set<nat>)
    ensures poisoned == ExternCallers(g)
  {
    poisoned := {};
    var c := 0;
    while c < |g.callsites|
      invariant 0 <= c <= |g.callsites|
      invariant poisoned == set d | 0 <= d < c && g.callsites[d].hasExternTarget :: g.callsites[d].containingFunction
    {
      if g.callsites[c].hasExternTarget {
        poisoned := poisoned + {g.callsites[c].containingFunction};
      }
      c := c + 1;
    }
  }

  /**
   * Poisoning: seeded with the extern callers, propagated from callees to
   * callers over the backward view until nothing changes.
   */
  method PoisonedFunctions(g: CallGraph) returns (poisoned: set<nat>)
    requires WellFormed(g)
    ensures poisoned == Closure(ExternCallers(g), BackwardDirectedGraph(g).edges)
  {
    var graph := BackwardDirectedGraph(g);
    var seeds := PoisonSeeds(g);
    var cb := new PropagationCallback(seeds);
    ComputeFixedPoint(graph, cb);
    poisoned := cb.facts;
  }

  /**
   * Reachability: seeded with main and a second root, propagated from callers
   * to callees over the forward view until nothing changes.
   */
  method ReachableFunctions(g: CallGraph, root: nat) returns (reachable: set<nat>)
    requires WellFormed(g)
    ensures reachable == Closure({MainFunction(g), root}, ForwardDirectedGraph(g).edges)
  {
    var graph := ForwardDirectedGraph(g);
    var main := MainFunction(g);
    var cb := new PropagationCallback({});
    var _ := cb.Add(main);
    var _ := cb.Add(root);
    assert cb.facts == {main, root};
    ComputeFixedPoint(graph, cb);
    reachable := cb.facts;
  }

  // ----- the names of call sites' targets -----

  /** The failure raised on a call site whose target is not a simple name. */
  datatype IllegalState = IllegalState(message: string)

  /**
   * The simple names the given call sites call through, in order; fails as
   * soon as one target is anything other than a NAME.
   */
  method CallsiteTargetNames(g: CallGraph, sites: seq<nat>) returns (r: Result<seq<string>, IllegalState>)
    requires forall k :: 0 <= k < |sites| ==> sites[k] < |g.callsites|
    ensures r.Success? <==> forall k :: 0 <= k < |sites| ==> g.callsites[sites[k]].target.Name?
    ensures r.Success? ==> (|r.value| == |sites| &&
              forall k :: 0 <= k < |sites| ==> r.value[k] == g.callsites[sites[k]].target.id)
  {
    var result: seq<string> := [];
    var k := 0;
    while k < |sites|
      invariant 0 <= k <= |sites|
      invariant |result| == k
      invariant forall j :: 0 <= j < k ==> g.callsites[sites[j]].target.Name? && result[j] == g.callsites[sites[j]].target.id
    {
      var target := g.callsites[sites[k]].target;
      if TokenOf(target) == NAME {
        result := result + [target.id];
      } else {
        return Failure(IllegalState("Called getCallsiteTargetNames() on a complex callsite."));
      }
      k := k + 1;
    }
    return Success(result);
  }
}
