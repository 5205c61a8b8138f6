/**
 * Propagation of a set of functions along the edges of a directed view until
 * nothing changes: the edge callback the poisoning and reachability scenarios
 * use ("if the source is in the set, add the destination, and report whether
 * it was new"), and a traversal that applies it to every edge, pass after
 * pass, until a whole pass reports no change.
 *
 * The result is specified by Closure: the least superset of the seed that is
 * closed under the edges.
 */
module FixedPoint {
  import opened CallGraphs

  // ----- the specification -----

  /** Every destination some edge can add. */
  function Destinations(edges: seq<Edge>): (r: set<nat>)
    ensures forall e :: e in edges ==> e.destination in r
  {
    set e | e in edges :: e.destination
  }

  /** One round of propagation: the set plus the destination of every edge leaving it. */
  function Step(s: set<nat>, edges: seq<Edge>): (r: set<nat>)
    ensures s <= r
    ensures r - s <= Destinations(edges)
    ensures forall e :: e in edges && e.source in s ==> e.destination in r
  {
    s + set e | e in edges && e.source in s :: e.destination
  }

  /** No edge leads from inside the set to outside it. */
  ghost predicate Closed(s: set<nat>, edges: seq<Edge>) {
    forall e :: e in edges && e.source in s ==> e.destination in s
  }

  lemma ProperSubsetSmaller(a: set<nat>, b: set<nat>)
    requires a < b
    ensures |a| < |b|
  {
    var x :| x in b - a;
    assert b == a + (b - a);
    assert x in b - a;
  }

  /** Propagation applied until the set no longer grows. */
  function Closure(s: set<nat>, edges: seq<Edge>): set<nat>
    decreases |Destinations(edges) - s|
  {
    var t := Step(s, edges);
    if t == s then s
    else
      ProperSubsetSmaller(Destinations(edges) - t, Destinations(edges) - s);
      Closure(t, edges)
  }

  lemma {:induction false} ClosureContainsSeed(s: set<nat>, edges: seq<Edge>)
    ensures s <= Closure(s, edges)
    decreases |Destinations(edges) - s|
  {
    var t := Step(s, edges);
    if t != s {
      ProperSubsetSmaller(Destinations(edges) - t, Destinations(edges) - s);
      ClosureContainsSeed(t, edges);
    }
  }

  lemma {:induction false} ClosureIsClosed(s: set<nat>, edges: seq<Edge>)
    ensures Closed(Closure(s, edges), edges)
    decreases |Destinations(edges) - s|
  {
    var t := Step(s, edges);
    if t != s {
      ProperSubsetSmaller(Destinations(edges) - t, Destinations(edges) - s);
      ClosureIsClosed(t, edges);
    }
  }

  /** Closure is contained in every closed superset of the seed: it is the least one. */
  lemma {:induction false} ClosureIsLeast(s: set<nat>, edges: seq<Edge>, bound: set<nat>)
    requires s <= bound && Closed(bound, edges)
    ensures Closure(s, edges) <= bound
    decreases |Destinations(edges) - s|
  {
    var t := Step(s, edges);
    if t != s {
      ProperSubsetSmaller(Destinations(edges) - t, Destinations(edges) - s);
      assert t <= bound;
      ClosureIsLeast(t, edges, bound);
    }
  }

  /** The closure of a set that is already closed is the set itself. */
  lemma ClosureOfClosed(s: set<nat>, edges: seq<Edge>)
    requires Closed(s, edges)
    ensures Closure(s, edges) == s
  {
    ClosureContainsSeed(s, edges);
    ClosureIsLeast(s, edges, s);
  }

  // ----- the imperative traversal -----

  /** The edge callback: a set of functions that grows along the edges. */
  class PropagationCallback {
    var facts: set<nat>

    constructor(seed: set<nat>)
      ensures facts == seed
    {
      facts := seed;
    }

    /** Adds a function, reporting whether it was new. */
    method Add(f: nat) returns (added: bool)
      modifies this
      ensures added <==> f !in old(facts)
      ensures facts == old(facts) + {f}
    {
      added := f !in facts;
      facts := facts + {f};
    }

    /**
     * Propagates along one edge: when the source is in the set, adds the
     * destination. Reports a change exactly when the destination was new.
     */
    method TraverseEdge(source: nat, callsite: nat, destination: nat) returns (changed: bool)
      modifies this
      ensures changed <==> source in old(facts) && destination !in old(facts)
      ensures facts == if source in old(facts) then old(facts) + {destination} else old(facts)
    {
      if source in facts {
        changed := Add(destination);
      } else {
        changed := false;
      }
    }
  }

  /**
   * One pass: applies the callback to every edge in order. Reports a change
   * when some edge added a function; a pass that adds nothing leaves a set no
   * edge leaves. A set that stays below a closed superset stays below it.
   */
  method TraverseEdges(graph: DirectedGraph, cb: PropagationCallback, ghost bound: set<nat>) returns (changed: bool)
    requires cb.facts <= bound && Closed(bound, graph.edges)
    modifies cb
    ensures old(cb.facts) <= cb.facts <= bound
    ensures changed <==> old(cb.facts) < cb.facts
    ensures !changed ==> Closed(cb.facts, graph.edges)
  {
    ghost var before := cb.facts;
    changed := false;
    var i := 0;
    while i < |graph.edges|
      invariant 0 <= i <= |graph.edges|
      invariant before <= cb.facts <= bound
      invariant !changed ==> cb.facts == before
      invariant changed ==> before < cb.facts
      invariant !changed ==> forall j :: 0 <= j < i && graph.edges[j].source in cb.facts ==>
                               graph.edges[j].destination in cb.facts
    {
      var e := graph.edges[i];
      assert e in graph.edges;
      var c := cb.TraverseEdge(e.source, e.callsite, e.destination);
      changed := changed || c;
      i := i + 1;
    }
    if !changed {
      forall e | e in graph.edges && e.source in cb.facts
        ensures e.destination in cb.facts
      {
        var j :| 0 <= j < |graph.edges| && graph.edges[j] == e;
      }
    }
  }

  /**
   * Applies the callback to every edge, pass after pass, until a whole pass
   * reports no change; the set then holds the closure of what it held before.
   */
  method ComputeFixedPoint(graph: DirectedGraph, cb: PropagationCallback)
    modifies cb
    ensures cb.facts == Closure(old(cb.facts), graph.edges)
  {
    ghost var seed := cb.facts;
    ghost var goal := Closure(seed, graph.edges);
    ClosureContainsSeed(seed, graph.edges);
    ClosureIsClosed(seed, graph.edges);
    var changed := true;
    while changed
      invariant seed <= cb.facts <= goal
      invariant !changed ==> Closed(cb.facts, graph.edges)
      decreases |goal - cb.facts| + (if changed then 1 else 0)
    {
      ghost var before := cb.facts;
      changed := TraverseEdges(graph, cb, goal);
      if changed {
        ProperSubsetSmaller(goal - cb.facts, goal - before);
      } else {
        assert cb.facts == before;
      }
    }
    ClosureIsLeast(seed, graph.edges, cb.facts);
  }
}
