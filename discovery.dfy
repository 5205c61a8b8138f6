/**
 * Function discovery and call-site extraction: the single walk over the tree
 * that finds every function literal (in pre-order) and, for one function
 * body, the CALL and NEW nodes of that body's own scope.
 */
module Discovery {
  import opened Wrappers
  import opened Ast

  /** A function literal found in the tree: its node, the name it is known by, its body. */
  datatype Literal = Literal(node: nat, name: Option<string>, body: seq<Stmt>)

  /**
   * The name of a literal: the name it is bound to by `var x = function…` or
   * `a.b = function…` when there is one, else its own name, else none.
   */
  function LiteralName(context: Option<string>, own: string): (r: Option<string>)
    ensures context.Some? ==> r == context
    ensures context.None? ==> (r.None? <==> own == "")
    ensures context.None? && own != "" ==> r == Some(own)
  {
    if context.Some? then context else if own == "" then None else Some(own)
  }

  // ----- function literals, in pre-order -----

  /** `context` is the name the enclosing var or assignment gives `e` if `e` is a literal. */
  function LiteralsInExpr(e: Expr, context: Option<string>): seq<Literal>
    decreases e
  {
    match e
    case Name(_) => []
    case GetProp(o, _) => LiteralsInExpr(o, None)
    case GetElem(o, i) => LiteralsInExpr(o, None) + LiteralsInExpr(i, None)
    case Invoke(_, _, c, args) => LiteralsInExpr(c, None) + LiteralsInExprs(args)
    case Assign(l, r) => LiteralsInExpr(l, None) + LiteralsInExpr(r, QualifiedName(l))
    case Func(n, own, body) => [Literal(n, LiteralName(context, own), body)] + LiteralsInStmts(body)
    case Value => []
  }

  function LiteralsInExprs(es: seq<Expr>): seq<Literal>
    decreases es
  {
    if es == [] then [] else LiteralsInExpr(es[0], None) + LiteralsInExprs(es[1..])
  }

  function LiteralsInStmt(s: Stmt): seq<Literal>
    decreases s
  {
    match s
    case FuncDecl(n, name, body) => [Literal(n, LiteralName(None, name), body)] + LiteralsInStmts(body)
    case Var(x, init) => if init.Some? then LiteralsInExpr(init.value, Some(x)) else []
    case ExprStmt(e) => LiteralsInExpr(e, None)
  }

  function LiteralsInStmts(ss: seq<Stmt>): seq<Literal>
    decreases ss
  {
    if ss == [] then [] else LiteralsInStmt(ss[0]) + LiteralsInStmts(ss[1..])
  }

  // ----- the number of FUNCTION nodes, as a plain count over the tree -----

  function FunctionNodeCountInExpr(e: Expr): nat
    decreases e
  {
    match e
    case Name(_) => 0
    case GetProp(o, _) => FunctionNodeCountInExpr(o)
    case GetElem(o, i) => FunctionNodeCountInExpr(o) + FunctionNodeCountInExpr(i)
    case Invoke(_, _, c, args) => FunctionNodeCountInExpr(c) + FunctionNodeCountInExprs(args)
    case Assign(l, r) => FunctionNodeCountInExpr(l) + FunctionNodeCountInExpr(r)
    case Func(_, _, body) => 1 + FunctionNodeCountInStmts(body)
    case Value => 0
  }

  function FunctionNodeCountInExprs(es: seq<Expr>): nat
    decreases es
  {
    if es == [] then 0 else FunctionNodeCountInExpr(es[0]) + FunctionNodeCountInExprs(es[1..])
  }

  function FunctionNodeCountInStmt(s: Stmt): nat
    decreases s
  {
    match s
    case FuncDecl(_, _, body) => 1 + FunctionNodeCountInStmts(body)
    case Var(_, init) => if init.Some? then FunctionNodeCountInExpr(init.value) else 0
    case ExprStmt(e) => FunctionNodeCountInExpr(e)
  }

  function FunctionNodeCountInStmts(ss: seq<Stmt>): nat
    decreases ss
  {
    if ss == [] then 0 else FunctionNodeCountInStmt(ss[0]) + FunctionNodeCountInStmts(ss[1..])
  }

  /** Every FUNCTION node of the tree is discovered exactly once. */
  lemma {:induction false} LiteralsCountExpr(e: Expr, context: Option<string>)
    ensures |LiteralsInExpr(e, context)| == FunctionNodeCountInExpr(e)
    decreases e
  {
    match e
    case Name(_) =>
    case GetProp(o, _) => LiteralsCountExpr(o, None);
    case GetElem(o, i) => LiteralsCountExpr(o, None); LiteralsCountExpr(i, None);
    case Invoke(_, _, c, args) => LiteralsCountExpr(c, None); LiteralsCountExprs(args);
    case Assign(l, r) => LiteralsCountExpr(l, None); LiteralsCountExpr(r, QualifiedName(l));
    case Func(_, _, body) => LiteralsCountStmts(body);
    case Value =>
  }

  lemma {:induction false} LiteralsCountExprs(es: seq<Expr>)
    ensures |LiteralsInExprs(es)| == FunctionNodeCountInExprs(es)
    decreases es
  {
    if es != [] {
      LiteralsCountExpr(es[0], None);
      LiteralsCountExprs(es[1..]);
    }
  }

  lemma {:induction false} LiteralsCountStmt(s: Stmt)
    ensures |LiteralsInStmt(s)| == FunctionNodeCountInStmt(s)
    decreases s
  {
    match s
    case FuncDecl(_, _, body) => LiteralsCountStmts(body);
    case Var(x, init) => if init.Some? { LiteralsCountExpr(init.value, Some(x)); }
    case ExprStmt(e) => LiteralsCountExpr(e, None);
  }

  lemma {:induction false} LiteralsCountStmts(ss: seq<Stmt>)
    ensures |LiteralsInStmts(ss)| == FunctionNodeCountInStmts(ss)
    decreases ss
  {
    if ss != [] {
      LiteralsCountStmt(ss[0]);
      LiteralsCountStmts(ss[1..]);
    }
  }

  // ----- the literal a top-level statement introduces -----

  /** A dotted name contains no function literal. */
  lemma {:induction false} DottedNameHasNoLiterals(e: Expr, context: Option<string>)
    requires QualifiedName(e).Some?
    ensures LiteralsInExpr(e, context) == []
  {
    if e.GetProp? {
      DottedNameHasNoLiterals(e.obj, None);
    }
  }

  /** The literals of a statement list: those before statement j, those of j, those after. */
  lemma {:induction false} LiteralsInStmtsSplit(ss: seq<Stmt>, j: nat)
    requires j < |ss|
    ensures LiteralsInStmts(ss) == LiteralsInStmts(ss[..j]) + LiteralsInStmt(ss[j]) + LiteralsInStmts(ss[j + 1..])
    decreases j
  {
    if j == 0 {
      assert ss[..0] == [];
      assert ss[1..] == ss[j + 1..];
    } else {
      LiteralsInStmtsSplit(ss[1..], j - 1);
      assert ss[1..][..j - 1] == ss[1..j];
      assert ss[1..][j - 1] == ss[j];
      assert ss[1..][j..] == ss[j + 1..];
      assert ss[..j][0] == ss[0] && ss[..j][1..] == ss[1..j];
    }
  }

  /**
   * The literal found first in statement j of a list is found at position
   * |LiteralsInStmts(ss[..j])| of the whole list.
   */
  lemma FirstLiteralOfStmt(ss: seq<Stmt>, j: nat)
    requires j < |ss| && LiteralsInStmt(ss[j]) != []
    ensures |LiteralsInStmts(ss[..j])| < |LiteralsInStmts(ss)|
    ensures LiteralsInStmts(ss)[|LiteralsInStmts(ss[..j])|] == LiteralsInStmt(ss[j])[0]
  {
    LiteralsInStmtsSplit(ss, j);
  }

  /**
   * The literal `function a(){…}`, `var x = function…` and `q = function…`
   * (q a dotted name) introduce first, and the name each is filed under.
   */
  lemma StatementLiteral(s: Stmt)
    ensures s.FuncDecl? ==>
              LiteralsInStmt(s) != [] && LiteralsInStmt(s)[0] == Literal(s.node, LiteralName(None, s.name), s.body)
    ensures s.Var? && s.init.Some? && s.init.value.Func? ==>
              LiteralsInStmt(s) != [] && LiteralsInStmt(s)[0] == Literal(s.init.value.node, Some(s.name), s.init.value.body)
    ensures s.ExprStmt? && s.expr.Assign? && s.expr.rhs.Func? && QualifiedName(s.expr.lhs).Some? ==>
              LiteralsInStmt(s) != [] &&
              LiteralsInStmt(s)[0] == Literal(s.expr.rhs.node, QualifiedName(s.expr.lhs), s.expr.rhs.body)
  {
    if s.ExprStmt? && s.expr.Assign? && s.expr.rhs.Func? && QualifiedName(s.expr.lhs).Some? {
      var l, f := s.expr.lhs, s.expr.rhs;
      DottedNameHasNoLiterals(l, None);
      assert LiteralsInExpr(f, QualifiedName(l))[0] == Literal(f.node, QualifiedName(l), f.body);
      assert LiteralsInStmt(s) == LiteralsInExpr(l, None) + LiteralsInExpr(f, QualifiedName(l));
    }
  }

  // ----- call sites of one scope -----

  /** One CALL or NEW node: its label, its kind, and the expression it invokes. */
  datatype Site = Site(node: nat, kind: InvokeKind, callee: Expr)

  /** The invocations of `e` in pre-order, not looking inside nested function literals. */
  function SitesInExpr(e: Expr): seq<Site>
    decreases e
  {
    match e
    case Name(_) => []
    case GetProp(o, _) => SitesInExpr(o)
    case GetElem(o, i) => SitesInExpr(o) + SitesInExpr(i)
    case Invoke(k, n, c, args) => [Site(n, k, c)] + SitesInExpr(c) + SitesInExprs(args)
    case Assign(l, r) => SitesInExpr(l) + SitesInExpr(r)
    case Func(_, _, _) => []
    case Value => []
  }

  function SitesInExprs(es: seq<Expr>): seq<Site>
    decreases es
  {
    if es == [] then [] else SitesInExpr(es[0]) + SitesInExprs(es[1..])
  }

  function SitesInStmt(s: Stmt): seq<Site>
    decreases s
  {
    match s
    case FuncDecl(_, _, _) => []
    case Var(_, init) => if init.Some? then SitesInExpr(init.value) else []
    case ExprStmt(e) => SitesInExpr(e)
  }

  function SitesInStmts(ss: seq<Stmt>): seq<Site>
    decreases ss
  {
    if ss == [] then [] else SitesInStmt(ss[0]) + SitesInStmts(ss[1..])
  }

  // ----- the number of CALL and NEW nodes anywhere in the tree -----

  function InvocationCountInExpr(e: Expr): nat
    decreases e
  {
    match e
    case Name(_) => 0
    case GetProp(o, _) => InvocationCountInExpr(o)
    case GetElem(o, i) => InvocationCountInExpr(o) + InvocationCountInExpr(i)
    case Invoke(_, _, c, args) => 1 + InvocationCountInExpr(c) + InvocationCountInExprs(args)
    case Assign(l, r) => InvocationCountInExpr(l) + InvocationCountInExpr(r)
    case Func(_, _, body) => InvocationCountInStmts(body)
    case Value => 0
  }

  function InvocationCountInExprs(es: seq<Expr>): nat
    decreases es
  {
    if es == [] then 0 else InvocationCountInExpr(es[0]) + InvocationCountInExprs(es[1..])
  }

  function InvocationCountInStmt(s: Stmt): nat
    decreases s
  {
    match s
    case FuncDecl(_, _, body) => InvocationCountInStmts(body)
    case Var(_, init) => if init.Some? then InvocationCountInExpr(init.value) else 0
    case ExprStmt(e) => InvocationCountInExpr(e)
  }

  function InvocationCountInStmts(ss: seq<Stmt>): nat
    decreases ss
  {
    if ss == [] then 0 else InvocationCountInStmt(ss[0]) + InvocationCountInStmts(ss[1..])
  }

  // ----- the call-site arena: the call sites of every body, one body after the other -----

  function LiteralBodies(lits: seq<Literal>): (r: seq<seq<Stmt>>)
    ensures |r| == |lits|
    ensures forall i :: 0 <= i < |lits| ==> r[i] == lits[i].body
  {
    if lits == [] then [] else [lits[0].body] + LiteralBodies(lits[1..])
  }

  /** The call sites of a body, each tagged with the index of the function owning it. */
  datatype Placed = Placed(site: Site, owner: nat)

  function Place(sites: seq<Site>, owner: nat): (r: seq<Placed>)
    ensures |r| == |sites|
    ensures forall k :: 0 <= k < |sites| ==> r[k] == Placed(sites[k], owner)
  {
    seq(|sites|, k requires 0 <= k < |sites| => Placed(sites[k], owner))
  }

  /** The call sites of bodies[0], then of bodies[1], and so on; body i is owned by function i. */
  function Arena(bodies: seq<seq<Stmt>>): seq<Placed>
    decreases |bodies|
  {
    if bodies == [] then []
    else Arena(bodies[..|bodies| - 1]) + Place(SitesInStmts(bodies[|bodies| - 1]), |bodies| - 1)
  }

  /** Where the call sites of body i start in the arena. */
  function Offset(bodies: seq<seq<Stmt>>, i: nat): nat
    requires i <= |bodies|
  {
    |Arena(bodies[..i])|
  }

  /** The total number of call sites of all bodies, body by body. */
  function SiteTotal(bodies: seq<seq<Stmt>>): nat
  {
    if bodies == [] then 0 else |SitesInStmts(bodies[0])| + SiteTotal(bodies[1..])
  }

  lemma {:induction false} SiteTotalConcat(a: seq<seq<Stmt>>, b: seq<seq<Stmt>>)
    ensures SiteTotal(a + b) == SiteTotal(a) + SiteTotal(b)
    decreases |a|
  {
    if a == [] {
      assert a + b == b;
    } else {
      assert (a + b)[0] == a[0];
      assert (a + b)[1..] == a[1..] + b;
      SiteTotalConcat(a[1..], b);
    }
  }

  lemma {:induction false} LiteralBodiesConcat(a: seq<Literal>, b: seq<Literal>)
    ensures LiteralBodies(a + b) == LiteralBodies(a) + LiteralBodies(b)
  {
  }

  /** The arena holds exactly one entry per call site of every body. */
  lemma {:induction false} ArenaSize(bodies: seq<seq<Stmt>>)
    ensures |Arena(bodies)| == SiteTotal(bodies)
    decreases |bodies|
  {
    if bodies != [] {
      var n := |bodies| - 1;
      ArenaSize(bodies[..n]);
      assert bodies == bodies[..n] + [bodies[n]];
      SiteTotalConcat(bodies[..n], [bodies[n]]);
      assert SiteTotal([bodies[n]]) == |SitesInStmts(bodies[n])| by {
        assert [bodies[n]][1..] == [];
      }
    }
  }

  /** The arena of a prefix of the bodies is a prefix of the arena. */
  lemma {:induction false} ArenaPrefix(bodies: seq<seq<Stmt>>, i: nat)
    requires i <= |bodies|
    ensures |Arena(bodies[..i])| <= |Arena(bodies)|
    ensures Arena(bodies)[..|Arena(bodies[..i])|] == Arena(bodies[..i])
    decreases |bodies|
  {
    if i < |bodies| {
      var n := |bodies| - 1;
      assert bodies[..n][..i] == bodies[..i];
      ArenaPrefix(bodies[..n], i);
    } else {
      assert bodies[..i] == bodies;
    }
  }

  /** Call site k of body i sits at Offset(i) + k and is owned by function i. */
  lemma {:induction false} ArenaAt(bodies: seq<seq<Stmt>>, i: nat, k: nat)
    requires i < |bodies| && k < |SitesInStmts(bodies[i])|
    ensures Offset(bodies, i) + k < |Arena(bodies)|
    ensures Arena(bodies)[Offset(bodies, i) + k] == Placed(SitesInStmts(bodies[i])[k], i)
    decreases |bodies|
  {
    var n := |bodies| - 1;
    var front := Arena(bodies[..n]);
    var last := Place(SitesInStmts(bodies[n]), n);
    assert Arena(bodies) == front + last;
    if i == n {
      assert last[k] == Placed(SitesInStmts(bodies[i])[k], i);
    } else {
      ArenaAt(bodies[..n], i, k);
      assert bodies[..n][..i] == bodies[..i];
      assert bodies[..n][i] == bodies[i];
    }
  }

  /** Every arena entry lies in the range of the body that owns it. */
  lemma {:induction false} ArenaOwner(bodies: seq<seq<Stmt>>, c: nat)
    requires c < |Arena(bodies)|
    ensures Arena(bodies)[c].owner < |bodies|
    ensures Offset(bodies, Arena(bodies)[c].owner) <= c
    ensures c - Offset(bodies, Arena(bodies)[c].owner) < |SitesInStmts(bodies[Arena(bodies)[c].owner])|
    decreases |bodies|
  {
    var n := |bodies| - 1;
    var front := Arena(bodies[..n]);
    var last := Place(SitesInStmts(bodies[n]), n);
    assert Arena(bodies) == front + last;
    if c < |front| {
      assert Arena(bodies)[c] == front[c];
      ArenaOwner(bodies[..n], c);
      var o := front[c].owner;
      assert bodies[..n][..o] == bodies[..o];
      assert bodies[..n][o] == bodies[o];
    } else {
      assert Arena(bodies)[c] == last[c - |front|];
      assert Offset(bodies, n) == |front|;
    }
  }

  // ----- every CALL/NEW node belongs to exactly one scope -----

  /** The call sites of all literals' bodies found in one tree, summed. */
  function NestedSiteTotal(lits: seq<Literal>): nat
  {
    SiteTotal(LiteralBodies(lits))
  }

  lemma NestedSiteTotalConcat(a: seq<Literal>, b: seq<Literal>)
    ensures NestedSiteTotal(a + b) == NestedSiteTotal(a) + NestedSiteTotal(b)
  {
    LiteralBodiesConcat(a, b);
    SiteTotalConcat(LiteralBodies(a), LiteralBodies(b));
  }

  lemma NestedSiteTotalCons(l: Literal, rest: seq<Literal>)
    ensures NestedSiteTotal([l] + rest) == |SitesInStmts(l.body)| + NestedSiteTotal(rest)
  {
    NestedSiteTotalConcat([l], rest);
    assert LiteralBodies([l]) == [l.body];
    assert [l.body][1..] == [];
  }

  /**
   * The CALL/NEW nodes of a tree are split between the tree's own scope and
   * the scopes of the literals found in it: none is lost, none is counted twice.
   */
  lemma {:induction false} InvocationSplitExpr(e: Expr, context: Option<string>)
    ensures InvocationCountInExpr(e) == |SitesInExpr(e)| + NestedSiteTotal(LiteralsInExpr(e, context))
    decreases e
  {
    match e
    case Name(_) =>
    case GetProp(o, _) => InvocationSplitExpr(o, None);
    case GetElem(o, i) =>
      InvocationSplitExpr(o, None); InvocationSplitExpr(i, None);
      NestedSiteTotalConcat(LiteralsInExpr(o, None), LiteralsInExpr(i, None));
    case Invoke(_, _, c, args) =>
      InvocationSplitExpr(c, None); InvocationSplitExprs(args);
      NestedSiteTotalConcat(LiteralsInExpr(c, None), LiteralsInExprs(args));
    case Assign(l, r) =>
      InvocationSplitExpr(l, None); InvocationSplitExpr(r, QualifiedName(l));
      NestedSiteTotalConcat(LiteralsInExpr(l, None), LiteralsInExpr(r, QualifiedName(l)));
    case Func(n, own, body) =>
      InvocationSplitStmts(body);
      NestedSiteTotalCons(Literal(n, LiteralName(context, own), body), LiteralsInStmts(body));
    case Value =>
  }

  lemma {:induction false} InvocationSplitExprs(es: seq<Expr>)
    ensures InvocationCountInExprs(es) == |SitesInExprs(es)| + NestedSiteTotal(LiteralsInExprs(es))
    decreases es
  {
    if es != [] {
      InvocationSplitExpr(es[0], None);
      InvocationSplitExprs(es[1..]);
      NestedSiteTotalConcat(LiteralsInExpr(es[0], None), LiteralsInExprs(es[1..]));
    }
  }

  lemma {:induction false} InvocationSplitStmt(s: Stmt)
    ensures InvocationCountInStmt(s) == |SitesInStmt(s)| + NestedSiteTotal(LiteralsInStmt(s))
    decreases s
  {
    match s
    case FuncDecl(n, name, body) =>
      InvocationSplitStmts(body);
      NestedSiteTotalCons(Literal(n, LiteralName(None, name), body), LiteralsInStmts(body));
    case Var(x, init) =>
      if init.Some? { InvocationSplitExpr(init.value, Some(x)); }
    case ExprStmt(e) => InvocationSplitExpr(e, None);
  }

  lemma {:induction false} InvocationSplitStmts(ss: seq<Stmt>)
    ensures InvocationCountInStmts(ss) == |SitesInStmts(ss)| + NestedSiteTotal(LiteralsInStmts(ss))
    decreases ss
  {
    if ss != [] {
      InvocationSplitStmt(ss[0]);
      InvocationSplitStmts(ss[1..]);
      NestedSiteTotalConcat(LiteralsInStmt(ss[0]), LiteralsInStmts(ss[1..]));
    }
  }
}
