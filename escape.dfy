/**
 * The escape analysis: which dotted names are used as values (so that the
 * functions bound to them are aliased) and which are exposed to `.call` or
 * `.apply`.
 */
module Escape {
  import opened Wrappers
  import opened Ast

  /**
   * The dotted names referred to where their value is captured. `captured`
   * says whether `e` itself stands in such a place: a var initializer, the
   * right-hand side of an assignment, an argument, an index, a statement on
   * its own. The callee of an invocation, the base of a property or element
   * access and the target of an assignment do not capture.
   */
  function EscapingInExpr(e: Expr, captured: bool): set<string>
    decreases e
  {
    match e
    case Name(n) => if captured then {n} else {}
    case GetProp(o, _) =>
      (if captured && QualifiedName(e).Some? then {QualifiedName(e).value} else {}) + EscapingInExpr(o, false)
    case GetElem(o, i) => EscapingInExpr(o, false) + EscapingInExpr(i, true)
    case Invoke(_, _, c, args) => EscapingInExpr(c, false) + EscapingInExprs(args)
    case Assign(l, r) => EscapingInExpr(l, false) + EscapingInExpr(r, true)
    case Func(_, _, body) => EscapingInStmts(body)
    case Value => {}
  }

  /** Arguments capture. */
  function EscapingInExprs(es: seq<Expr>): set<string>
    decreases es
  {
    if es == [] then {} else EscapingInExpr(es[0], true) + EscapingInExprs(es[1..])
  }

  function EscapingInStmt(s: Stmt): set<string>
    decreases s
  {
    match s
    case FuncDecl(_, _, body) => EscapingInStmts(body)
    case Var(_, init) => if init.Some? then EscapingInExpr(init.value, true) else {}
    case ExprStmt(e) => EscapingInExpr(e, true)
  }

  /** The names aliased anywhere in `ss`, nested function bodies included. */
  function EscapingInStmts(ss: seq<Stmt>): set<string>
    decreases ss
  {
    if ss == [] then {} else EscapingInStmt(ss[0]) + EscapingInStmts(ss[1..])
  }

  /** `q.call` or `q.apply` for a dotted name q: the name exposed. */
  function CallOrApplyBase(callee: Expr): Option<string> {
    if callee.GetProp? && (callee.prop == "call" || callee.prop == "apply") then QualifiedName(callee.obj)
    else None
  }

  /** The dotted names invoked through `.call(…)` or `.apply(…)` anywhere in `e`. */
  function ExposedInExpr(e: Expr): set<string>
    decreases e
  {
    match e
    case Name(_) => {}
    case GetProp(o, _) => ExposedInExpr(o)
    case GetElem(o, i) => ExposedInExpr(o) + ExposedInExpr(i)
    case Invoke(_, _, c, args) =>
      (if CallOrApplyBase(c).Some? then {CallOrApplyBase(c).value} else {}) + ExposedInExpr(c) + ExposedInExprs(args)
    case Assign(l, r) => ExposedInExpr(l) + ExposedInExpr(r)
    case Func(_, _, body) => ExposedInStmts(body)
    case Value => {}
  }

  function ExposedInExprs(es: seq<Expr>): set<string>
    decreases es
  {
    if es == [] then {} else ExposedInExpr(es[0]) + ExposedInExprs(es[1..])
  }

  function ExposedInStmt(s: Stmt): set<string>
    decreases s
  {
    match s
    case FuncDecl(_, _, body) => ExposedInStmts(body)
    case Var(_, init) => if init.Some? then ExposedInExpr(init.value) else {}
    case ExprStmt(e) => ExposedInExpr(e)
  }

  function ExposedInStmts(ss: seq<Stmt>): set<string>
    decreases ss
  {
    if ss == [] then {} else ExposedInStmt(ss[0]) + ExposedInStmts(ss[1..])
  }

  // ----- what aliases and what does not -----

  /**
   * A dotted name in a place that does not capture (callee, base of an
   * access) aliases nothing, neither itself nor any of its prefixes.
   */
  lemma {:induction false} NameNotCapturedAliasesNothing(e: Expr)
    requires QualifiedName(e).Some?
    ensures EscapingInExpr(e, false) == {}
  {
    if e.GetProp? {
      NameNotCapturedAliasesNothing(e.obj);
    }
  }

  /** A dotted name in a place that captures aliases that name and none of its prefixes. */
  lemma NameCapturedAliasesItself(e: Expr)
    requires QualifiedName(e).Some?
    ensures EscapingInExpr(e, true) == {QualifiedName(e).value}
  {
    if e.GetProp? {
      NameNotCapturedAliasesNothing(e.obj);
    }
  }

  /**
   * Calling through a dotted name, directly or as `q.call(…)`/`q.apply(…)`,
   * aliases only what the arguments alias.
   */
  lemma CalleeIsNotAliased(k: InvokeKind, node: nat, callee: Expr, args: seq<Expr>, captured: bool)
    requires QualifiedName(callee).Some?
    ensures EscapingInExpr(Invoke(k, node, callee, args), captured) == EscapingInExprs(args)
  {
    NameNotCapturedAliasesNothing(callee);
  }

  /** `q.call(…)` and `q.apply(…)` expose q. */
  lemma CallOrApplyExposes(k: InvokeKind, node: nat, base: Expr, prop: string, args: seq<Expr>)
    requires QualifiedName(base).Some? && (prop == "call" || prop == "apply")
    ensures QualifiedName(base).value in ExposedInExpr(Invoke(k, node, GetProp(base, prop), args))
  {
  }

  /** A dotted name calls nothing, so it exposes nothing. */
  lemma {:induction false} DottedNameExposesNothing(e: Expr)
    requires QualifiedName(e).Some?
    ensures ExposedInExpr(e) == {}
  {
    if e.GetProp? {
      DottedNameExposesNothing(e.obj);
    }
  }

  /** A plain call through a dotted name (`C()`, not `C.call(…)`) exposes only what its arguments expose. */
  lemma PlainCallDoesNotExpose(k: InvokeKind, node: nat, callee: Expr, args: seq<Expr>)
    requires QualifiedName(callee).Some? && CallOrApplyBase(callee).None?
    ensures ExposedInExpr(Invoke(k, node, callee, args)) == ExposedInExprs(args)
  {
    DottedNameExposesNothing(callee);
  }

  /** `var x = q;` for a dotted name q aliases q. */
  lemma VarInitializerAliases(x: string, init: Expr)
    requires QualifiedName(init).Some?
    ensures QualifiedName(init).value in EscapingInStmt(Var(x, Some(init)))
  {
    NameCapturedAliasesItself(init);
  }

  /** `l = q` for a dotted name q aliases q, whatever l is (`aliasA = A`, `aliasB.foo = ns.B`). */
  lemma AssignmentAliases(l: Expr, r: Expr, captured: bool)
    requires QualifiedName(r).Some?
    ensures QualifiedName(r).value in EscapingInExpr(Assign(l, r), captured)
  {
    NameCapturedAliasesItself(r);
  }

  /** An argument that is a dotted name aliases it. */
  lemma ArgumentAliases(k: InvokeKind, node: nat, callee: Expr, args: seq<Expr>, j: nat)
    requires j < |args| && QualifiedName(args[j]).Some?
    ensures QualifiedName(args[j]).value in EscapingInExpr(Invoke(k, node, callee, args), true)
  {
    ArgumentsAlias(args, j);
  }

  lemma {:induction false} ArgumentsAlias(args: seq<Expr>, j: nat)
    requires j < |args| && QualifiedName(args[j]).Some?
    ensures QualifiedName(args[j]).value in EscapingInExprs(args)
    decreases j
  {
    if j == 0 {
      NameCapturedAliasesItself(args[0]);
    } else {
      ArgumentsAlias(args[1..], j - 1);
    }
  }

  /** Whatever one statement aliases, the statement list containing it aliases. */
  lemma {:induction false} StmtAliasesInList(ss: seq<Stmt>, j: nat)
    requires j < |ss|
    ensures EscapingInStmt(ss[j]) <= EscapingInStmts(ss)
    ensures ExposedInStmt(ss[j]) <= ExposedInStmts(ss)
    decreases j
  {
    if j > 0 {
      StmtAliasesInList(ss[1..], j - 1);
    }
  }
}
