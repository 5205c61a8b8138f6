/**
 * The name index and the target resolver: which definitions a dotted name
 * has in the program and the externs, and what a call through an expression
 * may therefore invoke.
 */
module Names {
  import opened Wrappers
  import opened Ast

  // ----- names bound to values that are not function literals -----

  /**
   * The names a `var x = e` or an assignment `q = e` binds to an `e` that is
   * not a function literal (for example `var A = externalnamespace.prop`).
   */
  function ValueBoundInExpr(e: Expr): set<string>
    decreases e
  {
    match e
    case Name(_) => {}
    case GetProp(o, _) => ValueBoundInExpr(o)
    case GetElem(o, i) => ValueBoundInExpr(o) + ValueBoundInExpr(i)
    case Invoke(_, _, c, args) => ValueBoundInExpr(c) + ValueBoundInExprs(args)
    case Assign(l, r) =>
      (if QualifiedName(l).Some? && !r.Func? then {QualifiedName(l).value} else {})
      + ValueBoundInExpr(l) + ValueBoundInExpr(r)
    case Func(_, _, body) => ValueBoundInStmts(body)
    case Value => {}
  }

  function ValueBoundInExprs(es: seq<Expr>): set<string>
    decreases es
  {
    if es == [] then {} else ValueBoundInExpr(es[0]) + ValueBoundInExprs(es[1..])
  }

  function ValueBoundInStmt(s: Stmt): set<string>
    decreases s
  {
    match s
    case FuncDecl(_, _, body) => ValueBoundInStmts(body)
    case Var(x, init) =>
      if init.Some? then (if init.value.Func? then {} else {x}) + ValueBoundInExpr(init.value) else {}
    case ExprStmt(e) => ValueBoundInExpr(e)
  }

  function ValueBoundInStmts(ss: seq<Stmt>): set<string>
    decreases ss
  {
    if ss == [] then {} else ValueBoundInStmt(ss[0]) + ValueBoundInStmts(ss[1..])
  }

  // ----- the index from names to the functions of the registry -----

  function Lookup(m: map<string, seq<nat>>, n: string): seq<nat> {
    if n in m then m[n] else []
  }

  /**
   * Files every registry entry `i` with `names[i] == Some(n)` under `n`, in
   * registry order; a `None` entry (the main function, anonymous literals) is not filed.
   */
  function IndexFunctions(names: seq<Option<string>>): map<string, seq<nat>>
    decreases |names|
  {
    if names == [] then map[]
    else
      var i := |names| - 1;
      var m := IndexFunctions(names[..i]);
      if names[i].Some? then m[names[i].value := Lookup(m, names[i].value) + [i]] else m
  }

  /** The index lists exactly the registry entries carrying the name, in increasing order. */
  lemma {:induction false} IndexFunctionsCorrect(names: seq<Option<string>>, n: string)
    ensures forall i: nat :: i in Lookup(IndexFunctions(names), n) <==> i < |names| && names[i] == Some(n)
    ensures forall k :: 0 <= k < |Lookup(IndexFunctions(names), n)| ==>
              Lookup(IndexFunctions(names), n)[k] < |names|
    ensures forall k, l :: 0 <= k < l < |Lookup(IndexFunctions(names), n)| ==>
              Lookup(IndexFunctions(names), n)[k] < Lookup(IndexFunctions(names), n)[l]
    decreases |names|
  {
    if names != [] {
      var i := |names| - 1;
      IndexFunctionsCorrect(names[..i], n);
      forall j | 0 <= j < i ensures names[..i][j] == names[j] { }
    }
  }

  // ----- the index and the resolver -----

  /**
   * Everything resolution consults: the functions filed by name, the names
   * bound to non-function values, and the names declared in the externs.
   */
  datatype NameIndex = NameIndex(functionsByName: map<string, seq<nat>>, valueBound: set<string>, externs: set<string>)

  /** The outcome of resolving one call site's target expression. */
  datatype Resolution = Resolution(knownTargets: seq<nat>, hasUnknownTarget: bool, hasExternTarget: bool)

  /**
   * How many kinds of definition a name has: program functions (any number
   * of them), an extern declaration, a binding to a non-function value.
   */
  function DefinitionKinds(idx: NameIndex, n: string): nat {
    (if Lookup(idx.functionsByName, n) != [] then 1 else 0) + (if n in idx.externs then 1 else 0)
    + (if n in idx.valueBound then 1 else 0)
  }

  /**
   * Resolves a call target. A dotted name resolves to every function filed
   * under it and is an extern target when the externs declare it; it is an
   * unknown target when it has no definition at all or is bound to a value
   * that is not a function. Any other shape of target is unknown.
   */
  function Resolve(idx: NameIndex, callee: Expr): (r: Resolution)
    // no call site is left unclassified
    ensures r.knownTargets != [] || r.hasUnknownTarget || r.hasExternTarget
    ensures QualifiedName(callee).None? ==> r == Resolution([], true, false)
    ensures QualifiedName(callee).Some? ==>
              var n := QualifiedName(callee).value;
              && r.knownTargets == Lookup(idx.functionsByName, n)
              && (r.hasExternTarget <==> n in idx.externs)
              && (r.hasUnknownTarget <==> DefinitionKinds(idx, n) == 0 || n in idx.valueBound)
  {
    match QualifiedName(callee)
    case None => Resolution([], true, false)
    case Some(n) =>
      var known := Lookup(idx.functionsByName, n);
      var ext := n in idx.externs;
      Resolution(known, (known == [] && !ext) || n in idx.valueBound, ext)
  }

  /**
   * When the target's name is defined in at most one way, the call site is
   * exactly one of: resolved to known functions, unknown, extern.
   */
  lemma ResolveExclusive(idx: NameIndex, callee: Expr)
    requires QualifiedName(callee).Some? ==> DefinitionKinds(idx, QualifiedName(callee).value) <= 1
    ensures var r := Resolve(idx, callee);
            (if r.knownTargets != [] then 1 else 0) + (if r.hasUnknownTarget then 1 else 0)
            + (if r.hasExternTarget then 1 else 0) == 1
  {
  }

  /**
   * A name defined in two ways sets two outcomes: each definition contributes
   * its own, a function as a known target, an extern declaration as an extern
   * target, a value binding as an unknown target.
   */
  lemma ResolveMixedDefinitions(idx: NameIndex, callee: Expr)
    requires QualifiedName(callee).Some?
    ensures var n := QualifiedName(callee).value;
            var r := Resolve(idx, callee);
            && (Lookup(idx.functionsByName, n) != [] && n in idx.valueBound ==> r.knownTargets != [] && r.hasUnknownTarget)
            && (Lookup(idx.functionsByName, n) != [] && n in idx.externs ==> r.knownTargets != [] && r.hasExternTarget)
            && (n in idx.externs && n in idx.valueBound ==> r.hasExternTarget && r.hasUnknownTarget)
  {
  }
}
