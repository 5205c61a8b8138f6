/**
 * The part of a JavaScript syntax tree the call graph looks at.
 *
 * FUNCTION nodes and CALL/NEW nodes carry a `node` label standing for the
 * identity of the parse-tree node object; everything else is identified by
 * its position only.
 */
module Ast {
  import opened Wrappers

  /** The two kinds of invocation; both make a call site. */
  datatype InvokeKind = CallOp | NewOp

  datatype Expr =
    | Name(id: string)                                        // x
    | GetProp(obj: Expr, prop: string)                        // obj.prop
    | GetElem(obj: Expr, index: Expr)                         // obj[index]
    | Invoke(kind: InvokeKind, node: nat, callee: Expr, args: seq<Expr>)  // callee(args), new callee(args)
    | Assign(lhs: Expr, rhs: Expr)                            // lhs = rhs
    | Func(node: nat, name: string, body: seq<Stmt>)          // function name(){body}; "" is anonymous
    | Value                                                   // any other value: a number, {}, ...

  datatype Stmt =
    | FuncDecl(node: nat, name: string, body: seq<Stmt>)      // function name(){body}
    | Var(name: string, init: Option<Expr>)                   // var name = init;
    | ExprStmt(expr: Expr)                                    // expr;

  /** A whole program: the statements of the global BLOCK. */
  datatype Program = Program(stmts: seq<Stmt>)

  /** Node types, as far as the model distinguishes them. */
  datatype Token = BLOCK | FUNCTION | CALL | NEW | NAME | GETPROP | GETELEM | ASSIGN | OTHER

  function TokenOf(e: Expr): Token {
    match e
    case Name(_) => NAME
    case GetProp(_, _) => GETPROP
    case GetElem(_, _) => GETELEM
    case Invoke(k, _, _, _) => if k == CallOp then CALL else NEW
    case Assign(_, _) => ASSIGN
    case Func(_, _, _) => FUNCTION
    case Value => OTHER
  }

  /**
   * The dotted name an expression denotes: `a` for the name a, `a.b.c` for a
   * chain of property accesses on a name, and nothing for any other shape.
   */
  function QualifiedName(e: Expr): (r: Option<string>)
    ensures r.Some? ==> e.Name? || e.GetProp?
    ensures e.Name? ==> r == Some(e.id)
    ensures e.GetProp? && QualifiedName(e.obj).Some? ==> r == Some(QualifiedName(e.obj).value + "." + e.prop)
    ensures e.GetProp? && QualifiedName(e.obj).None? ==> r.None?
  {
    match e
    case Name(n) => Some(n)
    case GetProp(o, p) =>
      (match QualifiedName(o)
       case Some(q) => Some(q + "." + p)
       case None => None)
    case _ => None
  }
}
