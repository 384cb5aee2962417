/**
 * The target JavaScript syntax tree, the `Namer` constants the lowering uses,
 * and the pure node builders of jsAstUtils.kt.
 */
module JsAst {
  import opened Wrappers
  import Ir

  datatype UnaryOperator = Void
  datatype BinaryOperator = Asg

  datatype Expr =
    | NameRef(ident: string, qualifier: Option<Expr>)
    | StringLit(s: string)
    | IntLit(i: int)
    | Prefix(unOp: UnaryOperator, operand: Expr)
    | Binary(binOp: BinaryOperator, left: Expr, right: Expr)
    | Invocation(callee: Expr, arguments: seq<Expr>)
    | New(ctorRef: Expr, arguments: seq<Expr>)
    | ThisRef
    | FunctionExpr(fn: JsFunction)
    | ObjectLit(properties: seq<PropertyInit>, multiline: bool)
    | ArrayLit(elements: seq<Expr>)

  datatype PropertyInit = PropertyInit(key: Expr, value: Expr)

  /** A function node: its name (absent for an anonymous function), parameter names, body statements and scope. */
  datatype JsFunction = JsFunction(name: Option<string>, parameters: seq<string>, body: seq<Stmt>, scope: Scope)

  datatype VarDecl = VarDecl(name: string, initializer: Option<Expr>)

  datatype Stmt =
    | ExprStmt(expression: Expr)
    | Block(statements: seq<Stmt>)
    | Vars(vars: seq<VarDecl>)

  /** The program root; its global block is the outermost statement container. */
  datatype Program = Program(globalBlock: seq<Stmt>)

  /** JsRootScope belongs to a program; a function scope is nested in its enclosing scope. */
  datatype Scope =
    | RootScope(program: Program)
    | FunctionScope(parent: Scope)

  // Constants defined in the compiler's `Namer`, spelled as the JavaScript runtime conventions spell them.
  const PROTOTYPE_NAME: string := "prototype"
  const CONSTRUCTOR_NAME: string := "constructor"
  const CALL_FUNCTION: string := "call"
  const METADATA: string := "$metadata$"
  const METADATA_SIMPLE_NAME: string := "simpleName"
  const METADATA_SUPERTYPES: string := "supertypes"
  const JS_OBJECT_CREATE_FUNCTION: Expr := NameRef("create", Some(NameRef("Object", None)))

  /** `e.makeStmt()`: an expression statement. */
  function MakeStmt(e: Expr): (s: Stmt)
  {
    ExprStmt(e)
  }

  /**
   * `Name.toJsName()`: the name declared in the dynamic scope, which hands back a
   * JavaScript name with the same identifier.
   */
  function ToJsName(n: Ir.Name): (r: string)
  {
    n.asString
  }

  /** `void 1`, the marker for an absent value. */
  function VoidOne(): (r: Expr)
  {
    Prefix(Void, IntLit(1))
  }

  /** `jsAssignment(l, r)`: the binary `=` node. */
  function JsAssignment(left: Expr, right: Expr): (r: Expr)
  {
    Binary(Asg, left, right)
  }

  /** `prototypeOf(r)`: `r.prototype`. */
  function PrototypeOf(classNameRef: Expr): (r: Expr)
  {
    NameRef(PROTOTYPE_NAME, Some(classNameRef))
  }

  /** Is `s` the statement `target.$metadata$ = <object literal>`? */
  predicate IsMetadataAssignment(s: Stmt, target: Expr) {
    s.ExprStmt? && s.expression.Binary? && s.expression.binOp == Asg
    && s.expression.left == NameRef(METADATA, Some(target))
    && s.expression.right.ObjectLit?
  }
}
