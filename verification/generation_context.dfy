/**
 * JsGenerationContext: a parent-linked chain of contexts, each with its own
 * statement container and scope, all sharing one program root and one static
 * context (the name registry).
 */
module GenerationContext {
  import opened Wrappers
  import opened Ir
  import opened JsAst

  /**
   * The behaviour of the name registry and special-name helpers, which are not
   * part of this model: the identifier assigned to a symbol or a descriptor,
   * the string for a special parameter name, and the reference expression for
   * a compiler-synthesised binding.
   */
  datatype Registry = Registry(
    nameForSymbol: SymbolId -> string,
    nameForDescriptor: nat -> string,
    specialNameString: string -> string,
    specialRefForName: Name -> Expr)

  /** JsStaticContext: built once from the root scope, the global block and the name generator. */
  datatype StaticContext = StaticContext(rootScope: Scope, globalBlock: seq<Stmt>, registry: Registry)

  datatype Context = Context(
    parent: Option<Context>,
    currentBlock: seq<Stmt>,
    currentScope: Scope,
    program: Program,
    staticContext: StaticContext)

  /**
   * Statement lowering of a function body, which is not part of this model. It
   * lowers the expressions it embeds and so fails as they do.
   */
  type BodyLowering = (IrBody, Context) -> Result<Stmt, LoweringError>

  /** The first constructor: the root of a compilation. */
  function Root(rootScope: Scope, registry: Registry): (c: Context)
    requires rootScope.RootScope?
    ensures c.parent.None?
    ensures c.program == rootScope.program
    ensures c.currentBlock == c.program.globalBlock
    ensures c.currentScope == rootScope
    ensures c.staticContext.rootScope == rootScope && c.staticContext.globalBlock == c.program.globalBlock
    ensures ChainShares(c)
  {
    Context(None, rootScope.program.globalBlock, rootScope, rootScope.program,
            StaticContext(rootScope, rootScope.program.globalBlock, registry))
  }

  /** The second constructor: a child of `parent` with its own block and scope. */
  function Child(parent: Context, block: seq<Stmt>, scope: Scope): (c: Context)
    ensures c.parent == Some(parent)
    ensures c.currentBlock == block && c.currentScope == scope
    ensures c.program == parent.program && c.staticContext == parent.staticContext
  {
    Context(Some(parent), block, scope, parent.program, parent.staticContext)
  }

  /** `newDeclaration(scope)`: a child context with a fresh empty block; the caller is a value and stays as it was. */
  function NewDeclaration(ctx: Context, scope: Scope): (c: Context)
    ensures c.parent == Some(ctx)
    ensures c.currentBlock == [] && c.currentScope == scope
    ensures c.program == ctx.program && c.staticContext == ctx.staticContext
    ensures ChainShares(ctx) ==> ChainShares(c)
  {
    Child(ctx, [], scope)
  }

  /** Every context on the chain from `c` to the root shares `c`'s program and static context. */
  ghost predicate ChainShares(c: Context)
    decreases c
  {
    match c.parent
    case None => true
    case Some(p) => p.program == c.program && p.staticContext == c.staticContext && ChainShares(p)
  }

  /** `a` is `c` or one of its ancestors. */
  ghost predicate AncestorOf(a: Context, c: Context)
    decreases c
  {
    a == c || (c.parent.Some? && AncestorOf(a, c.parent.value))
  }

  function GetNameForSymbol(ctx: Context, symbol: SymbolId): string {
    ctx.staticContext.registry.nameForSymbol(symbol)
  }

  function GetNameForDescriptor(ctx: Context, descriptor: nat): string {
    ctx.staticContext.registry.nameForDescriptor(descriptor)
  }

  function GetSpecialRefForName(ctx: Context, name: Name): Expr {
    ctx.staticContext.registry.specialRefForName(name)
  }

  /**
   * Name lookups are answered by the shared static context, so on a chain
   * built by the constructors every ancestor gives the same answers.
   */
  lemma {:induction false} LookupsAgreeAlongChain(a: Context, c: Context, symbol: SymbolId, descriptor: nat, name: Name)
    requires ChainShares(c) && AncestorOf(a, c)
    ensures a.staticContext == c.staticContext && a.program == c.program
    ensures GetNameForSymbol(a, symbol) == GetNameForSymbol(c, symbol)
    ensures GetNameForDescriptor(a, descriptor) == GetNameForDescriptor(c, descriptor)
    ensures GetSpecialRefForName(a, name) == GetSpecialRefForName(c, name)
    decreases c
  {
    if a != c {
      LookupsAgreeAlongChain(a, c.parent.value, symbol, descriptor, name);
    }
  }

  /** The name of a value parameter in the generated function. */
  function ParameterName(sc: StaticContext, n: Name): (r: string)
  {
    if n.isSpecial then sc.registry.specialNameString(n.asString) else n.asString
  }

  const RECEIVER_PARAMETER: string := "$receiver"

  /** The body of the generated function: the lowered body when that is a block, otherwise empty. */
  function FunctionBody(decl: IrFunction, functionContext: Context, lowerBody: BodyLowering): Result<seq<Stmt>, LoweringError> {
    if decl.body.None? then Ok([])
    else
      match lowerBody(decl.body.value, functionContext)
      case Err(e) => Err(e)
      case Ok(Block(ss)) => Ok(ss)
      case Ok(_) => Ok([])
  }

  /** What `translateFunction` produces, stated as a value. */
  function TranslatedFunction(ctx: Context, decl: IrFunction, name: Option<Name>, lowerBody: BodyLowering): Result<JsFunction, LoweringError> {
    var functionScope := FunctionScope(ctx.currentScope);
    var functionContext := NewDeclaration(ctx, functionScope);
    var body :- FunctionBody(decl, functionContext, lowerBody);
    Ok(JsFunction(
      if name.Some? then Some(ToJsName(name.value)) else None,
      (if decl.hasExtensionReceiver then [RECEIVER_PARAMETER] else [])
        + seq(|decl.valueParameters|, i requires 0 <= i < |decl.valueParameters| => ParameterName(ctx.staticContext, decl.valueParameters[i])),
      body,
      functionScope))
  }

  /**
   * The parameter list is `$receiver` first exactly when there is an extension
   * receiver, then one parameter per value parameter in order, special names remapped;
   * the name is the converted given name or none; the body is the lowered block or empty,
   * lowered in a child context of `ctx` whose scope is the function's own scope.
   * The translation fails exactly when the body's lowering fails, with its error.
   */
  lemma TranslatedFunctionShape(ctx: Context, decl: IrFunction, name: Option<Name>, lowerBody: BodyLowering)
    ensures var r := TranslatedFunction(ctx, decl, name, lowerBody);
      var functionContext := NewDeclaration(ctx, FunctionScope(ctx.currentScope));
      && (r.Err? <==> decl.body.Some? && lowerBody(decl.body.value, functionContext).Err?)
      && (r.Err? ==> r.error == lowerBody(decl.body.value, functionContext).error)
    ensures var r := TranslatedFunction(ctx, decl, name, lowerBody);
      r.Ok? ==>
      var f := r.value;
      var offset := if decl.hasExtensionReceiver then 1 else 0;
      && |f.parameters| == offset + |decl.valueParameters|
      && (decl.hasExtensionReceiver ==> f.parameters[0] == RECEIVER_PARAMETER)
      && (forall i :: 0 <= i < |decl.valueParameters| ==>
            f.parameters[offset + i] == ParameterName(ctx.staticContext, decl.valueParameters[i]))
      && (name.None? <==> f.name.None?)
      && (name.Some? ==> f.name == Some(name.value.asString))
      && f.scope == FunctionScope(ctx.currentScope)
      && (decl.body.None? ==> f.body == [])
      && (decl.body.Some? ==>
            var lowered := lowerBody(decl.body.value, NewDeclaration(ctx, f.scope)).value;
            f.body == (if lowered.Block? then lowered.statements else []))
  {
  }

  /**
   * `translateFunction`: creates the function, sets its name, then appends the
   * receiver parameter and one parameter per value parameter, declaring each
   * name in the function's scope.
   */
  method TranslateFunction(ctx: Context, decl: IrFunction, name: Option<Name>, lowerBody: BodyLowering)
    returns (r: Result<JsFunction, LoweringError>)
    ensures r == TranslatedFunction(ctx, decl, name, lowerBody)
  {
    var functionScope := FunctionScope(ctx.currentScope);
    var functionContext := NewDeclaration(ctx, functionScope);
    var lowered := FunctionBody(decl, functionContext, lowerBody);
    if lowered.Err? {
      return Err(lowered.error);
    }
    var body := lowered.value;
    var f := JsFunction(None, [], body, functionScope);
    f := f.(name := if name.Some? then Some(ToJsName(name.value)) else None);
    if decl.hasExtensionReceiver {
      f := f.(parameters := f.parameters + [RECEIVER_PARAMETER]);
    }
    ghost var expected := TranslatedFunction(ctx, decl, name, lowerBody);
    assert expected.Ok? && expected.value.name == f.name && expected.value.body == body;
    var prefix := f.parameters;
    var i := 0;
    while i < |decl.valueParameters|
      invariant 0 <= i <= |decl.valueParameters|
      invariant f.name == expected.value.name
      invariant f.body == body && f.scope == functionScope
      invariant prefix == (if decl.hasExtensionReceiver then [RECEIVER_PARAMETER] else [])
      invariant |f.parameters| == |prefix| + i
      invariant f.parameters[..|prefix|] == prefix
      invariant forall k :: 0 <= k < i ==>
        f.parameters[|prefix| + k] == ParameterName(ctx.staticContext, decl.valueParameters[k])
    {
      var p := decl.valueParameters[i];
      var parameterName;
      if p.isSpecial {
        parameterName := ctx.staticContext.registry.specialNameString(p.asString);
      } else {
        parameterName := p.asString;
      }
      assert parameterName == ParameterName(ctx.staticContext, p);
      f := f.(parameters := f.parameters + [parameterName]);
      i := i + 1;
    }
    assert f.parameters == expected.value.parameters;
    r := Ok(f);
  }
}
