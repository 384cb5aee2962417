/**
 * The free helpers of jsAstUtils.kt that need the expression lowering or the
 * generation context: `jsVar` and the free duplicates of `translateFunction`
 * and `translateCallArguments`.
 */
module JsAstUtils {
  import opened Wrappers
  import opened Ir
  import opened JsAst
  import opened GenerationContext
  import opened ExpressionLowering

  /** `jsVar(name, initializer, context)`: a single variable declaration. */
  function JsVar(name: Name, initializer: Option<IrExpr>, ctx: Context): (r: Result<Stmt, LoweringError>)
    ensures initializer.None? ==> r == Ok(Vars([VarDecl(name.asString, None)]))
    ensures initializer.Some? ==>
      (r.Ok? <==> Lower(ctx, initializer.value).Ok?)
      && (r.Ok? ==> r.value == Vars([VarDecl(name.asString, Some(Lower(ctx, initializer.value).value))]))
  {
    var jsInitializer :- (if initializer.None? then Ok(None)
                          else var i :- Lower(ctx, initializer.value); Ok(Some(i)));
    Ok(Vars([VarDecl(ToJsName(name), jsInitializer)]))
  }

  /** The free `translateFunction`: the same steps as the context's, with the context passed in. */
  method TranslateFunction(decl: IrFunction, name: Option<Name>, ctx: Context, lowerBody: BodyLowering)
    returns (r: Result<JsFunction, LoweringError>)
    ensures r == TranslatedFunction(ctx, decl, name, lowerBody)
    ensures r.Ok? ==> |r.value.parameters| == (if decl.hasExtensionReceiver then 1 else 0) + |decl.valueParameters|
  {
    var functionScope := FunctionScope(ctx.currentScope);
    var functionContext := NewDeclaration(ctx, functionScope);
    var lowered := FunctionBody(decl, functionContext, lowerBody);
    if lowered.Err? {
      return Err(lowered.error);
    }
    var f := JsFunction(None, [], lowered.value, functionScope);
    f := f.(name := if name.Some? then Some(ToJsName(name.value)) else None);
    var parameters: seq<string> := [];
    if decl.hasExtensionReceiver {
      parameters := parameters + [RECEIVER_PARAMETER];
    }
    ghost var prefix := parameters;
    for i := 0 to |decl.valueParameters|
      invariant prefix == (if decl.hasExtensionReceiver then [RECEIVER_PARAMETER] else [])
      invariant |parameters| == |prefix| + i
      invariant parameters[..|prefix|] == prefix
      invariant forall k :: 0 <= k < i ==>
        parameters[|prefix| + k] == ParameterName(ctx.staticContext, decl.valueParameters[k])
    {
      var p := decl.valueParameters[i];
      var parameterName := if p.isSpecial then ctx.staticContext.registry.specialNameString(p.asString) else p.asString;
      parameters := parameters + [parameterName];
    }
    assert parameters == TranslatedFunction(ctx, decl, name, lowerBody).value.parameters;
    r := Ok(f.(parameters := parameters));
  }

  /** The free `translateCallArguments`: one slot per parameter, lowered in index order. */
  function TranslateCallArgumentsFree(call: IrExpr, parameterCount: nat, ctx: Context): (r: Result<seq<Expr>, LoweringError>)
    requires call.IsMemberAccess() && parameterCount <= |call.args|
    decreases parameterCount
  {
    if parameterCount == 0 then Ok([])
    else
      var init :- TranslateCallArgumentsFree(call, parameterCount - 1, ctx);
      var argument := call.args[parameterCount - 1];
      var last :- (if argument.Some? then Lower(ctx, argument.value) else Ok(VoidOne()));
      Ok(init + [last])
  }

  /** The free projection returns the same result, error included, as the context's. */
  lemma {:induction false} FreeCallArgumentsAgree(call: IrExpr, parameterCount: nat, ctx: Context)
    requires call.IsMemberAccess() && parameterCount <= |call.args|
    ensures TranslateCallArgumentsFree(call, parameterCount, ctx) == TranslateCallArguments(ctx, call, parameterCount)
    decreases parameterCount
  {
    if parameterCount > 0 {
      FreeCallArgumentsAgree(call, parameterCount - 1, ctx);
    }
  }

  /**
   * Projection totality: exactly `parameterCount` expressions, slot `i` the
   * lowered argument `i` when supplied and `void 1` otherwise.
   */
  lemma FreeCallArgumentsProjection(call: IrExpr, parameterCount: nat, ctx: Context)
    requires call.IsMemberAccess() && parameterCount <= |call.args|
    requires TranslateCallArgumentsFree(call, parameterCount, ctx).Ok?
    ensures var r := TranslateCallArgumentsFree(call, parameterCount, ctx).value;
      && |r| == parameterCount
      && forall i :: 0 <= i < parameterCount ==>
           (call.args[i].None? ==> r[i] == VoidOne())
           && (call.args[i].Some? ==> Lower(ctx, call.args[i].value) == Ok(r[i]))
  {
    FreeCallArgumentsAgree(call, parameterCount, ctx);
    var r := TranslateCallArguments(ctx, call, parameterCount);
    forall i | 0 <= i < parameterCount ensures Slot(ctx, call, i) == Ok(r.value[i]) { }
  }
}
