/**
 * IrElementToJsExpressionTransformer: one IR expression becomes one JavaScript
 * expression. The visitor dispatch is a `match` over the closed IR datatype.
 * `translateCallArguments` of the generation context lives here because it and
 * the transformer call each other.
 */
module ExpressionLowering {
  import opened Wrappers
  import opened Ir
  import opened JsAst
  import opened GenerationContext

  // ---------------------------------------------------------------------------
  // `value.toString()` for the constant kinds of the model.

  function DigitChar(d: nat): (c: char)
    requires d < 10
    ensures '0' <= c <= '9'
  {
    (48 + d) as char
  }

  /** Decimal digits of `n`, most significant first, without leading zeros. */
  function NatToString(n: nat): (s: string)
    ensures |s| >= 1
    ensures forall i :: 0 <= i < |s| ==> '0' <= s[i] <= '9'
    decreases n
  {
    if n < 10 then [DigitChar(n)] else NatToString(n / 10) + [DigitChar(n % 10)]
  }

  /** The value of a string of decimal digits. */
  function DecimalValue(s: string): nat
    requires forall i :: 0 <= i < |s| ==> '0' <= s[i] <= '9'
    decreases |s|
  {
    if s == [] then 0 else 10 * DecimalValue(s[..|s| - 1]) + (s[|s| - 1] as int - 48)
  }

  /** Reading the decimal string back gives the number. */
  lemma {:induction false} NatToStringRoundTrip(n: nat)
    ensures DecimalValue(NatToString(n)) == n
    decreases n
  {
    var s := NatToString(n);
    if n >= 10 {
      NatToStringRoundTrip(n / 10);
      assert s[..|s| - 1] == NatToString(n / 10);
    }
  }

  function IntToString(i: int): string {
    if i < 0 then "-" + NatToString(-i) else NatToString(i)
  }

  /** An optional minus sign followed by at least one decimal digit. */
  predicate IsSignedDecimal(s: string) {
    && |s| >= 1
    && (s[0] == '-' ==> |s| >= 2 && forall i :: 1 <= i < |s| ==> '0' <= s[i] <= '9')
    && (s[0] != '-' ==> forall i :: 0 <= i < |s| ==> '0' <= s[i] <= '9')
  }

  /** The value of a signed decimal string. */
  function SignedValue(s: string): int
    requires IsSignedDecimal(s)
  {
    if s[0] == '-' then
      assert forall i :: 0 <= i < |s[1..]| ==> s[1..][i] == s[i + 1];
      var magnitude: int := DecimalValue(s[1..]);
      -magnitude
    else DecimalValue(s)
  }

  /** Reading the text of any integer, negative ones included, gives the integer back. */
  lemma IntToStringRoundTrip(i: int)
    ensures IsSignedDecimal(IntToString(i))
    ensures SignedValue(IntToString(i)) == i
  {
    var s := IntToString(i);
    if i < 0 {
      var digits := NatToString(-i);
      assert s == "-" + digits;
      assert s[1..] == digits;
      assert forall k :: 1 <= k < |s| ==> s[k] == digits[k - 1];
      assert IsSignedDecimal(s);
      NatToStringRoundTrip(-i);
      assert SignedValue(s) == 0 - DecimalValue(digits);
    } else {
      NatToStringRoundTrip(i);
      assert s[0] != '-';
    }
  }

  function ConstToString(v: ConstValue): string {
    match v
    case IntConst(i) => IntToString(i)
    case BoolConst(b) => if b then "true" else "false"
    case CharConst(c) => [c]
    case StringConst(s) => s
    case NullConst => "null"
  }

  // ---------------------------------------------------------------------------
  // The transformer.

  /** Lowering of one IR expression; `Err` is the exception the visitor raises. */
  function Lower(ctx: Context, e: IrExpr): (r: Result<Expr, LoweringError>)
    ensures r.Err? ==> r.error.owner.ConstructorOwner?
    decreases e, 1, 0
  {
    match e
    case ExpressionBody(inner) =>
      Lower(ctx, inner)
    case Const(v) =>
      Ok(StringLit(ConstToString(v)))
    case GetField(field, receiver) =>
      if receiver.None? then Ok(NameRef(field.asString, None))
      else
        var q :- Lower(ctx, receiver.value);
        Ok(NameRef(field.asString, Some(q)))
    case SetField(field, receiver, newValue) =>
      var q :- (if receiver.None? then Ok(None)
                else var r :- Lower(ctx, receiver.value); Ok(Some(r)));
      var source :- Lower(ctx, newValue);
      Ok(JsAssignment(NameRef(field.asString, q), source))
    case GetValue(symbol, symbolName) =>
      if symbolName.isSpecial then Ok(GetSpecialRefForName(ctx, symbolName))
      else Ok(NameRef(GetNameForSymbol(ctx, symbol), None))
    case DelegatingConstructorCall(constructedClass, args) =>
      var arguments :- TranslateCallArguments(ctx, e, |args|);
      Ok(Invocation(NameRef(CALL_FUNCTION, Some(NameRef(ToJsName(constructedClass), None))), [ThisRef] + arguments))
    case Call(owner, dispatchReceiver, extensionReceiver, args) =>
      var d :- (if dispatchReceiver.None? then Ok(None)
                else var r :- Lower(ctx, dispatchReceiver.value); Ok(Some(r)));
      var x :- (if extensionReceiver.None? then Ok(None)
                else var r :- Lower(ctx, extensionReceiver.value); Ok(Some(r)));
      // The owner is cast to a simple function before the primary-constructor
      // test, so a constructor owner fails here and `new C(...)` is never built.
      if owner.ConstructorOwner? then Err(CalleeNotSimpleFunction(owner))
      else
        var ref := NameRef(owner.name.asString, d);
        var arguments :- TranslateCallArguments(ctx, e, |args|);
        Ok(Invocation(ref, if x.Some? then [x.value] + arguments else arguments))
  }

  /** Slot `i` of a call: the lowered argument when supplied, otherwise `void 1`. */
  function Slot(ctx: Context, call: IrExpr, i: nat): (r: Result<Expr, LoweringError>)
    requires call.IsMemberAccess() && i < |call.args|
    ensures r.Err? ==> r.error.owner.ConstructorOwner?
    decreases call, 0, 0
  {
    if call.args[i].None? then Ok(VoidOne()) else Lower(ctx, call.args[i].value)
  }

  /**
   * `JsGenerationContext.translateCallArguments`: the arguments projected onto
   * `parameterCount` slots, lowered in index order.
   */
  function TranslateCallArguments(ctx: Context, call: IrExpr, parameterCount: nat): (r: Result<seq<Expr>, LoweringError>)
    requires call.IsMemberAccess() && parameterCount <= |call.args|
    ensures r.Ok? <==> forall i :: 0 <= i < parameterCount ==> Slot(ctx, call, i).Ok?
    ensures r.Ok? ==> |r.value| == parameterCount
    ensures r.Ok? ==> forall i :: 0 <= i < parameterCount ==> Slot(ctx, call, i) == Ok(r.value[i])
    ensures r.Err? ==> r.error.owner.ConstructorOwner?
    decreases call, 0, parameterCount
  {
    if parameterCount == 0 then Ok([])
    else
      var init := TranslateCallArguments(ctx, call, parameterCount - 1);
      if init.Err? then
        assert exists i :: 0 <= i < parameterCount - 1 && !Slot(ctx, call, i).Ok?;
        Err(init.error)
      else
        var last := Slot(ctx, call, parameterCount - 1);
        if last.Err? then
          assert last == Slot(ctx, call, parameterCount - 1) && last.Err?;
          assert 0 <= parameterCount - 1 < parameterCount && !Slot(ctx, call, parameterCount - 1).Ok?;
          Err(last.error)
        else
          Ok(init.value + [last.value])
  }

  // ---------------------------------------------------------------------------
  // Properties of the lowering.

  /** Does lowering reach a call whose callee is a constructor? (An independent description of the failure case.) */
  predicate ReachesConstructorCall(e: IrExpr)
    decreases e
  {
    match e
    case ExpressionBody(inner) => ReachesConstructorCall(inner)
    case Const(_) => false
    case GetField(_, receiver) => receiver.Some? && ReachesConstructorCall(receiver.value)
    case SetField(_, receiver, newValue) =>
      (receiver.Some? && ReachesConstructorCall(receiver.value)) || ReachesConstructorCall(newValue)
    case GetValue(_, _) => false
    case DelegatingConstructorCall(_, args) =>
      exists i :: 0 <= i < |args| && args[i].Some? && ReachesConstructorCall(args[i].value)
    case Call(owner, dispatchReceiver, extensionReceiver, args) =>
      owner.ConstructorOwner?
      || (dispatchReceiver.Some? && ReachesConstructorCall(dispatchReceiver.value))
      || (extensionReceiver.Some? && ReachesConstructorCall(extensionReceiver.value))
      || exists i :: 0 <= i < |args| && args[i].Some? && ReachesConstructorCall(args[i].value)
  }

  /**
   * The lowering fails exactly when it reaches a call to a constructor: the cast
   * of the callee to a simple function is the only way the transformer aborts.
   */
  lemma {:induction false} LowerFailsIffConstructorCall(ctx: Context, e: IrExpr)
    ensures Lower(ctx, e).Err? <==> ReachesConstructorCall(e)
    decreases e
  {
    match e
    case ExpressionBody(inner) =>
      LowerFailsIffConstructorCall(ctx, inner);
    case Const(_) =>
    case GetField(_, receiver) =>
      if receiver.Some? { LowerFailsIffConstructorCall(ctx, receiver.value); }
    case SetField(_, receiver, newValue) =>
      if receiver.Some? { LowerFailsIffConstructorCall(ctx, receiver.value); }
      LowerFailsIffConstructorCall(ctx, newValue);
    case GetValue(_, _) =>
    case DelegatingConstructorCall(_, args) =>
      SlotsFailIffConstructorCall(ctx, e);
    case Call(owner, dispatchReceiver, extensionReceiver, args) =>
      if dispatchReceiver.Some? { LowerFailsIffConstructorCall(ctx, dispatchReceiver.value); }
      if extensionReceiver.Some? { LowerFailsIffConstructorCall(ctx, extensionReceiver.value); }
      SlotsFailIffConstructorCall(ctx, e);
  }

  lemma {:induction false} SlotsFailIffConstructorCall(ctx: Context, call: IrExpr)
    requires call.IsMemberAccess()
    ensures TranslateCallArguments(ctx, call, |call.args|).Err?
        <==> exists i :: 0 <= i < |call.args| && call.args[i].Some? && ReachesConstructorCall(call.args[i].value)
    ensures forall i :: 0 <= i < |call.args| && call.args[i].Some? ==>
      (Slot(ctx, call, i).Err? <==> ReachesConstructorCall(call.args[i].value))
    ensures forall i :: 0 <= i < |call.args| && call.args[i].None? ==> Slot(ctx, call, i).Ok?
    decreases call, 0
  {
    forall i | 0 <= i < |call.args| && call.args[i].Some?
      ensures Slot(ctx, call, i).Err? <==> ReachesConstructorCall(call.args[i].value)
    {
      LowerFailsIffConstructorCall(ctx, call.args[i].value);
    }
  }

  /** Even a primary constructor as callee fails: the `new C(...)` form is unreachable. */
  lemma ConstructorCallNeverBuildsNew(ctx: Context, e: IrExpr)
    requires e.Call? && e.owner.ConstructorOwner?
    ensures Lower(ctx, e).Err?
  {
    LowerFailsIffConstructorCall(ctx, e);
  }

  /**
   * The call lowering the `new C(...)` branch evidently intends: the test for a
   * primary constructor comes before the cast to a simple function, so such a
   * call becomes `new C(arguments)` with `C` the constructor's class. Receivers
   * and arguments are lowered as before; a secondary constructor still fails
   * the cast, and a call to a simple function is lowered as before.
   */
  function IntendedCallLowering(ctx: Context, e: IrExpr): Result<Expr, LoweringError>
    requires e.Call?
  {
    var d :- (if e.dispatchReceiver.None? then Ok(None)
              else var r :- Lower(ctx, e.dispatchReceiver.value); Ok(Some(r)));
    var x :- (if e.extensionReceiver.None? then Ok(None)
              else var r :- Lower(ctx, e.extensionReceiver.value); Ok(Some(r)));
    if e.owner.ConstructorOwner? && e.owner.isPrimary then
      var arguments :- TranslateCallArguments(ctx, e, |e.args|);
      Ok(New(NameRef(e.owner.parentClassName.asString, None), arguments))
    else if e.owner.ConstructorOwner? then Err(CalleeNotSimpleFunction(e.owner))
    else
      var arguments :- TranslateCallArguments(ctx, e, |e.args|);
      Ok(Invocation(NameRef(e.owner.name.asString, d), if x.Some? then [x.value] + arguments else arguments))
  }

  /** Every argument slot of `call` lowers without an exception. */
  predicate ArgumentsLower(ctx: Context, call: IrExpr)
    requires call.IsMemberAccess()
  {
    forall i :: 0 <= i < |call.args| ==> Slot(ctx, call, i).Ok?
  }

  /** A receiver that is absent or lowers without an exception. */
  predicate ReceiverLowers(ctx: Context, receiver: Option<IrExpr>) {
    receiver.None? || Lower(ctx, receiver.value).Ok?
  }

  /**
   * With the intended order, a call to a primary constructor succeeds exactly
   * when its receivers and every argument slot lower, and then it is
   * `new C(...)` naming the constructor's class, with one argument per slot.
   */
  lemma IntendedPrimaryConstructorCallBuildsNew(ctx: Context, e: IrExpr)
    requires e.Call? && e.owner.ConstructorOwner? && e.owner.isPrimary
    ensures var r := IntendedCallLowering(ctx, e);
      && (r.Ok? <==> ReceiverLowers(ctx, e.dispatchReceiver) && ReceiverLowers(ctx, e.extensionReceiver)
                     && ArgumentsLower(ctx, e))
      && (r.Ok? ==>
            && r.value.New?
            && r.value.ctorRef == NameRef(e.owner.parentClassName.asString, None)
            && |r.value.arguments| == |e.args|
            && forall i :: 0 <= i < |e.args| ==> Slot(ctx, e, i) == Ok(r.value.arguments[i]))
  {
    var arguments := TranslateCallArguments(ctx, e, |e.args|);
    if ReceiverLowers(ctx, e.dispatchReceiver) && ReceiverLowers(ctx, e.extensionReceiver) {
      if arguments.Ok? {
        assert IntendedCallLowering(ctx, e) == Ok(New(NameRef(e.owner.parentClassName.asString, None), arguments.value));
      } else {
        assert !ArgumentsLower(ctx, e);
        assert IntendedCallLowering(ctx, e).Err?;
      }
    }
  }

  /** Apart from primary constructors, the intended lowering is the lowering as written. */
  lemma IntendedCallAgreesOtherwise(ctx: Context, e: IrExpr)
    requires e.Call? && !(e.owner.ConstructorOwner? && e.owner.isPrimary)
    ensures IntendedCallLowering(ctx, e) == Lower(ctx, e)
  {
  }

  /**
   * The result depends on the context only through its static context, which
   * every context of a chain shares with the root.
   */
  lemma {:induction false} LowerDependsOnlyOnStaticContext(c1: Context, c2: Context, e: IrExpr)
    requires c1.staticContext == c2.staticContext
    ensures Lower(c1, e) == Lower(c2, e)
    decreases e, 1
  {
    match e
    case ExpressionBody(inner) =>
      LowerDependsOnlyOnStaticContext(c1, c2, inner);
    case Const(_) =>
    case GetField(_, receiver) =>
      if receiver.Some? { LowerDependsOnlyOnStaticContext(c1, c2, receiver.value); }
    case SetField(_, receiver, newValue) =>
      if receiver.Some? { LowerDependsOnlyOnStaticContext(c1, c2, receiver.value); }
      LowerDependsOnlyOnStaticContext(c1, c2, newValue);
    case GetValue(_, _) =>
    case DelegatingConstructorCall(_, args) =>
      ArgumentsDependOnlyOnStaticContext(c1, c2, e, |args|);
    case Call(_, dispatchReceiver, extensionReceiver, args) =>
      if dispatchReceiver.Some? { LowerDependsOnlyOnStaticContext(c1, c2, dispatchReceiver.value); }
      if extensionReceiver.Some? { LowerDependsOnlyOnStaticContext(c1, c2, extensionReceiver.value); }
      ArgumentsDependOnlyOnStaticContext(c1, c2, e, |args|);
  }

  lemma {:induction false} ArgumentsDependOnlyOnStaticContext(c1: Context, c2: Context, call: IrExpr, parameterCount: nat)
    requires c1.staticContext == c2.staticContext
    requires call.IsMemberAccess() && parameterCount <= |call.args|
    ensures TranslateCallArguments(c1, call, parameterCount) == TranslateCallArguments(c2, call, parameterCount)
    decreases call, 0, parameterCount
  {
    if parameterCount > 0 {
      ArgumentsDependOnlyOnStaticContext(c1, c2, call, parameterCount - 1);
      var i := parameterCount - 1;
      if call.args[i].Some? {
        LowerDependsOnlyOnStaticContext(c1, c2, call.args[i].value);
      }
    }
  }

  /** Lowering gives the same tree in every context of a chain built by the constructors. */
  lemma LoweringAgreesAlongChain(a: Context, c: Context, e: IrExpr)
    requires ChainShares(c) && AncestorOf(a, c)
    ensures Lower(a, e) == Lower(c, e)
  {
    LookupsAgreeAlongChain(a, c, 0, 0, Name([], false));
    LowerDependsOnlyOnStaticContext(a, c, e);
  }

  /** An expression body lowers as its expression; a constant becomes the string of its value, whatever its type. */
  lemma {:induction false} LowerLeaves(ctx: Context, e: IrExpr, v: ConstValue)
    ensures Lower(ctx, ExpressionBody(e)) == Lower(ctx, e)
    ensures Lower(ctx, ExpressionBody(Const(v))) == Ok(StringLit(ConstToString(v)))
    ensures forall n: int :: Lower(ctx, Const(IntConst(n))) == Lower(ctx, Const(StringConst(IntToString(n))))
  {
  }

  /**
   * Get-field is a reference to the field name qualified by the lowered
   * receiver when there is one; set-field assigns the lowered value to the
   * get-field form of the same field and receiver.
   */
  lemma FieldAccessShape(ctx: Context, field: Name, receiver: Option<IrExpr>, newValue: IrExpr)
    ensures var g := Lower(ctx, GetField(field, receiver));
      && (receiver.None? ==> g == Ok(NameRef(field.asString, None)))
      && (receiver.Some? && Lower(ctx, receiver.value).Ok? ==>
            g == Ok(NameRef(field.asString, Some(Lower(ctx, receiver.value).value))))
    ensures var s := Lower(ctx, SetField(field, receiver, newValue));
      var g := Lower(ctx, GetField(field, receiver));
      var v := Lower(ctx, newValue);
      && (s.Ok? <==> g.Ok? && v.Ok?)
      && (s.Ok? ==> s.value == Binary(Asg, g.value, v.value))
  {
  }

  /** Get-value: the special reference for a synthesised binding, otherwise an unqualified reference to the registry's name. */
  lemma GetValueShape(ctx: Context, symbol: SymbolId, symbolName: Name)
    ensures symbolName.isSpecial ==> Lower(ctx, GetValue(symbol, symbolName)) == Ok(ctx.staticContext.registry.specialRefForName(symbolName))
    ensures !symbolName.isSpecial ==> Lower(ctx, GetValue(symbol, symbolName)) == Ok(NameRef(ctx.staticContext.registry.nameForSymbol(symbol), None))
  {
  }

  /** A delegating constructor call is `C.call(this, a0, ..., aP-1)`: P+1 arguments, `this` first, then the slots. */
  lemma DelegatingCallShape(ctx: Context, e: IrExpr)
    requires e.DelegatingConstructorCall?
    requires Lower(ctx, e).Ok?
    ensures var r := Lower(ctx, e).value;
      && r.Invocation?
      && r.callee == NameRef(CALL_FUNCTION, Some(NameRef(ToJsName(e.constructedClass), None)))
      && |r.arguments| == |e.args| + 1
      && r.arguments[0] == ThisRef
      && forall i :: 0 <= i < |e.args| ==>
           (e.args[i].None? ==> r.arguments[i + 1] == VoidOne())
           && (e.args[i].Some? ==> Lower(ctx, e.args[i].value) == Ok(r.arguments[i + 1]))
  {
    var t := TranslateCallArguments(ctx, e, |e.args|);
    assert t.Ok?;
    forall i | 0 <= i < |e.args| ensures Slot(ctx, e, i) == Ok(t.value[i]) { }
  }

  /**
   * A call to a simple function invokes its name, qualified by the lowered
   * dispatch receiver exactly when there is one; the arguments are the lowered
   * extension receiver (when there is one) followed by the projected slots.
   */
  lemma CallShape(ctx: Context, e: IrExpr)
    requires e.Call?
    requires Lower(ctx, e).Ok?
    ensures e.owner.SimpleFunctionOwner?
    ensures var r := Lower(ctx, e).value;
      var offset := if e.extensionReceiver.Some? then 1 else 0;
      && r.Invocation?
      && r.callee.NameRef? && r.callee.ident == e.owner.name.asString
      && (r.callee.qualifier.Some? <==> e.dispatchReceiver.Some?)
      && (e.dispatchReceiver.Some? ==> Lower(ctx, e.dispatchReceiver.value) == Ok(r.callee.qualifier.value))
      && |r.arguments| == offset + |e.args|
      && (e.extensionReceiver.Some? ==> Lower(ctx, e.extensionReceiver.value) == Ok(r.arguments[0]))
      && forall i :: 0 <= i < |e.args| ==> Slot(ctx, e, i) == Ok(r.arguments[offset + i])
  {
    LowerFailsIffConstructorCall(ctx, e);
    if e.dispatchReceiver.Some? { LowerFailsIffConstructorCall(ctx, e.dispatchReceiver.value); }
    if e.extensionReceiver.Some? { LowerFailsIffConstructorCall(ctx, e.extensionReceiver.value); }
    SlotsFailIffConstructorCall(ctx, e);
    var t := TranslateCallArguments(ctx, e, |e.args|);
    assert t.Ok?;
  }
}
