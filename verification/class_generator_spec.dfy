/**
 * What JsClassGenerator emits for one class, stated as values: the statement
 * sequence, piece by piece, and the properties of that sequence.
 */
module ClassLowering {
  import opened Wrappers
  import opened Ir
  import opened JsAst
  import opened GenerationContext
  import opened ExpressionLowering

  /**
   * The exceptions class lowering can raise: `first` finds no non-interface
   * supertype, the primary-constructor assertion fails, or the lowering of an
   * initializer or of a function body fails.
   */
  datatype GenError = NoClassSupertype | ConstructorNotPrimary | LoweringFailed(cause: LoweringError)

  function ClassNameRef(cls: IrClass): Expr {
    NameRef(ToJsName(cls.name), None)
  }

  function ClassPrototypeRef(cls: IrClass): Expr {
    PrototypeOf(ClassNameRef(cls))
  }

  // ---------------------------------------------------------------------------
  // Inheritance code.

  /** `superClasses.first { it.kind != INTERFACE }`, with `None` where `first` throws. */
  function FirstNonInterface(s: seq<SuperClass>): Option<SuperClass>
    decreases |s|
  {
    if s == [] then None
    else if s[0].kind != ClassKindInterface then Some(s[0])
    else FirstNonInterface(s[1..])
  }

  lemma {:induction false} FirstNonInterfaceSpec(s: seq<SuperClass>)
    ensures FirstNonInterface(s).None? <==> forall i :: 0 <= i < |s| ==> s[i].kind == ClassKindInterface
    ensures FirstNonInterface(s).Some? ==>
      exists i :: 0 <= i < |s| && s[i] == FirstNonInterface(s).value && s[i].kind != ClassKindInterface
        && forall j :: 0 <= j < i ==> s[j].kind == ClassKindInterface
    decreases |s|
  {
    if s != [] && s[0].kind == ClassKindInterface {
      FirstNonInterfaceSpec(s[1..]);
      if FirstNonInterface(s).Some? {
        var i :| 0 <= i < |s| - 1 && s[1..][i] == FirstNonInterface(s).value && s[1..][i].kind != ClassKindInterface
          && forall j :: 0 <= j < i ==> s[1..][j].kind == ClassKindInterface;
        assert s[i + 1] == FirstNonInterface(s).value;
        assert forall j :: 0 <= j < i + 1 ==> s[j].kind == ClassKindInterface by {
          forall j | 0 <= j < i + 1 ensures s[j].kind == ClassKindInterface {
            if j > 0 { assert s[j] == s[1..][j - 1]; }
          }
        }
      } else {
        forall i | 0 <= i < |s| ensures s[i].kind == ClassKindInterface {
          if i > 0 { assert s[i] == s[1..][i - 1]; }
        }
      }
    }
  }

  /** `generateInheritanceCode`. */
  function InheritanceCode(cls: IrClass): (r: Result<seq<Stmt>, GenError>)
    ensures r.Err? <==> FirstNonInterface(cls.superClasses).None?
    ensures r.Err? ==> r.error == NoClassSupertype
    ensures r.Ok? ==> (r.value == [] <==> FirstNonInterface(cls.superClasses).value.isAny)
    ensures r.Ok? ==> |r.value| == 0 || |r.value| == 2
  {
    match FirstNonInterface(cls.superClasses)
    case None => Err(NoClassSupertype)
    case Some(baseClass) =>
      if baseClass.isAny then Ok([])
      else
        var createCall := MakeStmt(JsAssignment(
          ClassPrototypeRef(cls),
          Invocation(JS_OBJECT_CREATE_FUNCTION, [PrototypeOf(NameRef(ToJsName(baseClass.ownerName), None))])));
        var ctorAssign := MakeStmt(JsAssignment(NameRef(CONSTRUCTOR_NAME, Some(ClassPrototypeRef(cls))), ClassNameRef(cls)));
        Ok([createCall, ctorAssign])
  }

  /**
   * The first non-interface supertype decides: none is an error, `Any` gives
   * nothing, any other base `B` gives exactly
   * `C.prototype = Object.create(B.prototype); C.prototype.constructor = C`.
   */
  lemma InheritanceCodeSpec(cls: IrClass)
    ensures var r := InheritanceCode(cls);
      && (r.Err? <==> forall i :: 0 <= i < |cls.superClasses| ==> cls.superClasses[i].kind == ClassKindInterface)
      && (r.Err? ==> r.error == NoClassSupertype)
      && (r.Ok? ==>
           exists i :: 0 <= i < |cls.superClasses| && cls.superClasses[i].kind != ClassKindInterface
             && (forall j :: 0 <= j < i ==> cls.superClasses[j].kind == ClassKindInterface)
             && var b := cls.superClasses[i];
             && (b.isAny ==> r.value == [])
             && (!b.isAny ==> r.value == [
                   ExprStmt(Binary(Asg, NameRef(PROTOTYPE_NAME, Some(NameRef(cls.name.asString, None))),
                     Invocation(NameRef("create", Some(NameRef("Object", None))),
                                [NameRef(PROTOTYPE_NAME, Some(NameRef(b.ownerName.asString, None)))]))),
                   ExprStmt(Binary(Asg, NameRef(CONSTRUCTOR_NAME, Some(NameRef(PROTOTYPE_NAME, Some(NameRef(cls.name.asString, None))))),
                     NameRef(cls.name.asString, None)))]))
  {
    FirstNonInterfaceSpec(cls.superClasses);
  }

  // ---------------------------------------------------------------------------
  // Field initialisers.

  /** The value a field starts with: its lowered initializer, or `void 1`. */
  function FieldInitialValue(ctx: Context, initializer: Option<IrExpr>): Result<Expr, GenError> {
    if initializer.None? then Ok(VoidOne())
    else
      match Lower(ctx, initializer.value)
      case Ok(e) => Ok(e)
      case Err(cause) => Err(LoweringFailed(cause))
  }

  /** `this.<field> = <value>`. */
  function FieldAssignment(fieldName: Name, value: Expr): Stmt {
    MakeStmt(JsAssignment(NameRef(ToJsName(fieldName), Some(ThisRef)), value))
  }

  /** The statements `generateFieldInitializers` appends, for the declarations `ds`. */
  function FieldInitializers(ctx: Context, ds: seq<IrDeclaration>): Result<seq<Stmt>, GenError>
    decreases |ds|
  {
    if ds == [] then Ok([])
    else
      var init :- FieldInitializers(ctx, ds[..|ds| - 1]);
      var d := ds[|ds| - 1];
      if d.DeclField? then
        var value :- FieldInitialValue(ctx, d.initializer);
        Ok(init + [FieldAssignment(d.fieldName, value)])
      else Ok(init)
  }

  /** The field declarations among `ds`, in order. */
  function Fields(ds: seq<IrDeclaration>): (fs: seq<IrDeclaration>)
    ensures forall k :: 0 <= k < |fs| ==> fs[k].DeclField?
    decreases |ds|
  {
    if ds == [] then []
    else Fields(ds[..|ds| - 1]) + (if ds[|ds| - 1].DeclField? then [ds[|ds| - 1]] else [])
  }

  /**
   * Field-shape completeness: one `this.f = e` per field, in declaration order,
   * `e` the lowered initializer or `void 1`; the only failure is an initializer
   * whose lowering fails.
   */
  lemma {:induction false} FieldInitializersSpec(ctx: Context, ds: seq<IrDeclaration>)
    ensures var r := FieldInitializers(ctx, ds);
      var fs := Fields(ds);
      && (r.Ok? <==> forall k :: 0 <= k < |fs| ==> FieldInitialValue(ctx, fs[k].initializer).Ok?)
      && (r.Ok? ==> (|r.value| == |fs|
           && forall k :: 0 <= k < |fs| ==>
                r.value[k] == FieldAssignment(fs[k].fieldName, FieldInitialValue(ctx, fs[k].initializer).value)))
    decreases |ds|
  {
    if ds != [] {
      var pre := ds[..|ds| - 1];
      var d := ds[|ds| - 1];
      FieldInitializersSpec(ctx, pre);
      var fs := Fields(ds);
      var pfs := Fields(pre);
      assert pfs == fs[..|pfs|];
      var r := FieldInitializers(ctx, ds);
      var pr := FieldInitializers(ctx, pre);
      if pr.Err? {
        var k :| 0 <= k < |pfs| && !FieldInitialValue(ctx, pfs[k].initializer).Ok?;
        assert fs[k] == pfs[k];
        assert !FieldInitialValue(ctx, fs[k].initializer).Ok?;
        assert r.Err?;
        assert !(forall j :: 0 <= j < |fs| ==> FieldInitialValue(ctx, fs[j].initializer).Ok?);
        assert r == FieldInitializers(ctx, ds) && fs == Fields(ds);
      } else if d.DeclField? {
        assert fs == pfs + [d];
        if FieldInitialValue(ctx, d.initializer).Err? {
          assert fs[|pfs|] == d;
          assert !(forall j :: 0 <= j < |fs| ==> FieldInitialValue(ctx, fs[j].initializer).Ok?);
          assert r == FieldInitializers(ctx, ds);
        }
      } else {
        assert fs == pfs;
      }
    }
  }

  // ---------------------------------------------------------------------------
  // Declarations.

  /** A function is generated unless it is a fake override or abstract. */
  predicate Emitted(f: IrFunction) {
    f.kind != FakeOverride && f.modality != Abstract
  }

  /** `visitSimpleFunction`: `C.prototype.<name> = function (...) {...}`, or the failure of the body's lowering. */
  function MemberStatement(cls: IrClass, ctx: Context, lowerBody: BodyLowering, f: IrFunction): Result<Stmt, GenError> {
    match TranslatedFunction(ctx, f, None, lowerBody)
    case Err(e) => Err(LoweringFailed(e))
    case Ok(fn) =>
      Ok(MakeStmt(JsAssignment(
        NameRef(GetNameForSymbol(ctx, f.symbol), Some(ClassPrototypeRef(cls))),
        FunctionExpr(fn))))
  }

  /** `visitConstructor` followed by `generateFieldInitializers`: the class-named function with the initialisers appended to its body. */
  function ConstructorFunction(cls: IrClass, ctx: Context, lowerBody: BodyLowering, f: IrFunction, isPrimary: bool): Result<JsFunction, GenError> {
    if !isPrimary then Err(ConstructorNotPrimary)
    else
      match TranslatedFunction(ctx, f, Some(cls.name), lowerBody)
      case Err(e) => Err(LoweringFailed(e))
      case Ok(fn) =>
        var inits :- FieldInitializers(ctx, cls.declarations);
        Ok(fn.(body := fn.body + inits))
  }

  /** What the loop of `generate` appends for one declaration. */
  function DeclStatements(cls: IrClass, ctx: Context, lowerBody: BodyLowering, d: IrDeclaration): Result<seq<Stmt>, GenError> {
    match d
    case DeclSimpleFunction(f) =>
      if Emitted(f) then
        var member :- MemberStatement(cls, ctx, lowerBody, f);
        Ok([member])
      else Ok([])
    case DeclConstructor(f, isPrimary) =>
      var own :- (if Emitted(f) then
                    var fn :- ConstructorFunction(cls, ctx, lowerBody, f, isPrimary);
                    Ok([MakeStmt(FunctionExpr(fn))])
                  else Ok([]));
      var inheritance :- InheritanceCode(cls);
      Ok(own + inheritance)
    case DeclField(_, _) => Ok([])
    case DeclOther => Ok([])
  }

  /** What the loop of `generate` appends for the declarations `ds`, in order. */
  function DeclsStatements(cls: IrClass, ctx: Context, lowerBody: BodyLowering, ds: seq<IrDeclaration>): Result<seq<Stmt>, GenError>
    decreases |ds|
  {
    if ds == [] then Ok([])
    else
      var init :- DeclsStatements(cls, ctx, lowerBody, ds[..|ds| - 1]);
      var last :- DeclStatements(cls, ctx, lowerBody, ds[|ds| - 1]);
      Ok(init + last)
  }

  predicate HasConstructor(ds: seq<IrDeclaration>) {
    exists i :: 0 <= i < |ds| && ds[i].DeclConstructor?
  }

  /** `maybeGeneratePrimaryConstructor`: for a class without constructor, a synthesized one and the inheritance code. */
  function SynthesizedConstructor(cls: IrClass, ctx: Context): Result<seq<Stmt>, GenError> {
    if HasConstructor(cls.declarations) then Ok([])
    else
      var inits :- FieldInitializers(ctx, cls.declarations);
      var ctor := JsFunction(Some(ToJsName(cls.name)), [], inits, FunctionScope(ctx.currentScope));
      var inheritance :- InheritanceCode(cls);
      Ok([MakeStmt(FunctionExpr(ctor))] + inheritance)
  }

  // ---------------------------------------------------------------------------
  // Metadata.

  /** `superClasses.filter { !it.isAny }`. */
  function NonAny(s: seq<SuperClass>): seq<SuperClass>
    decreases |s|
  {
    if s == [] then []
    else NonAny(s[..|s| - 1]) + (if s[|s| - 1].isAny then [] else [s[|s| - 1]])
  }

  /** The supertypes array: one reference per supertype other than `Any`. */
  function SupertypeRefs(s: seq<SuperClass>): seq<Expr> {
    var filtered := NonAny(s);
    seq(|filtered|, i requires 0 <= i < |filtered| => NameRef(ToJsName(filtered[i].ownerName), None))
  }

  function SimpleNameProperty(cls: IrClass): PropertyInit {
    PropertyInit(NameRef(METADATA_SIMPLE_NAME, None), StringLit(cls.name.asString))
  }

  function SupertypesProperty(cls: IrClass): PropertyInit {
    PropertyInit(NameRef(METADATA_SUPERTYPES, None), ArrayLit(SupertypeRefs(cls.superClasses)))
  }

  /** The properties `generateClassMetadata` adds to the metadata literal. */
  function MetadataProperties(cls: IrClass): seq<PropertyInit> {
    (if cls.name.isSpecial then [] else [SimpleNameProperty(cls)]) + [SupertypesProperty(cls)]
  }

  /** `C.$metadata$ = { ... }`. */
  function MetadataStatement(cls: IrClass, properties: seq<PropertyInit>): Stmt {
    ExprStmt(JsAssignment(NameRef(METADATA, Some(ClassNameRef(cls))), ObjectLit(properties, true)))
  }

  /** Everything `generate` appends before the metadata: the synthesized constructor part, then the declarations' statements. */
  function ClassBody(cls: IrClass, ctx: Context, lowerBody: BodyLowering): Result<seq<Stmt>, GenError> {
    var prelude :- SynthesizedConstructor(cls, ctx);
    var members :- DeclsStatements(cls, ctx, lowerBody, cls.declarations);
    Ok(prelude + members)
  }

  /**
   * The block `generate` returns when it starts from the block `block0` and the
   * metadata properties `meta0` (both empty for a freshly built generator).
   */
  function GeneratedBlock(cls: IrClass, ctx: Context, lowerBody: BodyLowering, block0: seq<Stmt>, meta0: seq<PropertyInit>): Result<Stmt, GenError> {
    match ClassBody(cls, ctx, lowerBody)
    case Err(e) => Err(e)
    case Ok(body) => Ok(Block(block0 + body + [MetadataStatement(cls, meta0 + MetadataProperties(cls))]))
  }

  /** How the class body and the returned block are assembled from their parts, failure by failure. */
  lemma GeneratedBlockParts(cls: IrClass, ctx: Context, lowerBody: BodyLowering, block0: seq<Stmt>, meta0: seq<PropertyInit>)
    ensures var pre := SynthesizedConstructor(cls, ctx);
      var members := DeclsStatements(cls, ctx, lowerBody, cls.declarations);
      var g := GeneratedBlock(cls, ctx, lowerBody, block0, meta0);
      && (pre.Err? ==> g == Err(pre.error))
      && (pre.Ok? && members.Err? ==> g == Err(members.error))
      && (pre.Ok? && members.Ok? ==>
            g == Ok(Block(block0 + pre.value + members.value + [MetadataStatement(cls, meta0 + MetadataProperties(cls))])))
  {
    var pre := SynthesizedConstructor(cls, ctx);
    var members := DeclsStatements(cls, ctx, lowerBody, cls.declarations);
    if pre.Ok? && members.Ok? {
      assert ClassBody(cls, ctx, lowerBody) == Ok(pre.value + members.value);
      assert block0 + (pre.value + members.value) == block0 + pre.value + members.value;
    }
  }

  /** The whole block `generate` returns for a freshly built generator. */
  function ClassStatements(cls: IrClass, ctx: Context, lowerBody: BodyLowering): Result<seq<Stmt>, GenError> {
    var body :- ClassBody(cls, ctx, lowerBody);
    Ok(body + [MetadataStatement(cls, MetadataProperties(cls))])
  }

  /** A failure in a prefix of the declarations is the failure of the whole: lowering stops at the first exception. */
  lemma {:induction false} FieldInitializersPrefixErr(ctx: Context, ds: seq<IrDeclaration>, i: nat)
    requires i <= |ds| && FieldInitializers(ctx, ds[..i]).Err?
    ensures FieldInitializers(ctx, ds) == FieldInitializers(ctx, ds[..i])
    decreases |ds|
  {
    if i < |ds| {
      var pre := ds[..|ds| - 1];
      assert pre[..i] == ds[..i];
      FieldInitializersPrefixErr(ctx, pre, i);
    } else {
      assert ds[..i] == ds;
    }
  }

  /** One more declaration extends the statements of a prefix by its own, or fails with its error. */
  lemma DeclsStatementsStep(cls: IrClass, ctx: Context, lowerBody: BodyLowering, ds: seq<IrDeclaration>, i: nat)
    requires i < |ds| && DeclsStatements(cls, ctx, lowerBody, ds[..i]).Ok?
    ensures var d := DeclStatements(cls, ctx, lowerBody, ds[i]);
      && (d.Ok? ==> DeclsStatements(cls, ctx, lowerBody, ds[..i + 1]) == Ok(DeclsStatements(cls, ctx, lowerBody, ds[..i]).value + d.value))
      && (d.Err? ==> DeclsStatements(cls, ctx, lowerBody, ds[..i + 1]) == Err(d.error))
  {
    assert ds[..i + 1][..i] == ds[..i];
  }

  lemma {:induction false} DeclsStatementsPrefixErr(cls: IrClass, ctx: Context, lowerBody: BodyLowering, ds: seq<IrDeclaration>, i: nat)
    requires i <= |ds| && DeclsStatements(cls, ctx, lowerBody, ds[..i]).Err?
    ensures DeclsStatements(cls, ctx, lowerBody, ds) == DeclsStatements(cls, ctx, lowerBody, ds[..i])
    decreases |ds|
  {
    if i < |ds| {
      var pre := ds[..|ds| - 1];
      assert pre[..i] == ds[..i];
      DeclsStatementsPrefixErr(cls, ctx, lowerBody, pre, i);
    } else {
      assert ds[..i] == ds;
    }
  }

  // ---------------------------------------------------------------------------
  // Properties of the emitted block.

  /**
   * Without a constructor declaration the block starts with a synthesized
   * function named after the class, without parameters, whose body is exactly
   * the field initialisers, and the inheritance statements follow it at once.
   */
  lemma SynthesizedConstructorFirst(cls: IrClass, ctx: Context, lowerBody: BodyLowering)
    requires !HasConstructor(cls.declarations)
    requires ClassStatements(cls, ctx, lowerBody).Ok?
    ensures FieldInitializers(ctx, cls.declarations).Ok? && InheritanceCode(cls).Ok?
    ensures var ss := ClassStatements(cls, ctx, lowerBody).value;
      var inheritance := InheritanceCode(cls).value;
      && |ss| >= 1 + |inheritance|
      && ss[0] == ExprStmt(FunctionExpr(JsFunction(Some(cls.name.asString), [],
                    FieldInitializers(ctx, cls.declarations).value, FunctionScope(ctx.currentScope))))
      && ss[1..1 + |inheritance|] == inheritance
  {
    var pre := SynthesizedConstructor(cls, ctx);
    assert pre.Ok?;
    var inits := FieldInitializers(ctx, cls.declarations).value;
    var inheritance := InheritanceCode(cls).value;
    var head := ExprStmt(FunctionExpr(JsFunction(Some(cls.name.asString), [], inits, FunctionScope(ctx.currentScope))));
    assert pre.value == [head] + inheritance;
    var ss := ClassStatements(cls, ctx, lowerBody).value;
    var members := DeclsStatements(cls, ctx, lowerBody, cls.declarations).value;
    var rest := members + [MetadataStatement(cls, MetadataProperties(cls))];
    assert ss == pre.value + rest;
    assert ss == [head] + (inheritance + rest);
    assert ss[1..1 + |inheritance|] == (inheritance + rest)[..|inheritance|];
  }

  /**
   * Every constructor declaration contributes its own statement (only when it
   * is emitted, and only when primary) followed by the inheritance statements,
   * which come even when the constructor itself is filtered out.
   */
  lemma ConstructorFollowedByInheritance(cls: IrClass, ctx: Context, lowerBody: BodyLowering, f: IrFunction, isPrimary: bool)
    ensures var r := DeclStatements(cls, ctx, lowerBody, DeclConstructor(f, isPrimary));
      && (Emitted(f) && !isPrimary ==> r == Err(ConstructorNotPrimary))
      && (!Emitted(f) ==> r == InheritanceCode(cls))
      && (Emitted(f) && isPrimary && TranslatedFunction(ctx, f, Some(cls.name), lowerBody).Err? ==>
           r == Err(LoweringFailed(TranslatedFunction(ctx, f, Some(cls.name), lowerBody).error)))
      && (Emitted(f) && isPrimary && r.Ok? ==>
           && TranslatedFunction(ctx, f, Some(cls.name), lowerBody).Ok?
           && var fn := TranslatedFunction(ctx, f, Some(cls.name), lowerBody).value;
           && FieldInitializers(ctx, cls.declarations).Ok? && InheritanceCode(cls).Ok?
           && r.value == [ExprStmt(FunctionExpr(fn.(body := fn.body + FieldInitializers(ctx, cls.declarations).value)))]
                         + InheritanceCode(cls).value
           && fn.name == Some(cls.name.asString))
  {
    if !Emitted(f) && InheritanceCode(cls).Ok? {
      assert [] + InheritanceCode(cls).value == InheritanceCode(cls).value;
    }
  }

  /** The functions that become prototype members: emitted simple functions, in declaration order. */
  function EmittedMembers(ds: seq<IrDeclaration>): seq<IrFunction>
    decreases |ds|
  {
    if ds == [] then []
    else
      var d := ds[|ds| - 1];
      EmittedMembers(ds[..|ds| - 1]) + (if d.DeclSimpleFunction? && Emitted(d.func) then [d.func] else [])
  }

  /** Every one of the member functions `ms` translates without an exception. */
  predicate MembersLower(cls: IrClass, ctx: Context, lowerBody: BodyLowering, ms: seq<IrFunction>) {
    forall k :: 0 <= k < |ms| ==> MemberStatement(cls, ctx, lowerBody, ms[k]).Ok?
  }

  /**
   * Between constructors, the loop emits exactly one prototype assignment per
   * emitted member function, in declaration order, and nothing else; it fails
   * exactly when the body of one of those members fails to lower.
   */
  lemma {:induction false} MembersInOrder(cls: IrClass, ctx: Context, lowerBody: BodyLowering, ds: seq<IrDeclaration>)
    requires !HasConstructor(ds)
    ensures var r := DeclsStatements(cls, ctx, lowerBody, ds);
      var ms := EmittedMembers(ds);
      && (r.Ok? <==> MembersLower(cls, ctx, lowerBody, ms))
      && (r.Ok? ==>
            && |r.value| == |ms|
            && forall k :: 0 <= k < |ms| ==> r.value[k] == MemberStatement(cls, ctx, lowerBody, ms[k]).value)
    decreases |ds|
  {
    if ds != [] {
      var pre := ds[..|ds| - 1];
      var d := ds[|ds| - 1];
      assert !HasConstructor(pre) by {
        forall i | 0 <= i < |pre| ensures !pre[i].DeclConstructor? { assert pre[i] == ds[i]; }
      }
      MembersInOrder(cls, ctx, lowerBody, pre);
      assert !d.DeclConstructor?;
      var r := DeclsStatements(cls, ctx, lowerBody, ds);
      var pr := DeclsStatements(cls, ctx, lowerBody, pre);
      var ms := EmittedMembers(ds);
      var pms := EmittedMembers(pre);
      if d.DeclSimpleFunction? && Emitted(d.func) {
        assert ms == pms + [d.func];
        var last := MemberStatement(cls, ctx, lowerBody, d.func);
        if pr.Err? {
          var k :| 0 <= k < |pms| && !MemberStatement(cls, ctx, lowerBody, pms[k]).Ok?;
          assert r.Err? && ms[k] == pms[k];
          assert !MembersLower(cls, ctx, lowerBody, ms);
        } else if last.Err? {
          assert r.Err? && ms[|pms|] == d.func;
          assert !MembersLower(cls, ctx, lowerBody, ms);
        } else {
          assert r.value == pr.value + [last.value];
          forall k | 0 <= k < |ms|
            ensures MemberStatement(cls, ctx, lowerBody, ms[k]).Ok?
            ensures r.value[k] == MemberStatement(cls, ctx, lowerBody, ms[k]).value
          {
            if k < |pms| {
              assert ms[k] == pms[k] && r.value[k] == pr.value[k];
            } else {
              assert ms[k] == d.func && r.value[k] == last.value;
            }
          }
        }
      } else {
        assert ms == pms;
        assert DeclStatements(cls, ctx, lowerBody, d).Ok? && DeclStatements(cls, ctx, lowerBody, d).value == [];
        if pr.Ok? {
          assert r.Ok? && r.value == pr.value + [];
        } else {
          var k :| 0 <= k < |pms| && !MemberStatement(cls, ctx, lowerBody, pms[k]).Ok?;
          assert r.Err? && ms[k] == pms[k];
          assert !MembersLower(cls, ctx, lowerBody, ms);
        }
      }
    }
  }

  /** No statement the constructor or member part emits is a metadata assignment. */
  predicate NoMetadata(cls: IrClass, ss: seq<Stmt>) {
    forall i :: 0 <= i < |ss| ==> !IsMetadataAssignment(ss[i], ClassNameRef(cls))
  }

  lemma InheritanceHasNoMetadata(cls: IrClass)
    ensures InheritanceCode(cls).Ok? ==> NoMetadata(cls, InheritanceCode(cls).value)
  {
  }

  lemma {:induction false} DeclsHaveNoMetadata(cls: IrClass, ctx: Context, lowerBody: BodyLowering, ds: seq<IrDeclaration>)
    ensures DeclsStatements(cls, ctx, lowerBody, ds).Ok? ==> NoMetadata(cls, DeclsStatements(cls, ctx, lowerBody, ds).value)
    decreases |ds|
  {
    if ds != [] {
      DeclsHaveNoMetadata(cls, ctx, lowerBody, ds[..|ds| - 1]);
      InheritanceHasNoMetadata(cls);
      var r := DeclsStatements(cls, ctx, lowerBody, ds);
      if r.Ok? {
        var init := DeclsStatements(cls, ctx, lowerBody, ds[..|ds| - 1]).value;
        var last := DeclStatements(cls, ctx, lowerBody, ds[|ds| - 1]).value;
        assert r.value == init + last;
        forall i | 0 <= i < |r.value| ensures !IsMetadataAssignment(r.value[i], ClassNameRef(cls)) {
          if i >= |init| {
            assert r.value[i] == last[i - |init|];
          }
        }
      }
    }
  }

  /** The metadata assignment is the last statement of the block, and the only one. */
  lemma MetadataLastAndOnce(cls: IrClass, ctx: Context, lowerBody: BodyLowering)
    requires ClassStatements(cls, ctx, lowerBody).Ok?
    ensures var ss := ClassStatements(cls, ctx, lowerBody).value;
      && |ss| >= 1
      && ss[|ss| - 1] == MetadataStatement(cls, MetadataProperties(cls))
      && IsMetadataAssignment(ss[|ss| - 1], ClassNameRef(cls))
      && forall i :: 0 <= i < |ss| - 1 ==> !IsMetadataAssignment(ss[i], ClassNameRef(cls))
  {
    InheritanceHasNoMetadata(cls);
    DeclsHaveNoMetadata(cls, ctx, lowerBody, cls.declarations);
    var pre := SynthesizedConstructor(cls, ctx).value;
    var members := DeclsStatements(cls, ctx, lowerBody, cls.declarations).value;
    var ss := ClassStatements(cls, ctx, lowerBody).value;
    assert ss == pre + members + [MetadataStatement(cls, MetadataProperties(cls))];
    forall i | 0 <= i < |ss| - 1 ensures !IsMetadataAssignment(ss[i], ClassNameRef(cls)) {
      if i < |pre| {
        assert ss[i] == pre[i];
        if !HasConstructor(cls.declarations) && i > 0 {
          assert pre[i] == InheritanceCode(cls).value[i - 1];
        }
      } else {
        assert ss[i] == members[i - |pre|];
      }
    }
  }

  /** The filter distributes over concatenation, so it keeps the supertypes' order. */
  lemma {:induction false} NonAnyAppend(s: seq<SuperClass>, t: seq<SuperClass>)
    ensures NonAny(s + t) == NonAny(s) + NonAny(t)
    decreases |t|
  {
    if t != [] {
      assert (s + t)[..|s + t| - 1] == s + t[..|t| - 1];
      NonAnyAppend(s, t[..|t| - 1]);
    } else {
      assert s + t == s;
    }
  }

  /** The filter keeps exactly the supertypes other than `Any`. */
  lemma {:induction false} NonAnyMembers(s: seq<SuperClass>)
    ensures forall x :: x in NonAny(s) <==> x in s && !x.isAny
    decreases |s|
  {
    if s != [] {
      var pre := s[..|s| - 1];
      NonAnyMembers(pre);
      assert s == pre + [s[|s| - 1]];
    }
  }

  /**
   * The metadata literal has a `simpleName` string exactly when the class name
   * is not special, before the `supertypes` array, which is last.
   */
  lemma MetadataPropertiesSpec(cls: IrClass)
    ensures var ps := MetadataProperties(cls);
      && (cls.name.isSpecial ==> |ps| == 1)
      && (!cls.name.isSpecial ==> |ps| == 2 && ps[0] == PropertyInit(NameRef("simpleName", None), StringLit(cls.name.asString)))
      && (exists i :: 0 <= i < |ps| && ps[i].key == NameRef("simpleName", None)) == !cls.name.isSpecial
      && ps[|ps| - 1] == PropertyInit(NameRef("supertypes", None), ArrayLit(SupertypeRefs(cls.superClasses)))
      && |SupertypeRefs(cls.superClasses)| == |NonAny(cls.superClasses)|
  {
    var ps := MetadataProperties(cls);
    if cls.name.isSpecial {
      assert ps[0].key == NameRef("supertypes", None);
      assert "supertypes" != "simpleName" by { assert "supertypes"[1] != "simpleName"[1]; }
    }
  }

  /** For supertypes `[A, Any, B]` the array is exactly `[A, B]`. */
  lemma SupertypesExample(a: Name, b: Name, anyName: Name)
    ensures var s := [SuperClass(ClassKindClass, false, a), SuperClass(ClassKindClass, true, anyName), SuperClass(ClassKindInterface, false, b)];
      SupertypeRefs(s) == [NameRef(a.asString, None), NameRef(b.asString, None)]
  {
    var s := [SuperClass(ClassKindClass, false, a), SuperClass(ClassKindClass, true, anyName), SuperClass(ClassKindInterface, false, b)];
    assert s[..2][..1] == s[..1];
    assert s[..1][..0] == [];
    assert NonAny(s[..1]) == [s[0]];
    assert NonAny(s[..2]) == [s[0]];
    assert NonAny(s) == [s[0], s[2]];
  }

  /**
   * `class Point(x, y)` without a constructor declaration, fields without
   * initialisers and `Any` as superclass: one synthesized constructor whose body
   * is exactly `this.x = void 1; this.y = void 1;`, no inheritance code, and
   * metadata `{simpleName: "Point", supertypes: []}`.
   */
  lemma PointScenario(ctx: Context, lowerBody: BodyLowering)
    ensures var x := Name("x", false);
      var y := Name("y", false);
      var point := IrClass(Name("Point", false), [DeclField(x, None), DeclField(y, None)],
                           [SuperClass(ClassKindClass, true, Name("Any", false))]);
      var r := ClassStatements(point, ctx, lowerBody);
      r.Ok? && r.value == [
        ExprStmt(FunctionExpr(JsFunction(Some("Point"), [],
          [ExprStmt(Binary(Asg, NameRef("x", Some(ThisRef)), Prefix(Void, IntLit(1)))),
           ExprStmt(Binary(Asg, NameRef("y", Some(ThisRef)), Prefix(Void, IntLit(1))))],
          FunctionScope(ctx.currentScope)))),
        ExprStmt(Binary(Asg, NameRef("$metadata$", Some(NameRef("Point", None))),
          ObjectLit([PropertyInit(NameRef("simpleName", None), StringLit("Point")),
                     PropertyInit(NameRef("supertypes", None), ArrayLit([]))], true)))]
  {
    var x := Name("x", false);
    var y := Name("y", false);
    var ds := [DeclField(x, None), DeclField(y, None)];
    var point := IrClass(Name("Point", false), ds, [SuperClass(ClassKindClass, true, Name("Any", false))]);
    var d1 := [DeclField(x, None)];
    assert ds[..|ds| - 1] == d1 && d1[..|d1| - 1] == [];
    assert !HasConstructor(ds);
    var inits := FieldInitializers(ctx, ds);
    assert FieldInitializers(ctx, d1).Ok? && FieldInitializers(ctx, d1).value == [FieldAssignment(x, VoidOne())];
    assert inits.Ok? && inits.value == [FieldAssignment(x, VoidOne()), FieldAssignment(y, VoidOne())];
    assert InheritanceCode(point).Ok? && InheritanceCode(point).value == [];
    assert DeclsStatements(point, ctx, lowerBody, d1).Ok? && DeclsStatements(point, ctx, lowerBody, d1).value == [];
    assert DeclsStatements(point, ctx, lowerBody, ds).Ok? && DeclsStatements(point, ctx, lowerBody, ds).value == [];
    assert NonAny(point.superClasses) == [] by {
      assert point.superClasses[..0] == [];
    }
    var ctor := JsFunction(Some("Point"), [], inits.value, FunctionScope(ctx.currentScope));
    var sc := SynthesizedConstructor(point, ctx);
    assert sc.Ok? && sc.value == [ExprStmt(FunctionExpr(ctor))];
    var body := ClassBody(point, ctx, lowerBody);
    assert body.Ok? && body.value == [ExprStmt(FunctionExpr(ctor))];
    assert SupertypeRefs(point.superClasses) == [];
    assert MetadataProperties(point) == [SimpleNameProperty(point), SupertypesProperty(point)];
    var r := ClassStatements(point, ctx, lowerBody);
    assert r.Ok? && r.value == [ExprStmt(FunctionExpr(ctor)), MetadataStatement(point, MetadataProperties(point))];
  }
}
