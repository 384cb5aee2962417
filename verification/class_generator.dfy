/**
 * JsClassGenerator: lowers one IR class into a block of JavaScript statements,
 * appending to its block and to its metadata literal as it goes.
 */
module ClassGenerator {
  import opened Wrappers
  import opened Ir
  import opened JsAst
  import opened GenerationContext
  import opened ClassLowering

  class JsClassGenerator {
    const irClass: IrClass
    const context: Context
    /** The statement lowering used for function bodies. */
    const lowerBody: BodyLowering
    const classNameRef: Expr
    const classPrototypeRef: Expr
    var metadataLiteral: seq<PropertyInit>
    var classBlock: seq<Stmt>

    constructor (irClass: IrClass, context: Context, lowerBody: BodyLowering)
      ensures this.irClass == irClass && this.context == context && this.lowerBody == lowerBody
      ensures classNameRef == ClassNameRef(irClass) && classPrototypeRef == ClassPrototypeRef(irClass)
      ensures metadataLiteral == [] && classBlock == []
    {
      this.irClass := irClass;
      this.context := context;
      this.lowerBody := lowerBody;
      metadataLiteral := [];
      classNameRef := NameRef(ToJsName(irClass.name), None);
      classPrototypeRef := PrototypeOf(NameRef(ToJsName(irClass.name), None));
      classBlock := [];
    }

    /**
     * `generate`: the constructor part, then one pass over the declarations,
     * then the metadata assignment; the block is returned as one statement.
     */
    method Generate() returns (r: Result<Stmt, GenError>)
      requires classNameRef == ClassNameRef(irClass) && classPrototypeRef == ClassPrototypeRef(irClass)
      modifies this
      ensures r == GeneratedBlock(irClass, context, lowerBody, old(classBlock), old(metadataLiteral))
      ensures r.Ok? ==> r.value == Block(classBlock)
                        && metadataLiteral == old(metadataLiteral) + MetadataProperties(irClass)
    {
      GeneratedBlockParts(irClass, context, lowerBody, classBlock, metadataLiteral);
      var err := MaybeGeneratePrimaryConstructor();
      if err.Some? {
        return Err(err.value);
      }
      err := GenerateDeclarations();
      if err.Some? {
        return Err(err.value);
      }
      var metadata := GenerateClassMetadata();
      classBlock := classBlock + [metadata];
      r := Ok(Block(classBlock));
      assert classBlock == old(classBlock) + SynthesizedConstructor(irClass, context).value
        + DeclsStatements(irClass, context, lowerBody, irClass.declarations).value + [metadata];
    }

    /** The loop of `generate` over the declarations, in order, stopping at the first exception. */
    method GenerateDeclarations() returns (err: Option<GenError>)
      requires classPrototypeRef == ClassPrototypeRef(irClass)
      modifies this`classBlock
      ensures DeclsStatements(irClass, context, lowerBody, irClass.declarations).Ok? ==>
        err.None? && classBlock == old(classBlock) + DeclsStatements(irClass, context, lowerBody, irClass.declarations).value
      ensures DeclsStatements(irClass, context, lowerBody, irClass.declarations).Err? ==>
        err == Some(DeclsStatements(irClass, context, lowerBody, irClass.declarations).error)
    {
      var ds := irClass.declarations;
      for i := 0 to |ds|
        invariant DeclsStatements(irClass, context, lowerBody, ds[..i]).Ok?
        invariant classBlock == old(classBlock) + DeclsStatements(irClass, context, lowerBody, ds[..i]).value
      {
        DeclsStatementsStep(irClass, context, lowerBody, ds, i);
        err := GenerateForDeclaration(ds[i]);
        if err.Some? {
          DeclsStatementsPrefixErr(irClass, context, lowerBody, ds, i + 1);
          return err;
        }
      }
      assert ds[..|ds|] == ds;
      err := None;
    }

    /**
     * One step of the loop in `generate`: the declaration's statement when it is
     * an emitted function (with the field initialisers for a constructor), then
     * the inheritance code after any constructor.
     */
    method GenerateForDeclaration(d: IrDeclaration) returns (err: Option<GenError>)
      requires classPrototypeRef == ClassPrototypeRef(irClass)
      modifies this`classBlock
      ensures DeclStatements(irClass, context, lowerBody, d).Ok? ==>
        err.None? && classBlock == old(classBlock) + DeclStatements(irClass, context, lowerBody, d).value
      ensures DeclStatements(irClass, context, lowerBody, d).Err? ==>
        err == Some(DeclStatements(irClass, context, lowerBody, d).error)
    {
      if d.DeclSimpleFunction? {
        if Emitted(d.func) {
          var statement := VisitSimpleFunction(d.func);
          if statement.Err? {
            return Some(statement.error);
          }
          classBlock := classBlock + [statement.value];
        }
      } else if d.DeclConstructor? {
        if Emitted(d.ctor) {
          var ctor := VisitConstructor(d.ctor, d.isPrimary);
          if ctor.Err? {
            return Some(ctor.error);
          }
          var withFields := GenerateFieldInitializers(ctor.value);
          if withFields.Err? {
            return Some(withFields.error);
          }
          classBlock := classBlock + [MakeStmt(FunctionExpr(withFields.value))];
        }
        var inheritance := InheritanceCode(irClass);
        if inheritance.Err? {
          return Some(inheritance.error);
        }
        classBlock := classBlock + inheritance.value;
      }
      err := None;
    }

    /** `generateFieldInitializers`: appends `this.f = e` for every field to the function's body. */
    method GenerateFieldInitializers(f: JsFunction) returns (r: Result<JsFunction, GenError>)
      ensures r == (var inits :- FieldInitializers(context, irClass.declarations); Ok(f.(body := f.body + inits)))
    {
      var currentBody := f.body;
      var ds := irClass.declarations;
      for i := 0 to |ds|
        invariant FieldInitializers(context, ds[..i]).Ok?
        invariant currentBody == f.body + FieldInitializers(context, ds[..i]).value
      {
        assert ds[..i + 1][..i] == ds[..i];
        var d := ds[i];
        if d.DeclField? {
          var initExpression := FieldInitialValue(context, d.initializer);
          if initExpression.Err? {
            FieldInitializersPrefixErr(context, ds, i + 1);
            return Err(initExpression.error);
          }
          currentBody := currentBody + [MakeStmt(JsAssignment(NameRef(ToJsName(d.fieldName), Some(ThisRef)), initExpression.value))];
        }
      }
      assert ds[..|ds|] == ds;
      r := Ok(f.(body := currentBody));
    }

    /** `maybeGeneratePrimaryConstructor`: for a class without a constructor, a synthesized one and the inheritance code. */
    method MaybeGeneratePrimaryConstructor() returns (err: Option<GenError>)
      modifies this`classBlock
      ensures SynthesizedConstructor(irClass, context).Ok? ==>
        err.None? && classBlock == old(classBlock) + SynthesizedConstructor(irClass, context).value
      ensures SynthesizedConstructor(irClass, context).Err? ==> err == Some(SynthesizedConstructor(irClass, context).error)
    {
      if !HasConstructor(irClass.declarations) {
        var func := JsFunction(None, [], [], FunctionScope(context.currentScope));
        func := func.(name := Some(ToJsName(irClass.name)));
        var withFields := GenerateFieldInitializers(func);
        if withFields.Err? {
          return Some(withFields.error);
        }
        classBlock := classBlock + [MakeStmt(FunctionExpr(withFields.value))];
        var inheritance := InheritanceCode(irClass);
        if inheritance.Err? {
          return Some(inheritance.error);
        }
        classBlock := classBlock + inheritance.value;
        assert withFields.value == JsFunction(Some(ToJsName(irClass.name)), [], FieldInitializers(context, irClass.declarations).value, FunctionScope(context.currentScope));
        assert SynthesizedConstructor(irClass, context).value == [MakeStmt(FunctionExpr(withFields.value))] + inheritance.value;
      } else {
        assert classBlock == old(classBlock) + [];
      }
      err := None;
    }

    /**
     * `visitSimpleFunction`: `C.prototype.<registry name> = <anonymous function>`;
     * an exception while lowering the body propagates.
     */
    method VisitSimpleFunction(f: IrFunction) returns (r: Result<Stmt, GenError>)
      requires classPrototypeRef == ClassPrototypeRef(irClass)
      ensures r == MemberStatement(irClass, context, lowerBody, f)
      ensures r.Err? <==> TranslatedFunction(context, f, None, lowerBody).Err?
      ensures r.Ok? ==> var s := r.value;
        && s.ExprStmt? && s.expression.Binary? && s.expression.left.qualifier == Some(PrototypeOf(ClassNameRef(irClass)))
        && s.expression.right.FunctionExpr? && s.expression.right.fn.name.None?
    {
      var memberName := GetNameForSymbol(context, f.symbol);
      var memberRef := NameRef(memberName, Some(classPrototypeRef));
      var memberBody := TranslateFunction(context, f, None, lowerBody);
      if memberBody.Err? {
        return Err(LoweringFailed(memberBody.error));
      }
      r := Ok(MakeStmt(JsAssignment(memberRef, FunctionExpr(memberBody.value))));
    }

    /** `visitConstructor`: asserts the constructor is primary, then translates it under the class's name. */
    method VisitConstructor(f: IrFunction, isPrimary: bool) returns (r: Result<JsFunction, GenError>)
      ensures !isPrimary <==> r == Err(ConstructorNotPrimary)
      ensures isPrimary ==> r == (match TranslatedFunction(context, f, Some(irClass.name), lowerBody)
                                  case Ok(fn) => Ok(fn)
                                  case Err(e) => Err(LoweringFailed(e)))
      ensures r.Ok? ==> r.value.name == Some(irClass.name.asString)
    {
      if !isPrimary {
        return Err(ConstructorNotPrimary);
      }
      var fn := TranslateFunction(context, f, Some(irClass.name), lowerBody);
      if fn.Err? {
        return Err(LoweringFailed(fn.error));
      }
      r := Ok(fn.value);
    }

    /** `generateClassMetadata`: adds the properties to the metadata literal and returns `C.$metadata$ = {...}`. */
    method GenerateClassMetadata() returns (s: Stmt)
      requires classNameRef == ClassNameRef(irClass)
      modifies this`metadataLiteral
      ensures metadataLiteral == old(metadataLiteral) + MetadataProperties(irClass)
      ensures s == MetadataStatement(irClass, metadataLiteral)
    {
      if !irClass.name.isSpecial {
        var simpleNameProp := PropertyInit(NameRef(METADATA_SIMPLE_NAME, None), StringLit(irClass.name.asString));
        metadataLiteral := metadataLiteral + [simpleNameProp];
      }
      GenerateSuperClasses();
      var metadataRef := NameRef(METADATA, Some(classNameRef));
      s := ExprStmt(JsAssignment(metadataRef, ObjectLit(metadataLiteral, true)));
    }

    /** `generateSuperClasses`: one reference per supertype other than `Any`, in order, as the `supertypes` array. */
    method GenerateSuperClasses()
      modifies this`metadataLiteral
      ensures metadataLiteral == old(metadataLiteral) + [SupertypesProperty(irClass)]
    {
      var superClasses := NonAny(irClass.superClasses);
      var superList: seq<Expr> := [];
      for i := 0 to |superClasses|
        invariant |superList| == i
        invariant forall k :: 0 <= k < i ==> superList[k] == NameRef(ToJsName(superClasses[k].ownerName), None)
      {
        superList := superList + [NameRef(ToJsName(superClasses[i].ownerName), None)];
      }
      assert superList == SupertypeRefs(irClass.superClasses);
      var inheritanceList := ArrayLit(superList);
      metadataLiteral := metadataLiteral + [PropertyInit(NameRef(METADATA_SUPERTYPES, None), inheritanceList)];
    }
  }
}
