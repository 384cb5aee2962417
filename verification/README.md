# Kotlin/JS IR class lowering, modelled in Dafny

This project models the core of the Kotlin/JS IR backend's translation of IR
to a JavaScript AST, together with the parser of internal compiler arguments.

- **Generation context** (`generation_context.dfy`, module `GenerationContext`):
  `JsGenerationContext` as an immutable value. A root context is built from a root
  scope and the static context. `newDeclaration` builds a child context with an
  empty block and the given scope. The child shares the program and the static
  context of its parent. Name lookups go through the shared static context.
  `translateFunction` builds a `JsFunction`: a scope whose parent is the current
  scope, the lowered body or an empty one (or the body lowering's failure), the optional name, then a
  `$receiver` parameter and one parameter per value parameter. A special
  parameter name is remapped by the static context.
- **Expression lowering** (`expression_lowering.dfy`, module `ExpressionLowering`):
  `IrElementToJsExpressionTransformer` as a total function `Lower` that returns
  `Err` where the visitor throws. Constants become string literals of their
  value. Field reads and writes become references qualified by the receiver.
  Value reads go through the registry. A delegating constructor call becomes
  `C.call(this, ...)`. A call becomes an invocation of the function's name.
  The argument lists are projected onto parameter slots, with `void 1` for
  absent arguments. As written, `visitCall` casts the callee to a simple
  function before it tests for a primary constructor. The model therefore
  fails on every call whose callee is a constructor, and never builds `new C(...)`.
- **AST utilities** (`js_ast.dfy`, `js_ast_utils.dfy`): the JS AST subset the core
  builds, the `jsAssignment`/`prototypeOf`/`toJsName` helpers, `jsVar`, and the
  free `translateFunction`/`translateCallArguments`. Each free function is proved
  equal to its context counterpart.
- **Class generator** (`class_generator.dfy`, module `ClassGenerator`, and the
  specification functions in `class_generator_spec.dfy`, module `ClassLowering`):
  `JsClassGenerator` is a class with the generator's mutable state, the class
  block and the metadata literal, as fields. Each of its methods is proved
  against a specification function over IR values. `generate` does these steps:
  1. A class without a constructor declaration gets a synthesized constructor followed by the inheritance code.
  2. The declarations are then handled in one pass, in declaration order. An emitted member function becomes a prototype assignment. An emitted primary constructor becomes a named function with the field initialisers appended to its body. Every constructor declaration is followed by the inheritance code, even one that is filtered out (fake override or abstract) and so emits no function.
  3. The metadata assignment (`simpleName` unless the name is special, then `supertypes` without `Any`) comes last.
- **Internal arguments** (`internal_arguments.dfy`, module `InternalArguments`):
  `InternalArgumentsParser.parseInternalArgument`. It returns a setting for `-XX:+Name` / `-XX:-Name`.
  Otherwise it reports exactly one ERROR and returns null. The checks run in
  order: missing sign, empty name, unknown feature.

Exceptions of the source are `Err` values:
- a missing non-interface supertype (`first` throws) is `NoClassSupertype`;
- a non-primary constructor (`assert` fails) is `ConstructorNotPrimary`;
- a failed cast of the callee is `CalleeNotSimpleFunction`;
- in the class generator, a lowering failure is wrapped as `LoweringFailed`.
  This covers a field initializer, and also a function body: the body lowering
  returns a `Result` and its failure makes the whole function's translation fail.

## Model

| member | source | states |
|---|---|---|
| GenerationContext.Root | compiler/ir/backend.js/src/org/jetbrains/kotlin/ir/backend/js/utils/JsGenerationContext.kt:29-36 | the root context has no parent, the root scope's program, the global block as current block and the root scope as current scope, and satisfies the chain invariant |
| GenerationContext.Child | compiler/ir/backend.js/src/org/jetbrains/kotlin/ir/backend/js/utils/JsGenerationContext.kt:38-44 | a child context records its parent, its own block and scope, and inherits the parent's program and static context |
| GenerationContext.NewDeclaration | compiler/ir/backend.js/src/org/jetbrains/kotlin/ir/backend/js/utils/JsGenerationContext.kt:19-21 | a new declaration context is a child with an empty block and the given scope; it preserves the invariant that every context on the parent chain shares program and static context |
| GenerationContext.LookupsAgreeAlongChain | compiler/ir/backend.js/src/org/jetbrains/kotlin/ir/backend/js/utils/JsGenerationContext.kt:87-89 | every ancestor of a well-formed context resolves symbols, descriptors and special names exactly as the context does |
| GenerationContext.TranslatedFunctionShape | compiler/ir/backend.js/src/org/jetbrains/kotlin/ir/backend/js/utils/JsGenerationContext.kt:46-69 | the translation fails exactly when the function has a body and lowering that body fails, with that failure; otherwise the translated function's parameters are `$receiver` first exactly when there is an extension receiver, then one per value parameter in order (special names remapped); its name is the given name or none; its scope is a child of the current scope; its body is the lowered block or empty |
| GenerationContext.TranslateFunction | compiler/ir/backend.js/src/org/jetbrains/kotlin/ir/backend/js/utils/JsGenerationContext.kt:46-69 | the imperative parameter-appending loop builds exactly the function `TranslatedFunction` describes, and fails exactly as it does |
| ExpressionLowering.NatToStringRoundTrip | compiler/ir/backend.js/src/org/jetbrains/kotlin/ir/backend/js/transformers/irToJs/IrElementToJsExpressionTransformer.kt:20-23 | the decimal text of a non-negative integer constant reads back as the same number |
| ExpressionLowering.IntToStringRoundTrip | compiler/ir/backend.js/src/org/jetbrains/kotlin/ir/backend/js/transformers/irToJs/IrElementToJsExpressionTransformer.kt:20-23 | the text of every integer constant, negative ones with their `-` sign included, is a signed decimal that reads back as the same integer |
| ExpressionLowering.Lower | compiler/ir/backend.js/src/org/jetbrains/kotlin/ir/backend/js/transformers/irToJs/IrElementToJsExpressionTransformer.kt:15-78 | whenever lowering fails, the failing callee is a constructor (the cast at line 67), wherever in the expression it sits |
| ExpressionLowering.Slot | compiler/ir/backend.js/src/org/jetbrains/kotlin/ir/backend/js/utils/JsGenerationContext.kt:77-84 | an argument slot fails only on a constructor callee inside the supplied argument |
| ExpressionLowering.TranslateCallArguments | compiler/ir/backend.js/src/org/jetbrains/kotlin/ir/backend/js/utils/JsGenerationContext.kt:71-85 | the result succeeds exactly when every slot lowers; it has one entry per parameter and entry i is slot i (the lowered argument, or `void 1` when absent) |
| ExpressionLowering.LowerFailsIffConstructorCall | compiler/ir/backend.js/src/org/jetbrains/kotlin/ir/backend/js/transformers/irToJs/IrElementToJsExpressionTransformer.kt:52-77 | lowering fails exactly when the expression reaches a call whose callee is a constructor (the cast at line 67) |
| ExpressionLowering.SlotsFailIffConstructorCall | compiler/ir/backend.js/src/org/jetbrains/kotlin/ir/backend/js/utils/JsGenerationContext.kt:71-85 | the argument list fails exactly when some supplied argument reaches a constructor call; each supplied slot fails exactly when its argument does, and an absent slot never fails |
| ExpressionLowering.ConstructorCallNeverBuildsNew | compiler/ir/backend.js/src/org/jetbrains/kotlin/ir/backend/js/transformers/irToJs/IrElementToJsExpressionTransformer.kt:67-75 | a call to a constructor always fails, even a primary one, so the `new C(...)` branch is unreachable as written |
| ExpressionLowering.IntendedPrimaryConstructorCallBuildsNew | compiler/ir/backend.js/src/org/jetbrains/kotlin/ir/backend/js/transformers/irToJs/IrElementToJsExpressionTransformer.kt:72-74 | with the primary-constructor test ahead of the cast, a primary-constructor call succeeds exactly when its receivers and argument slots lower, and is then `new C(...)` naming the constructor's class, with one argument per slot |
| ExpressionLowering.IntendedCallAgreesOtherwise | compiler/ir/backend.js/src/org/jetbrains/kotlin/ir/backend/js/transformers/irToJs/IrElementToJsExpressionTransformer.kt:52-77 | apart from primary constructors, the intended call lowering is the lowering as written |
| ExpressionLowering.LowerDependsOnlyOnStaticContext | compiler/ir/backend.js/src/org/jetbrains/kotlin/ir/backend/js/transformers/irToJs/IrElementToJsExpressionTransformer.kt:35-48 | two contexts with the same static context lower every expression identically |
| ExpressionLowering.ArgumentsDependOnlyOnStaticContext | compiler/ir/backend.js/src/org/jetbrains/kotlin/ir/backend/js/utils/JsGenerationContext.kt:71-85 | two contexts with the same static context project every argument list identically |
| ExpressionLowering.LoweringAgreesAlongChain | compiler/ir/backend.js/src/org/jetbrains/kotlin/ir/backend/js/utils/JsGenerationContext.kt:38-44 | an ancestor of a well-formed context lowers every expression as the context does |
| ExpressionLowering.LowerLeaves | compiler/ir/backend.js/src/org/jetbrains/kotlin/ir/backend/js/transformers/irToJs/IrElementToJsExpressionTransformer.kt:16-23 | an expression body lowers as its expression; a constant becomes the string literal of its value, so an integer constant lowers like the string constant of its decimal text |
| ExpressionLowering.FieldAccessShape | compiler/ir/backend.js/src/org/jetbrains/kotlin/ir/backend/js/transformers/irToJs/IrElementToJsExpressionTransformer.kt:25-33 | get-field is the field name qualified by the lowered receiver when present; set-field succeeds exactly when the get-field form and the value lower, and assigns the value to that form |
| ExpressionLowering.GetValueShape | compiler/ir/backend.js/src/org/jetbrains/kotlin/ir/backend/js/transformers/irToJs/IrElementToJsExpressionTransformer.kt:35-43 | a special value becomes the registry's special reference, any other value an unqualified reference to the registry's name for its symbol |
| ExpressionLowering.DelegatingCallShape | compiler/ir/backend.js/src/org/jetbrains/kotlin/ir/backend/js/transformers/irToJs/IrElementToJsExpressionTransformer.kt:45-50 | a delegating constructor call is `C.call` with `this` first and then one slot per parameter, absent ones `void 1` |
| ExpressionLowering.CallShape | compiler/ir/backend.js/src/org/jetbrains/kotlin/ir/backend/js/transformers/irToJs/IrElementToJsExpressionTransformer.kt:52-77 | a successful call's callee is a simple function; the result invokes its name, qualified exactly when there is a dispatch receiver, with the extension receiver (when present) before the slots |
| JsAstUtils.JsVar | compiler/ir/backend.js/src/org/jetbrains/kotlin/ir/backend/js/transformers/irToJs/jsAstUtils.kt:23-26 | a variable declaration of the converted name, without initializer when there is none, otherwise with the lowered initializer, failing when that fails |
| JsAstUtils.TranslateFunction | compiler/ir/backend.js/src/org/jetbrains/kotlin/ir/backend/js/transformers/irToJs/jsAstUtils.kt:32-55 | the free `translateFunction` builds the same function as the context's, fails exactly when it does, and on success has one parameter per value parameter plus the receiver |
| JsAstUtils.FreeCallArgumentsAgree | compiler/ir/backend.js/src/org/jetbrains/kotlin/ir/backend/js/transformers/irToJs/jsAstUtils.kt:57-67 | the free `translateCallArguments` agrees with the context's for every call and parameter count |
| JsAstUtils.FreeCallArgumentsProjection | compiler/ir/backend.js/src/org/jetbrains/kotlin/ir/backend/js/transformers/irToJs/jsAstUtils.kt:57-67 | each entry of the free argument list is the lowered argument or `void 1` |
| ClassLowering.FirstNonInterfaceSpec | compiler/ir/backend.js/src/org/jetbrains/kotlin/ir/backend/js/transformers/irToJs/JsClassGenerator.kt:72 | the search finds nothing exactly when every supertype is an interface, and otherwise returns the first non-interface supertype |
| ClassLowering.InheritanceCode | compiler/ir/backend.js/src/org/jetbrains/kotlin/ir/backend/js/transformers/irToJs/JsClassGenerator.kt:71-84 | inheritance code fails with `NoClassSupertype` exactly when there is no non-interface supertype; otherwise it is empty exactly when that supertype is `Any`, and has two statements when it is not |
| ClassLowering.InheritanceCodeSpec | compiler/ir/backend.js/src/org/jetbrains/kotlin/ir/backend/js/transformers/irToJs/JsClassGenerator.kt:71-84 | inheritance code fails exactly when all supertypes are interfaces; for an `Any` base it is empty; otherwise it is exactly `C.prototype = Object.create(B.prototype)` then `C.prototype.constructor = C` |
| ClassLowering.FieldInitializersSpec | compiler/ir/backend.js/src/org/jetbrains/kotlin/ir/backend/js/transformers/irToJs/JsClassGenerator.kt:46-59 | one `this.f = e` per field in declaration order, `e` the lowered initializer or `void 1`; it fails exactly when some field initializer fails to lower |
| ClassLowering.FieldInitializersPrefixErr | compiler/ir/backend.js/src/org/jetbrains/kotlin/ir/backend/js/transformers/irToJs/JsClassGenerator.kt:51-58 | a failure on a prefix of the declarations is the failure of the whole loop |
| ClassLowering.GeneratedBlockParts | compiler/ir/backend.js/src/org/jetbrains/kotlin/ir/backend/js/transformers/irToJs/JsClassGenerator.kt:22-44 | the returned block is the initial block, the synthesized-constructor part, the declarations' statements and the metadata statement, in that order; the first failing part's error is the result |
| ClassLowering.DeclsStatementsStep | compiler/ir/backend.js/src/org/jetbrains/kotlin/ir/backend/js/transformers/irToJs/JsClassGenerator.kt:25-40 | one iteration of the declaration loop appends that declaration's statements |
| ClassLowering.DeclsStatementsPrefixErr | compiler/ir/backend.js/src/org/jetbrains/kotlin/ir/backend/js/transformers/irToJs/JsClassGenerator.kt:25-40 | a failure on a prefix of the declarations is the failure of the whole loop |
| ClassLowering.SynthesizedConstructorFirst | compiler/ir/backend.js/src/org/jetbrains/kotlin/ir/backend/js/transformers/irToJs/JsClassGenerator.kt:61-69 | without a constructor declaration the block starts with a parameterless function named after the class whose body is exactly the field initialisers, and the inheritance code follows at once |
| ClassLowering.ConstructorFollowedByInheritance | compiler/ir/backend.js/src/org/jetbrains/kotlin/ir/backend/js/transformers/irToJs/JsClassGenerator.kt:26-39 | an emitted non-primary constructor fails; a filtered-out constructor still contributes the inheritance code; an emitted primary constructor whose translation fails gives that failure as `LoweringFailed`; on success it contributes the class-named function with the field initialisers appended, then the inheritance code |
| ClassLowering.MembersInOrder | compiler/ir/backend.js/src/org/jetbrains/kotlin/ir/backend/js/transformers/irToJs/JsClassGenerator.kt:25-36 | without constructors the loop succeeds exactly when every emitted member function translates, and then emits exactly one prototype assignment per emitted member function, in declaration order, and nothing else |
| ClassLowering.DeclsHaveNoMetadata | compiler/ir/backend.js/src/org/jetbrains/kotlin/ir/backend/js/transformers/irToJs/JsClassGenerator.kt:25-40 | no statement of the declaration loop assigns the class's metadata |
| ClassLowering.MetadataLastAndOnce | compiler/ir/backend.js/src/org/jetbrains/kotlin/ir/backend/js/transformers/irToJs/JsClassGenerator.kt:42-43 | the metadata assignment is the last statement of the block and the only one |
| ClassLowering.NonAnyAppend | compiler/ir/backend.js/src/org/jetbrains/kotlin/ir/backend/js/transformers/irToJs/JsClassGenerator.kt:125 | the supertype filter distributes over concatenation, so it keeps the supertypes' order |
| ClassLowering.NonAnyMembers | compiler/ir/backend.js/src/org/jetbrains/kotlin/ir/backend/js/transformers/irToJs/JsClassGenerator.kt:125 | a supertype survives the filter exactly when it is present and is not `Any` |
| ClassLowering.MetadataPropertiesSpec | compiler/ir/backend.js/src/org/jetbrains/kotlin/ir/backend/js/transformers/irToJs/JsClassGenerator.kt:109-136 | the metadata has a `simpleName` string exactly when the class name is not special, placed before the `supertypes` array, which is last and has one entry per non-`Any` supertype |
| ClassLowering.SupertypesExample | compiler/ir/backend.js/src/org/jetbrains/kotlin/ir/backend/js/transformers/irToJs/JsClassGenerator.kt:124-137 | for supertypes `[A, Any, B]` the supertypes array is exactly `[A, B]` |
| ClassLowering.PointScenario | compiler/ir/backend.js/src/org/jetbrains/kotlin/ir/backend/js/transformers/irToJs/JsClassGenerator.kt:22-137 | for a class `Point` with fields `x`, `y`, no constructor and base `Any`, the block is exactly the constructor `function Point() { this.x = void 1; this.y = void 1; }` and `Point.$metadata$ = {simpleName: "Point", supertypes: []}` |
| ClassGenerator.JsClassGenerator.constructor | compiler/ir/backend.js/src/org/jetbrains/kotlin/ir/backend/js/transformers/irToJs/JsClassGenerator.kt:15-20 | a fresh generator has an empty block and metadata literal, and the class name and prototype references of the class |
| ClassGenerator.JsClassGenerator.Generate | compiler/ir/backend.js/src/org/jetbrains/kotlin/ir/backend/js/transformers/irToJs/JsClassGenerator.kt:22-44 | the returned block is `GeneratedBlock` of the state before the call; on success the field holds the same statements and the metadata literal has gained the class's metadata properties |
| ClassGenerator.JsClassGenerator.GenerateDeclarations | compiler/ir/backend.js/src/org/jetbrains/kotlin/ir/backend/js/transformers/irToJs/JsClassGenerator.kt:25-40 | the loop appends `DeclsStatements` of the declarations to the block, or stops with its error |
| ClassGenerator.JsClassGenerator.GenerateForDeclaration | compiler/ir/backend.js/src/org/jetbrains/kotlin/ir/backend/js/transformers/irToJs/JsClassGenerator.kt:26-39 | one declaration's statements are appended, or its error is returned |
| ClassGenerator.JsClassGenerator.GenerateFieldInitializers | compiler/ir/backend.js/src/org/jetbrains/kotlin/ir/backend/js/transformers/irToJs/JsClassGenerator.kt:46-59 | the constructor function comes back with the field initialisers appended to its body, or with the lowering error |
| ClassGenerator.JsClassGenerator.MaybeGeneratePrimaryConstructor | compiler/ir/backend.js/src/org/jetbrains/kotlin/ir/backend/js/transformers/irToJs/JsClassGenerator.kt:61-69 | the block gains `SynthesizedConstructor` of the class, or the error is returned |
| ClassGenerator.JsClassGenerator.VisitSimpleFunction | compiler/ir/backend.js/src/org/jetbrains/kotlin/ir/backend/js/transformers/irToJs/JsClassGenerator.kt:88-96 | a member function becomes an assignment to the registry's name on the class prototype of the unnamed translated function; it fails exactly when the translation of the function fails |
| ClassGenerator.JsClassGenerator.VisitConstructor | compiler/ir/backend.js/src/org/jetbrains/kotlin/ir/backend/js/transformers/irToJs/JsClassGenerator.kt:98-102 | a non-primary constructor is an error exactly; a primary one becomes the translated function named after the class, or its translation's failure as `LoweringFailed` |
| ClassGenerator.JsClassGenerator.GenerateClassMetadata | compiler/ir/backend.js/src/org/jetbrains/kotlin/ir/backend/js/transformers/irToJs/JsClassGenerator.kt:109-122 | the metadata literal gains the class's metadata properties, and the statement assigns the literal to `C.$metadata$` |
| ClassGenerator.JsClassGenerator.GenerateSuperClasses | compiler/ir/backend.js/src/org/jetbrains/kotlin/ir/backend/js/transformers/irToJs/JsClassGenerator.kt:124-137 | the metadata literal gains exactly the `supertypes` property of the non-`Any` supertypes |
| InternalArguments.RemovePrefix | compiler/cli/cli-common/src/org/jetbrains/kotlin/cli/common/arguments/InternalCompilerArgument.kt:22 | the prefix is dropped exactly when the argument starts with it, and the argument is unchanged otherwise |
| InternalArguments.Parse | compiler/cli/cli-common/src/org/jetbrains/kotlin/cli/common/arguments/InternalCompilerArgument.kt:17-55 | an accepted argument names a non-empty feature name that `fromString` knows, and enables or disables it; a rejected one carries the missing-sign text, the empty-name text or the unknown-feature text for a name `fromString` does not know |
| InternalArguments.ParseCases | compiler/cli/cli-common/src/org/jetbrains/kotlin/cli/common/arguments/InternalCompilerArgument.kt:17-55 | a missing sign, then an empty name, then an unknown name each give their own error message; a setting comes exactly when all three checks pass, with the looked-up feature, enabled for `+` and disabled for `-` |
| InternalArguments.ParseRoundTrip | compiler/cli/cli-common/src/org/jetbrains/kotlin/cli/common/arguments/InternalCompilerArgument.kt:17-55 | `-XX:+name` enables and `-XX:-name` disables the feature that `fromString(name)` finds |
| InternalArguments.ParsedArgumentShape | compiler/cli/cli-common/src/org/jetbrains/kotlin/cli/common/arguments/InternalCompilerArgument.kt:17-55 | every accepted argument is a sign followed by a known non-empty feature name, after the prefix when the prefix is present |
| InternalArguments.MessageCollector.Report | compiler/cli/cli-common/src/org/jetbrains/kotlin/cli/common/arguments/InternalCompilerArgument.kt:32 | reporting appends exactly one message with the given severity and text |
| InternalArguments.InternalArgumentsParser.ParseInternalArgument | compiler/cli/cli-common/src/org/jetbrains/kotlin/cli/common/arguments/InternalCompilerArgument.kt:17-55 | an accepted argument returns its setting and reports nothing; a rejected one returns null and appends exactly one ERROR with the rejection's text |
| InternalArguments.UnknownFeatureScenario | compiler/cli/cli-common/src/org/jetbrains/kotlin/cli/common/arguments/InternalCompilerArgument.kt:44-52 | parsing `-XX:+Foo` with no feature `Foo` returns null and logs exactly the unknown-feature error naming `Foo` and the argument |

Helpers without a contract of their own, which the members above use:
- `JsAst.ToJsName`, `JsAst.JsAssignment` and `JsAst.PrototypeOf` model compiler/ir/backend.js/src/org/jetbrains/kotlin/ir/backend/js/transformers/irToJs/jsAstUtils.kt:19-30.
- `GenerationContext.GetNameForSymbol`, `GenerationContext.GetNameForDescriptor` and `GenerationContext.GetSpecialRefForName` model compiler/ir/backend.js/src/org/jetbrains/kotlin/ir/backend/js/utils/JsGenerationContext.kt:87-89. Their behaviour along a context chain is stated by `GenerationContext.LookupsAgreeAlongChain`.

## Findings

| source | as written | input that shows it | evidently intended | confidence | as-written member | corrected member |
|---|---|---|---|---|---|---|
| compiler/ir/backend.js/src/org/jetbrains/kotlin/ir/backend/js/transformers/irToJs/IrElementToJsExpressionTransformer.kt:67-75 | `visitCall` casts the callee's owner to `IrSimpleFunction` before it tests for a primary constructor, so a constructor callee throws at the cast and the `JsNew` branch is dead | an `IrCall` whose symbol is the primary constructor of class `C` | test for a primary constructor first and build `new C(arguments)` | medium, not executed | ExpressionLowering.ConstructorCallNeverBuildsNew | ExpressionLowering.IntendedPrimaryConstructorCallBuildsNew |

The corrected call lowering is `ExpressionLowering.IntendedCallLowering`. The rest of the model keeps the lowering as written, so that the class generator's failures are the ones the compiler raises today.

## Left out

- Name conversion and declaration: `toJsName` and `JsDynamicScope.declareName` are taken to return a name with the same text. The scope's renaming of clashing names is not modelled.
- The static context's registry is a set of uninterpreted functions fixed per context: the name generator, `getNameForSymbol`, `getNameForDescriptor`, `getSpecialNameString` and `getSpecialRefForName`. JsStaticContext is not part of this model.
- Statement lowering (`IrElementToJsStatementTransformer`) is a parameter `lowerBody` that returns a `Result`, so it can fail with the same exception as an embedded expression. Only its result matters: a block's statements, an empty body when the result is not a block, or its failure. The statement transformer is not part of this model.
- `LanguageFeature.fromString` is a parameter. The list of language features is not part of this model.
- The default visitor methods of `BaseIrElementToJsNodeTransformer` are not part of this model. IR nodes outside the modelled expression and declaration kinds are represented by `DeclOther` only.
- `Namer` constants are taken as their JavaScript spellings: `prototype`, `constructor`, `call`, `$metadata$`, `simpleName`, `supertypes`, `Object.create`. `INTERNAL_ARGUMENT_PREFIX` is taken as `-XX:`.
- Constants are integers (of any width, longs included, since their text is plain decimal), booleans, characters, strings and null. Floating-point constants are not modelled, because their `toString` formatting is platform-specific.
- Scope and function description strings (`"scope for ..."`, `"member function ..."`, `"Ctor for ..."`) are not modelled; they only feed debugging output.
- Object identity is not modelled. Blocks and functions are values. `generateFieldInitializers` returns the extended function instead of mutating the shared body. This is safe because the mutation happens before the statement is appended, so nothing observes the difference.
- `assert` in `visitConstructor` is modelled as enabled: a non-primary constructor is an error. With assertions disabled the source would translate it anyway.
- Message delivery, printing and the severity's rendering: `MessageCollector` is reduced to the log of reported messages.
- ExpressionLowering.TranslateCallArguments: requires a parameter count no larger than the node's argument slots, so the index-out-of-range failure of `getValueArgument` for a larger count is not modelled. Every caller passes the callee's own parameter count, which is the number of slots.
- ClassGenerator.JsClassGenerator.Generate: requires the class-name and prototype references that the constructor sets up. Every generator built by the constructor meets this.
- The compiler test data files under `compiler/testData` are not part of this model.
