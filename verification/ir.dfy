/**
 * The part of the compiler's intermediate representation (IR) that the
 * JavaScript lowering reads. Every IR node is an immutable tree value.
 */
module Ir {
  import opened Wrappers

  /** A declaration name. A special name is compiler-synthesised (printed as `<...>`). */
  datatype Name = Name(asString: string, isSpecial: bool)

  /** Symbols are compared by identity; the registry maps them to target identifiers. */
  type SymbolId = nat

  /** The value of a constant node. */
  datatype ConstValue =
    | IntConst(i: int)
    | BoolConst(b: bool)
    | CharConst(c: char)
    | StringConst(s: string)
    | NullConst

  /** The owner of a called symbol: an ordinary function, or a constructor of a class. */
  datatype CalleeOwner =
    | SimpleFunctionOwner(name: Name)
    | ConstructorOwner(isPrimary: bool, parentClassName: Name)

  /**
   * The exception lowering can raise, in an expression or in a function body
   * that embeds one: the callee of a call is not an IrSimpleFunction (a failed cast).
   */
  datatype LoweringError = CalleeNotSimpleFunction(owner: CalleeOwner)

  /**
   * IR expressions handled by the expression lowering. A member-access node
   * (delegating constructor call, call) keeps one argument slot per value
   * parameter of the callee, so the callee's parameter count is `|args|`;
   * an omitted (defaulted) argument is `None`.
   */
  datatype IrExpr =
    | ExpressionBody(expression: IrExpr)
    | Const(value: ConstValue)
    | GetField(field: Name, receiver: Option<IrExpr>)
    | SetField(field: Name, receiver: Option<IrExpr>, newValue: IrExpr)
    | GetValue(symbol: SymbolId, symbolName: Name)
    | DelegatingConstructorCall(constructedClass: Name, args: seq<Option<IrExpr>>)
    | Call(owner: CalleeOwner, dispatchReceiver: Option<IrExpr>, extensionReceiver: Option<IrExpr>, args: seq<Option<IrExpr>>)
  {
    /** The IrMemberAccessExpression variants, which carry value arguments. */
    predicate IsMemberAccess() {
      DelegatingConstructorCall? || Call?
    }
  }

  /** A function body; its lowering belongs to the statement lowering, which is a parameter here. */
  datatype IrBody = IrBody(id: nat)

  datatype CallableKind = Declaration | FakeOverride | Delegation | Synthesized
  datatype Modality = Final | Sealed | Open | Abstract

  /** What IrFunction and IrConstructor have in common. */
  datatype IrFunction = IrFunction(
    symbol: SymbolId,
    name: Name,
    kind: CallableKind,
    modality: Modality,
    hasExtensionReceiver: bool,
    valueParameters: seq<Name>,
    body: Option<IrBody>)

  /** The members of a class, in declaration order. */
  datatype IrDeclaration =
    | DeclSimpleFunction(func: IrFunction)
    | DeclConstructor(ctor: IrFunction, isPrimary: bool)
    | DeclField(fieldName: Name, initializer: Option<IrExpr>)
    | DeclOther

  datatype ClassKind = ClassKindClass | ClassKindInterface | ClassKindEnumClass | ClassKindObject | ClassKindAnnotation

  /** One entry of a class's supertype list: the supertype's kind, whether it is `Any`, its name. */
  datatype SuperClass = SuperClass(kind: ClassKind, isAny: bool, ownerName: Name)

  datatype IrClass = IrClass(name: Name, declarations: seq<IrDeclaration>, superClasses: seq<SuperClass>)
}
