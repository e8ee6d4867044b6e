/**
 * Explicit descriptors for what the quoter reads through reflection: the
 * types of factory-method parameters, the parameters themselves, the static
 * factory methods of SyntaxFactory, and the runtime values the interpreter
 * passes to them.
 */
module Reflection {
  import opened CallModel

  /** A CLR type: a named class or struct (with generic arguments), an array, or a generic parameter. */
  datatype TypeDesc =
    | Named(name: string, genericArguments: seq<TypeDesc>, isValueType: bool)
    | ArrayOf(element: TypeDesc)
    | GenericParameter(parameterName: string)
  {
    predicate IsArray() { ArrayOf? }

    predicate IsValueType() { Named? && isValueType }

    /** Type.Name: the metadata name, with the generic arity suffix (`List`1`) for generic types. */
    function Name(): string {
      match this
      case Named(n, _, _) => n
      case ArrayOf(e) => e.Name() + "[]"
      case GenericParameter(n) => n
    }
  }

  const StringType: TypeDesc := Named("String", [], false)
  const Int32Type: TypeDesc := Named("Int32", [], true)
  const DoubleType: TypeDesc := Named("Double", [], true)
  const CharType: TypeDesc := Named("Char", [], true)
  const BooleanType: TypeDesc := Named("Boolean", [], true)
  const SyntaxKindType: TypeDesc := Named("SyntaxKind", [], true)
  const ObjectType: TypeDesc := Named("Object", [], false)

  /** A run-time value handed to a factory method. */
  datatype Value =
    | NullValue
    | TextValue(text: string)
    | Int32Value(i: int)
    | DoubleValue(literal: string)                   // the double parsed from this text
    | CharValue(c: char)
    | BooleanValue(b: bool)
    | EnumValue(kind: string)                        // a SyntaxKind member
    | ObjectValue(call: CallTree)                    // what interpreting this call produced
    | TriviaValue(propertyName: string)              // a ready-made SyntaxFactory trivia property
    | ArrayValue(elementType: TypeDesc, elements: seq<Value>)

  /** A parameter of a factory method. */
  datatype Parameter = Parameter(
    name: string,
    parameterType: TypeDesc,
    isOptional: bool,
    isParamArray: bool,
    defaultValue: Value)

  /**
   * A public static method of SyntaxFactory: its name, declaring type, the
   * name of its return type, its signature string (MethodInfo.ToString()),
   * whether it is obsolete, and its parameters.
   */
  datatype FactoryMethod = FactoryMethod(
    name: string,
    declaringType: string,
    returnTypeName: string,
    signature: string,
    obsolete: bool,
    parameters: seq<Parameter>)
}
