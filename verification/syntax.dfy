/**
 * Explicit descriptors for the parts of a Roslyn syntax tree the quoter looks
 * at through reflection: tokens, trivia, the public properties of a node and
 * the node's runtime type with its base types.
 *
 * A child node is described by its already quoted call tree, which is what
 * the quoter's recursive call on that child returns.
 */
module Syntax {
  import opened Wrappers
  import opened CallModel

  /** A trivia: its SyntaxKind, ToString() text, full width and quoted structure (if structured). */
  datatype Trivia = Trivia(kind: string, text: string, fullSpanLength: nat, structure: Option<CallTree>)

  /**
   * A token. `kind` is "None" for default(SyntaxToken). `canonicalLiteralText`
   * is the text SyntaxFactory.Literal(valueText) would have, which the quoter
   * compares against to decide whether a string literal needs its raw text.
   */
  datatype Token = Token(
    kind: string,
    text: string,
    valueText: string,
    isMissing: bool,
    parentIsLiteralExpression: bool,
    leadingTrivia: seq<Trivia>,
    trailingTrivia: seq<Trivia>,
    canonicalLiteralText: string)

  /** The runtime type of a list-valued property. */
  datatype ListShape =
    | SyntaxList(elementType: string)
    | SeparatedSyntaxList(elementType: string)
    | SyntaxTokenList
    | SyntaxTriviaList

  /** One element of a list; a separated list yields its nodes and separator tokens in order. */
  datatype ListElement =
    | NodeElement(quoted: CallTree)
    | TokenElement(token: Token)
    | TriviaElement(trivia: Trivia)

  /** The value of a public property, classified by its declared or runtime type. */
  datatype PropertyValue =
    | TokenValue(token: Token)
    | ListValue(shape: ListShape, elements: seq<ListElement>)
    | NodeValue(quoted: CallTree)
    | StringValue(s: string)
    | BoolValue(b: bool)
    | OtherValue                   // null or any other type

  datatype Property = Property(name: string, obsolete: bool, value: PropertyValue)

  /**
   * A syntax node: runtime type name, the names of its base types, its
   * SyntaxKind, its public instance properties in reflection order, whether a
   * using directive has an alias, and the names of its non-obsolete public
   * instance methods.
   */
  datatype Node = Node(
    typeName: string,
    baseTypeNames: set<string>,
    kind: string,
    properties: seq<Property>,
    hasAlias: bool,
    instanceMethods: set<string>)

  /** `node is T`. */
  predicate Is(node: Node, typeName: string) {
    typeName == node.typeName || typeName in node.baseTypeNames
  }
}
