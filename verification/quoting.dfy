/**
 * The quoting decisions: how a list, a token, a trivia and the property
 * values of a node become call trees.
 */
module Quoting {
  import opened Wrappers
  import opened Text
  import opened StringLiterals
  import opened CallModel
  import opened Syntax

  /** The quoter's public options. */
  datatype Config = Config(
    useDefaultFormatting: bool,
    removeRedundantModifyingCalls: bool,
    shortenCodeWithUsingStatic: bool,
    openParenthesisOnNewLine: bool,
    closingParenthesisOnNewLine: bool)

  /** new Quoter(): default formatting and redundant-call removal on, everything else off. */
  const DefaultConfig: Config := Config(true, true, false, false, false)

  /** Qualify a SyntaxFactory member unless `using static` shortening is on. */
  function SyntaxFactoryMethod(cfg: Config, text: string): string {
    if cfg.shortenCodeWithUsingStatic then text else "SyntaxFactory." + text
  }

  // ---------------------------------------------------------------------------
  // QuoteList
  // ---------------------------------------------------------------------------

  /** The factory method for a list of the given runtime type. */
  function ListMethodName(cfg: Config, shape: ListShape): string {
    match shape
    case SyntaxList(t) => SyntaxFactoryMethod(cfg, "List") + "<" + t + ">"
    case SeparatedSyntaxList(t) => SyntaxFactoryMethod(cfg, "SeparatedList") + "<" + t + ">"
    case SyntaxTokenList => SyntaxFactoryMethod(cfg, "TokenList")
    case SyntaxTriviaList => SyntaxFactoryMethod(cfg, "TriviaList")
  }

  /** The element type of the array a list of two or more elements is built from (null if not generic). */
  function ListType(shape: ListShape): Option<string> {
    match shape
    case SyntaxList(t) => Some(t)
    case SeparatedSyntaxList(_) => Some("SyntaxNodeOrToken")
    case _ => None
  }

  /** Replace a leading `prefix` by `replacement`. */
  function ReplacePrefix(s: string, prefix: string, replacement: string): string {
    if StartsWith(s, prefix) then replacement + s[|prefix|..] else s
  }

  /** The four successive renames of a one-element list's factory method. */
  function SingletonName(cfg: Config, methodName: string): string {
    var n1 := ReplacePrefix(methodName, "List", "SingletonList");
    var n2 := ReplacePrefix(n1, SyntaxFactoryMethod(cfg, "List"), SyntaxFactoryMethod(cfg, "SingletonList"));
    var n3 := ReplacePrefix(n2, "SeparatedList", "SingletonSeparatedList");
    ReplacePrefix(n3, SyntaxFactoryMethod(cfg, "SeparatedList"), SyntaxFactoryMethod(cfg, "SingletonSeparatedList"))
  }

  /** The non-null quoted elements, in source order. */
  function Present(quoted: seq<Option<CallTree>>): (r: seq<CallTree>)
    ensures |r| <= |quoted|
    ensures forall c :: c in r <==> Some(c) in quoted
  {
    if quoted == [] then []
    else (if quoted[0].Some? then [quoted[0].value] else []) + Present(quoted[1..])
  }

  lemma {:induction false} PresentAppend(a: seq<Option<CallTree>>, b: seq<Option<CallTree>>)
    ensures Present(a + b) == Present(a) + Present(b)
    decreases |a|
  {
    if a == [] {
      assert a + b == b;
    } else {
      assert (a + b)[1..] == a[1..] + b;
      PresentAppend(a[1..], b);
    }
  }

  function NestedAll(calls: seq<CallTree>): (r: seq<Arg>)
    ensures |r| == |calls|
    ensures forall i :: 0 <= i < |calls| ==> r[i] == Nested(calls[i])
  {
    if calls == [] then [] else [Nested(calls[0])] + NestedAll(calls[1..])
  }

  /** QuoteList over the already quoted elements (null for an element that quotes to nothing). */
  function QuoteList(cfg: Config, shape: ListShape, quoted: seq<Option<CallTree>>, name: Option<string>)
    : (r: Option<CallTree>)
    ensures r.None? <==> Present(quoted) == []
    ensures r.Some? ==> r.value.name == name && r.value.factory.Some? && r.value.factory.value.MethodInvocation?
  {
    var methodName := ListMethodName(cfg, shape);
    var elements := Present(quoted);
    if |elements| == 0 then None
    else if |elements| == 1 then
      Some(MethodApiCall(name, SingletonName(cfg, methodName), Arguments([Nested(elements[0])]), false))
    else
      var creation := MethodApiCall(Some("methodName"), "new " + ListType(shape).GetOr("") + "[]",
                                 Arguments(NestedAll(elements)), true);
      Some(MethodApiCall(name, methodName, Arguments([Nested(creation)]), false))
  }

  lemma PresentNone(quoted: seq<Option<CallTree>>)
    requires forall j :: 0 <= j < |quoted| ==> quoted[j].None?
    ensures Present(quoted) == []
  {
  }

  /** The factory method a one-element list of each shape is built with. */
  function SingletonListMethod(cfg: Config, shape: ListShape): string {
    match shape
    case SyntaxList(t) => SyntaxFactoryMethod(cfg, "SingletonList") + "<" + t + ">"
    case SeparatedSyntaxList(t) => SyntaxFactoryMethod(cfg, "SingletonSeparatedList") + "<" + t + ">"
    case SyntaxTokenList => SyntaxFactoryMethod(cfg, "TokenList")
    case SyntaxTriviaList => SyntaxFactoryMethod(cfg, "TriviaList")
  }

  /** The array creation a list of two or more elements of each shape is built from. */
  function ArrayCreation(shape: ListShape): string {
    match shape
    case SyntaxList(t) => "new " + t + "[]"
    case SeparatedSyntaxList(_) => "new SyntaxNodeOrToken[]"
    case _ => "new []"
  }

  /**
   * A list in which exactly one element (at position i) quotes to a call `x`:
   * `SingletonList<T>(x)`, `SingletonSeparatedList<T>(x)`, or `TokenList(x)`
   * / `TriviaList(x)` unchanged.
   */
  lemma QuoteListSingleton(cfg: Config, shape: ListShape, quoted: seq<Option<CallTree>>, name: Option<string>,
                           i: nat, x: CallTree)
    requires i < |quoted| && quoted[i] == Some(x)
    requires forall j :: 0 <= j < |quoted| && j != i ==> quoted[j].None?
    ensures QuoteList(cfg, shape, quoted, name)
            == Some(MethodApiCall(name, SingletonListMethod(cfg, shape), Arguments([Nested(x)]), false))
  {
    assert quoted == quoted[..i] + ([quoted[i]] + quoted[i + 1..]);
    PresentAppend(quoted[..i], [quoted[i]] + quoted[i + 1..]);
    PresentAppend([quoted[i]], quoted[i + 1..]);
    PresentNone(quoted[..i]);
    PresentNone(quoted[i + 1..]);
    assert Present([quoted[i]]) == [x];
    assert Present(quoted) == [x];
    match shape {
      case SyntaxList(t) => SingletonListName(cfg, t);
      case SeparatedSyntaxList(t) => SingletonSeparatedListName(cfg, t);
      case SyntaxTokenList => SingletonNonGenericName(cfg, "TokenList");
      case SyntaxTriviaList => SingletonNonGenericName(cfg, "TriviaList");
    }
  }

  /**
   * Two or more quoted elements: the list method applied to one braced array
   * creation (`new T[]`, `new SyntaxNodeOrToken[]` or `new []` by shape)
   * whose items are exactly the present elements, position by position.
   */
  lemma QuoteListArray(cfg: Config, shape: ListShape, quoted: seq<Option<CallTree>>, name: Option<string>)
    requires |Present(quoted)| >= 2
    ensures var r := QuoteList(cfg, shape, quoted, name);
            r.Some? && r.value.name == name && r.value.factory.Some?
            && r.value.factory.value.name == ListMethodName(cfg, shape)
            && r.value.factory.value.MethodInvocation?
            && r.value.factory.value.arguments.Arguments? && |r.value.factory.value.arguments.items| == 1
            && var creation := r.value.factory.value.arguments.items[0];
               creation.Nested? && creation.call.useCurlies && creation.call.factory.Some?
               && creation.call.factory.value.name == ArrayCreation(shape)
               && creation.call.factory.value.MethodInvocation?
               && creation.call.factory.value.arguments.Arguments?
               && var items := creation.call.factory.value.arguments.items;
                  |items| == |Present(quoted)|
                  && forall k :: 0 <= k < |items| ==> items[k] == Nested(Present(quoted)[k])
  {
    ArrayCreationOfListType(shape);
    var elements := Present(quoted);
    var creation := MethodApiCall(Some("methodName"), "new " + ListType(shape).GetOr("") + "[]",
                                  Arguments(NestedAll(elements)), true);
    assert QuoteList(cfg, shape, quoted, name)
           == Some(MethodApiCall(name, ListMethodName(cfg, shape), Arguments([Nested(creation)]), false));
  }

  lemma ArrayCreationOfListType(shape: ListShape)
    ensures ArrayCreation(shape) == "new " + ListType(shape).GetOr("") + "[]"
  {
    match shape {
      case SyntaxList(t) =>
        Regroup3("new ", t, "[]");
      case SeparatedSyntaxList(_) =>
        assert "new " + "SyntaxNodeOrToken" + "[]" == "new SyntaxNodeOrToken[]";
      case SyntaxTokenList =>
        assert "new " + "" + "[]" == "new []";
      case SyntaxTriviaList =>
        assert "new " + "" + "[]" == "new []";
    }
  }

  lemma StartsWithConcat(a: string, b: string)
    ensures StartsWith(a + b, a)
  {
    assert (a + b)[..|a|] == a;
  }

  lemma NotStartsWithAt(s: string, prefix: string, i: nat)
    requires i < |prefix| && i < |s| && s[i] != prefix[i]
    ensures !StartsWith(s, prefix)
  {
    if |prefix| <= |s| {
      assert s[..|prefix|][i] == s[i];
    }
  }

  /** The singleton renames on each list shape: List -> SingletonList, SeparatedList -> SingletonSeparatedList. */
  lemma SingletonNames(cfg: Config, elementType: string)
    ensures SingletonName(cfg, ListMethodName(cfg, SyntaxList(elementType)))
            == SyntaxFactoryMethod(cfg, "SingletonList") + "<" + elementType + ">"
    ensures SingletonName(cfg, ListMethodName(cfg, SeparatedSyntaxList(elementType)))
            == SyntaxFactoryMethod(cfg, "SingletonSeparatedList") + "<" + elementType + ">"
    ensures SingletonName(cfg, ListMethodName(cfg, SyntaxTokenList)) == ListMethodName(cfg, SyntaxTokenList)
    ensures SingletonName(cfg, ListMethodName(cfg, SyntaxTriviaList)) == ListMethodName(cfg, SyntaxTriviaList)
  {
    SingletonListName(cfg, elementType);
    SingletonSeparatedListName(cfg, elementType);
    SingletonNonGenericName(cfg, "TokenList");
    SingletonNonGenericName(cfg, "TriviaList");
  }

  lemma ReplacePrefixHit(s: string, prefix: string, replacement: string, rest: string)
    requires s == prefix + rest
    ensures ReplacePrefix(s, prefix, replacement) == replacement + rest
  {
    StartsWithConcat(prefix, rest);
    assert s[|prefix|..] == rest;
  }

  lemma ReplacePrefixMiss(s: string, prefix: string, replacement: string, i: nat)
    requires i < |prefix| && i < |s| && s[i] != prefix[i]
    ensures ReplacePrefix(s, prefix, replacement) == s
  {
    NotStartsWithAt(s, prefix, i);
  }

  lemma SingletonListName(cfg: Config, elementType: string)
    ensures SingletonName(cfg, ListMethodName(cfg, SyntaxList(elementType)))
            == SyntaxFactoryMethod(cfg, "SingletonList") + "<" + elementType + ">"
  {
    var suffix := "<" + elementType + ">";
    Regroup3(SyntaxFactoryMethod(cfg, "List") + "<", elementType, ">");
    Regroup3(SyntaxFactoryMethod(cfg, "List"), "<", elementType + ">");
    Regroup3(SyntaxFactoryMethod(cfg, "SingletonList") + "<", elementType, ">");
    Regroup3(SyntaxFactoryMethod(cfg, "SingletonList"), "<", elementType + ">");
    Regroup3("<", elementType, ">");
    if cfg.shortenCodeWithUsingStatic {
      SingletonListNameShort(cfg, ListMethodName(cfg, SyntaxList(elementType)), suffix);
    } else {
      SingletonListNameFull(cfg, ListMethodName(cfg, SyntaxList(elementType)), suffix);
    }
  }

  lemma SingletonListNameShort(cfg: Config, name: string, suffix: string)
    requires cfg.shortenCodeWithUsingStatic && name == SyntaxFactoryMethod(cfg, "List") + suffix
    ensures SingletonName(cfg, name) == SyntaxFactoryMethod(cfg, "SingletonList") + suffix
  {
    var s1 := "SingletonList" + suffix;
    ReplacePrefixHit(name, "List", "SingletonList", suffix);
    ReplacePrefixMiss(s1, "List", "SingletonList", 0);
    ReplacePrefixMiss(s1, "SeparatedList", "SingletonSeparatedList", 1);
  }

  lemma SingletonListNameFull(cfg: Config, name: string, suffix: string)
    requires !cfg.shortenCodeWithUsingStatic && name == SyntaxFactoryMethod(cfg, "List") + suffix
    ensures SingletonName(cfg, name) == SyntaxFactoryMethod(cfg, "SingletonList") + suffix
  {
    var q := "SyntaxFactory.";
    var s1 := q + "SingletonList" + suffix;
    assert name == q + "List" + suffix;
    ReplacePrefixMiss(name, "List", "SingletonList", 0);
    ReplacePrefixHit(name, q + "List", q + "SingletonList", suffix);
    ReplacePrefixMiss(s1, "SeparatedList", "SingletonSeparatedList", 1);
    ReplacePrefixMiss(s1, q + "SeparatedList", q + "SingletonSeparatedList", 15);
  }

  lemma SingletonSeparatedListName(cfg: Config, elementType: string)
    ensures SingletonName(cfg, ListMethodName(cfg, SeparatedSyntaxList(elementType)))
            == SyntaxFactoryMethod(cfg, "SingletonSeparatedList") + "<" + elementType + ">"
  {
    var suffix := "<" + elementType + ">";
    Regroup3(SyntaxFactoryMethod(cfg, "SeparatedList") + "<", elementType, ">");
    Regroup3(SyntaxFactoryMethod(cfg, "SeparatedList"), "<", elementType + ">");
    Regroup3(SyntaxFactoryMethod(cfg, "SingletonSeparatedList") + "<", elementType, ">");
    Regroup3(SyntaxFactoryMethod(cfg, "SingletonSeparatedList"), "<", elementType + ">");
    Regroup3("<", elementType, ">");
    if cfg.shortenCodeWithUsingStatic {
      SingletonSeparatedListNameShort(cfg, ListMethodName(cfg, SeparatedSyntaxList(elementType)), suffix);
    } else {
      SingletonSeparatedListNameFull(cfg, ListMethodName(cfg, SeparatedSyntaxList(elementType)), suffix);
    }
  }

  lemma SingletonSeparatedListNameShort(cfg: Config, name: string, suffix: string)
    requires cfg.shortenCodeWithUsingStatic && name == SyntaxFactoryMethod(cfg, "SeparatedList") + suffix
    ensures SingletonName(cfg, name) == SyntaxFactoryMethod(cfg, "SingletonSeparatedList") + suffix
  {
    var s1 := "SingletonSeparatedList" + suffix;
    ReplacePrefixMiss(name, "List", "SingletonList", 0);
    ReplacePrefixHit(name, "SeparatedList", "SingletonSeparatedList", suffix);
    ReplacePrefixMiss(s1, "SeparatedList", "SingletonSeparatedList", 1);
  }

  lemma SingletonSeparatedListNameFull(cfg: Config, name: string, suffix: string)
    requires !cfg.shortenCodeWithUsingStatic && name == SyntaxFactoryMethod(cfg, "SeparatedList") + suffix
    ensures SingletonName(cfg, name) == SyntaxFactoryMethod(cfg, "SingletonSeparatedList") + suffix
  {
    var q := "SyntaxFactory.";
    assert name == q + "SeparatedList" + suffix;
    ReplacePrefixMiss(name, "List", "SingletonList", 0);
    ReplacePrefixMiss(name, q + "List", q + "SingletonList", 14);
    ReplacePrefixMiss(name, "SeparatedList", "SingletonSeparatedList", 1);
    ReplacePrefixHit(name, q + "SeparatedList", q + "SingletonSeparatedList", suffix);
  }

  /** TokenList and TriviaList are not renamed. */
  lemma SingletonNonGenericName(cfg: Config, name: string)
    requires name == "TokenList" || name == "TriviaList"
    ensures SingletonName(cfg, SyntaxFactoryMethod(cfg, name)) == SyntaxFactoryMethod(cfg, name)
  {
    var n := SyntaxFactoryMethod(cfg, name);
    ReplacePrefixMiss(n, "List", "SingletonList", 0);
    ReplacePrefixMiss(n, "SeparatedList", "SingletonSeparatedList", 1);
    if !cfg.shortenCodeWithUsingStatic {
      var q := "SyntaxFactory.";
      assert n == q + name;
      ReplacePrefixMiss(n, q + "List", q + "SingletonList", 14);
      ReplacePrefixMiss(n, q + "SeparatedList", q + "SingletonSeparatedList", 14);
    }
  }

  // ---------------------------------------------------------------------------
  // QuoteTrivia
  // ---------------------------------------------------------------------------

  /**
   * The ready-made trivia properties of SyntaxFactory (the non-elastic ones),
   * keyed by their text: the property name and the trivia kind it produces.
   */
  function TriviaPreset(text: string): Option<(string, string)> {
    if text == "\r\n" then Some(("CarriageReturnLineFeed", "EndOfLineTrivia"))
    else if text == "\n" then Some(("LineFeed", "EndOfLineTrivia"))
    else if text == "\r" then Some(("CarriageReturn", "EndOfLineTrivia"))
    else if text == " " then Some(("Space", "WhitespaceTrivia"))
    else if text == "\t" then Some(("Tab", "WhitespaceTrivia"))
    else None
  }

  /** The trivia is exactly what one of the ready-made properties produces. */
  predicate IsPresetTrivia(t: Trivia) {
    TriviaPreset(t.text).Some? && TriviaPreset(t.text).value.1 == t.kind
  }

  /** The factory method for a trivia that is not a ready-made one. */
  function TriviaFactoryName(cfg: Config, t: Trivia): string {
    var whitespace := |t.text| > 0 && IsWhiteSpaceOnly(t.text) && t.kind == "WhitespaceTrivia";
    if t.kind == "SingleLineCommentTrivia" || t.kind == "MultiLineCommentTrivia" then SyntaxFactoryMethod(cfg, "Comment")
    else if t.kind == "PreprocessingMessageTrivia" then SyntaxFactoryMethod(cfg, "PreprocessingMessage")
    else if t.kind == "DisabledTextTrivia" then SyntaxFactoryMethod(cfg, "DisabledText")
    else if t.kind == "DocumentationCommentExteriorTrivia" then SyntaxFactoryMethod(cfg, "DocumentationCommentExterior")
    else if whitespace then SyntaxFactoryMethod(cfg, "Whitespace")
    else SyntaxFactoryMethod(cfg, "Trivia")
  }

  /** The single argument of a trivia call: its structure when structured, else its escaped text. */
  function TriviaArgument(nl: string, t: Trivia): Arg {
    if t.structure.Some? then Nested(t.structure.value.(name := Some("Structure")))
    else Literal(EscapeAndQuoteInferVerbatim(nl, t.text, "\""))
  }

  /** QuoteTrivia: null for empty or default-formatted trivia, a property for a ready-made one, else a factory call. */
  function QuoteTrivia(cfg: Config, nl: string, t: Trivia): (r: Option<CallTree>)
    ensures r.None? <==> t.fullSpanLength == 0
                         || (cfg.useDefaultFormatting && (t.kind == "WhitespaceTrivia" || IsPresetTrivia(t)))
    ensures r.Some? ==> r.value.name.None? && r.value.modifiers == NoChain
  {
    if t.fullSpanLength == 0 || (t.kind == "WhitespaceTrivia" && cfg.useDefaultFormatting) then None
    else if IsPresetTrivia(t) then
      if cfg.useDefaultFormatting then None
      else Some(MemberApiCall(None, SyntaxFactoryMethod(cfg, TriviaPreset(t.text).value.0)))
    else if |t.text| > 0 && IsWhiteSpaceOnly(t.text) && t.kind == "WhitespaceTrivia" && cfg.useDefaultFormatting then
      None
    else
      Some(MethodApiCall(None, TriviaFactoryName(cfg, t), Arguments([TriviaArgument(nl, t)]), false))
  }

  /** Without default formatting, a ready-made trivia is quoted as the SyntaxFactory property of that name. */
  lemma PresetTriviaQuotedAsProperty(cfg: Config, nl: string, t: Trivia)
    requires !cfg.useDefaultFormatting && t.fullSpanLength > 0
    requires t.text == "\r\n" && t.kind == "EndOfLineTrivia"
    ensures QuoteTrivia(cfg, nl, t) == Some(MemberApiCall(None, SyntaxFactoryMethod(cfg, "CarriageReturnLineFeed")))
  {
  }

  /**
   * A comment is quoted as Comment(text) where the escaped text parses back to
   * the comment's text (for any text other than the new-line sentinel).
   */
  lemma CommentTriviaRoundTrip(cfg: Config, nl: string, t: Trivia)
    requires t.fullSpanLength > 0 && t.structure.None?
    requires t.kind == "SingleLineCommentTrivia" || t.kind == "MultiLineCommentTrivia"
    requires t.text != NewLineName || t.text == nl
    ensures var r := QuoteTrivia(cfg, nl, t);
            r.Some? && r.value.factory.Some?
            && r.value.factory.value.name == SyntaxFactoryMethod(cfg, "Comment")
            && r.value.factory.value.arguments.Arguments?
            && |r.value.factory.value.arguments.items| == 1
            && r.value.factory.value.arguments.items[0].Literal?
            && ParseStringLiteral(nl, r.value.factory.value.arguments.items[0].text) == Ok(t.text)
  {
    var v := '\n' in t.text || '\r' in t.text;
    CommentTriviaQuoted(cfg, nl, t);
    ParseEscapeAndQuoteRoundTrip(nl, t.text, v);
  }

  lemma CommentTriviaQuoted(cfg: Config, nl: string, t: Trivia)
    requires t.fullSpanLength > 0 && t.structure.None?
    requires t.kind == "SingleLineCommentTrivia" || t.kind == "MultiLineCommentTrivia"
    ensures QuoteTrivia(cfg, nl, t)
            == Some(MethodApiCall(None, SyntaxFactoryMethod(cfg, "Comment"),
                                  Arguments([Literal(EscapeAndQuoteInferVerbatim(nl, t.text, "\""))]), false))
  {
    assert t.kind != "WhitespaceTrivia";
    assert !IsPresetTrivia(t) by {
      assert t.kind != "EndOfLineTrivia";
    }
  }

  /** The quoted trivia of a trivia list, element by element. */
  function QuoteTrivias(cfg: Config, nl: string, ts: seq<Trivia>): (r: seq<Option<CallTree>>)
    ensures |r| == |ts|
    ensures forall i :: 0 <= i < |ts| ==> r[i] == QuoteTrivia(cfg, nl, ts[i])
  {
    if ts == [] then [] else [QuoteTrivia(cfg, nl, ts[0])] + QuoteTrivias(cfg, nl, ts[1..])
  }

  // ---------------------------------------------------------------------------
  // QuoteToken
  // ---------------------------------------------------------------------------

  /** GetLeadingTrivia: the quoted leading trivia list, null if nothing in it quotes to a call. */
  function LeadingTriviaCall(cfg: Config, nl: string, tok: Token): Option<CallTree> {
    QuoteList(cfg, SyntaxTriviaList, QuoteTrivias(cfg, nl, tok.leadingTrivia), Some("LeadingTrivia"))
  }

  /** GetTrailingTrivia. */
  function TrailingTriviaCall(cfg: Config, nl: string, tok: Token): Option<CallTree> {
    QuoteList(cfg, SyntaxTriviaList, QuoteTrivias(cfg, nl, tok.trailingTrivia), Some("TrailingTrivia"))
  }

  /** GetEmptyTrivia: TriviaList() named after the property it stands in for. */
  function EmptyTrivia(cfg: Config, parentPropertyName: string): CallTree {
    MethodApiCall(Some(parentPropertyName), SyntaxFactoryMethod(cfg, "TriviaList"), NoArguments, false)
  }

  /** `call ?? GetEmptyTrivia(parentPropertyName)`. */
  function Filled(cfg: Config, call: Option<CallTree>, parentPropertyName: string): CallTree {
    if call.Some? then call.value else EmptyTrivia(cfg, parentPropertyName)
  }

  /** AddIfNotNull. */
  function IfPresent(call: Option<CallTree>): seq<Arg> {
    if call.Some? then [Nested(call.value)] else []
  }

  /** The leading trivia argument after pairing: present when either side has trivia. */
  function PairedLeading(cfg: Config, nl: string, tok: Token): Option<CallTree> {
    var l := LeadingTriviaCall(cfg, nl, tok);
    var t := TrailingTriviaCall(cfg, nl, tok);
    if l.Some? || t.Some? then Some(Filled(cfg, l, "LeadingTrivia")) else None
  }

  /** The trailing trivia argument after pairing. */
  function PairedTrailing(cfg: Config, nl: string, tok: Token): Option<CallTree> {
    var l := LeadingTriviaCall(cfg, nl, tok);
    var t := TrailingTriviaCall(cfg, nl, tok);
    if l.Some? || t.Some? then Some(Filled(cfg, t, "TrailingTrivia")) else None
  }

  /** The token has trivia that quotes to something, on either side. */
  predicate HasQuotedTrivia(cfg: Config, nl: string, tok: Token) {
    LeadingTriviaCall(cfg, nl, tok).Some? || TrailingTriviaCall(cfg, nl, tok).Some?
  }

  /** The token's text escaped, verbatim when it starts with '@' or holds a line break. */
  function EscapedTokenText(nl: string, tok: Token): string {
    var verbatim := StartsWith(tok.text, "@") || '\r' in tok.text || '\n' in tok.text;
    EscapeAndQuote(nl, tok.text, verbatim, "\"")
  }

  /** The factory method and arguments chosen for a token. */
  datatype TokenCall = TokenCall(methodName: string, arguments: seq<Arg>)

  predicate IsXmlTextKind(kind: string) {
    kind == "XmlTextLiteralToken" || kind == "XmlTextLiteralNewLineToken" || kind == "XmlEntityLiteralToken"
  }

  /** Keywords that may sit in a literal expression but are not quoted with Literal(...). */
  predicate IsKeywordLiteralKind(kind: string) {
    kind == "TrueKeyword" || kind == "FalseKeyword" || kind == "NullKeyword"
    || kind == "ArgListKeyword" || kind == "DefaultKeyword"
  }

  predicate IsLiteralToken(tok: Token) {
    (tok.parentIsLiteralExpression || tok.kind == "StringLiteralToken" || tok.kind == "NumericLiteralToken")
    && !IsKeywordLiteralKind(tok.kind) && !tok.isMissing
  }

  /** The value argument of Literal(...): quoted for string and character literals, raw otherwise. */
  function LiteralValue(nl: string, tok: Token): string {
    if tok.kind == "CharacterLiteralToken" then EscapeAndQuoteInferVerbatim(nl, tok.valueText, "'")
    else if tok.kind != "StringLiteralToken" then tok.valueText
    else EscapeAndQuoteInferVerbatim(nl, tok.valueText, "\"")
  }

  /** Literal(...) repeats the raw text when trivia is present or a string literal is not written canonically. */
  predicate LiteralKeepsText(cfg: Config, nl: string, tok: Token) {
    HasQuotedTrivia(cfg, nl, tok)
    || (tok.kind == "StringLiteralToken" && tok.text != tok.canonicalLiteralText)
  }

  function LiteralCall(cfg: Config, nl: string, tok: Token): TokenCall {
    var lead := PairedLeading(cfg, nl, tok);
    var trail := PairedTrailing(cfg, nl, tok);
    TokenCall(SyntaxFactoryMethod(cfg, "Literal"),
              IfPresent(lead)
              + (if LiteralKeepsText(cfg, nl, tok) then [Literal(EscapeAndQuoteInferVerbatim(nl, tok.text, "\""))] else [])
              + [Literal(LiteralValue(nl, tok))]
              + IfPresent(trail))
  }

  /** The fall-through case: Token(kind), MissingToken(kind) or BadToken(text). */
  function KindCall(cfg: Config, nl: string, tok: Token): TokenCall {
    var lead := PairedLeading(cfg, nl, tok);
    var trail := PairedTrailing(cfg, nl, tok);
    if tok.kind == "BadToken" then
      TokenCall(SyntaxFactoryMethod(cfg, "BadToken"),
                [Nested(Filled(cfg, lead, "LeadingTrivia")), Literal(EscapedTokenText(nl, tok)),
                 Nested(Filled(cfg, trail, "TrailingTrivia"))])
    else
      TokenCall(SyntaxFactoryMethod(cfg, if tok.isMissing then "MissingToken" else "Token"),
                IfPresent(lead) + [KindArg(tok.kind)] + IfPresent(trail))
  }

  /** The decision tree of QuoteToken for a token whose kind is not None. */
  function TokenFactoryCall(cfg: Config, nl: string, tok: Token): TokenCall {
    var esc := EscapedTokenText(nl, tok);
    var lead := PairedLeading(cfg, nl, tok);
    var trail := PairedTrailing(cfg, nl, tok);
    if tok.kind == "IdentifierToken" && !tok.isMissing then
      TokenCall(SyntaxFactoryMethod(cfg, "Identifier"), IfPresent(lead) + [Literal(esc)] + IfPresent(trail))
    else if tok.kind == "InterpolatedStringTextToken" && !tok.isMissing then
      TokenCall(SyntaxFactoryMethod(cfg, "Token"),
                [Nested(Filled(cfg, lead, "LeadingTrivia")), KindArg(tok.kind), Literal(esc), Literal(esc),
                 Nested(Filled(cfg, trail, "TrailingTrivia"))])
    else if IsXmlTextKind(tok.kind) && !tok.isMissing then
      var methodName :=
        if tok.kind == "XmlTextLiteralNewLineToken" then "XmlTextNewLine"
        else if tok.kind == "XmlEntityLiteralToken" then "XmlEntity"
        else "XmlTextLiteral";
      TokenCall(SyntaxFactoryMethod(cfg, methodName),
                [Nested(Filled(cfg, lead, "LeadingTrivia")), Literal(esc), Literal(esc),
                 Nested(Filled(cfg, trail, "TrailingTrivia"))])
    else if IsLiteralToken(tok) then
      LiteralCall(cfg, nl, tok)
    else
      KindCall(cfg, nl, tok)
  }

  /** QuoteToken: null for a default token, otherwise one factory call named after the property. */
  function QuoteToken(cfg: Config, nl: string, tok: Token, name: Option<string>): (r: Option<CallTree>)
    ensures r.None? <==> tok.kind == "None"
    ensures r.Some? ==> r.value.name == name && r.value.modifiers == NoChain && !r.value.useCurlies
  {
    if tok.kind == "None" then None
    else
      var c := TokenFactoryCall(cfg, nl, tok);
      Some(MethodApiCall(name, c.methodName, Arguments(c.arguments), false))
  }

  /**
   * Trivia pairing: once either side has trivia, the call's first argument is
   * the leading trivia and its last the trailing trivia, TriviaList() filling
   * the side that has none.
   */
  lemma TriviaArgumentsPaired(cfg: Config, nl: string, tok: Token)
    requires tok.kind != "None" && HasQuotedTrivia(cfg, nl, tok)
    ensures var args := TokenFactoryCall(cfg, nl, tok).arguments;
            |args| >= 3
            && args[0] == Nested(Filled(cfg, LeadingTriviaCall(cfg, nl, tok), "LeadingTrivia"))
            && args[|args| - 1] == Nested(Filled(cfg, TrailingTriviaCall(cfg, nl, tok), "TrailingTrivia"))
  {
    if tok.kind == "IdentifierToken" && !tok.isMissing {
      IdentifierTriviaPaired(cfg, nl, tok);
    } else if tok.kind == "InterpolatedStringTextToken" && !tok.isMissing {
    } else if IsXmlTextKind(tok.kind) && !tok.isMissing {
    } else if IsLiteralToken(tok) {
      LiteralTriviaPaired(cfg, nl, tok);
    } else if tok.kind != "BadToken" {
      KindTriviaPaired(cfg, nl, tok);
    }
  }

  lemma IdentifierTriviaPaired(cfg: Config, nl: string, tok: Token)
    requires HasQuotedTrivia(cfg, nl, tok) && tok.kind == "IdentifierToken" && !tok.isMissing
    ensures var args := TokenFactoryCall(cfg, nl, tok).arguments;
            |args| >= 3
            && args[0] == Nested(Filled(cfg, LeadingTriviaCall(cfg, nl, tok), "LeadingTrivia"))
            && args[|args| - 1] == Nested(Filled(cfg, TrailingTriviaCall(cfg, nl, tok), "TrailingTrivia"))
  {
    var lead := Filled(cfg, LeadingTriviaCall(cfg, nl, tok), "LeadingTrivia");
    var trail := Filled(cfg, TrailingTriviaCall(cfg, nl, tok), "TrailingTrivia");
    assert IfPresent(PairedLeading(cfg, nl, tok)) == [Nested(lead)];
    assert IfPresent(PairedTrailing(cfg, nl, tok)) == [Nested(trail)];
    var args := TokenFactoryCall(cfg, nl, tok).arguments;
    Bracketed(args, lead, [Literal(EscapedTokenText(nl, tok))], trail);
  }

  lemma LiteralTriviaPaired(cfg: Config, nl: string, tok: Token)
    requires HasQuotedTrivia(cfg, nl, tok) && IsLiteralToken(tok)
    requires tok.kind != "IdentifierToken" && tok.kind != "InterpolatedStringTextToken" && !IsXmlTextKind(tok.kind)
    ensures var args := TokenFactoryCall(cfg, nl, tok).arguments;
            |args| >= 3
            && args[0] == Nested(Filled(cfg, LeadingTriviaCall(cfg, nl, tok), "LeadingTrivia"))
            && args[|args| - 1] == Nested(Filled(cfg, TrailingTriviaCall(cfg, nl, tok), "TrailingTrivia"))
  {
    var lead := Filled(cfg, LeadingTriviaCall(cfg, nl, tok), "LeadingTrivia");
    var trail := Filled(cfg, TrailingTriviaCall(cfg, nl, tok), "TrailingTrivia");
    assert IfPresent(PairedLeading(cfg, nl, tok)) == [Nested(lead)];
    assert IfPresent(PairedTrailing(cfg, nl, tok)) == [Nested(trail)];
    var args := TokenFactoryCall(cfg, nl, tok).arguments;
    var keep := if LiteralKeepsText(cfg, nl, tok) then [Literal(EscapeAndQuoteInferVerbatim(nl, tok.text, "\""))] else [];
    Bracketed(args, lead, keep + [Literal(LiteralValue(nl, tok))], trail);
  }

  lemma KindTriviaPaired(cfg: Config, nl: string, tok: Token)
    requires HasQuotedTrivia(cfg, nl, tok) && !IsLiteralToken(tok) && tok.kind != "BadToken"
    requires (tok.kind != "IdentifierToken" && tok.kind != "InterpolatedStringTextToken" && !IsXmlTextKind(tok.kind))
             || tok.isMissing
    ensures var args := TokenFactoryCall(cfg, nl, tok).arguments;
            |args| >= 3
            && args[0] == Nested(Filled(cfg, LeadingTriviaCall(cfg, nl, tok), "LeadingTrivia"))
            && args[|args| - 1] == Nested(Filled(cfg, TrailingTriviaCall(cfg, nl, tok), "TrailingTrivia"))
  {
    var lead := Filled(cfg, LeadingTriviaCall(cfg, nl, tok), "LeadingTrivia");
    var trail := Filled(cfg, TrailingTriviaCall(cfg, nl, tok), "TrailingTrivia");
    assert IfPresent(PairedLeading(cfg, nl, tok)) == [Nested(lead)];
    assert IfPresent(PairedTrailing(cfg, nl, tok)) == [Nested(trail)];
    var args := TokenFactoryCall(cfg, nl, tok).arguments;
    Bracketed(args, lead, [KindArg(tok.kind)], trail);
  }

  lemma Bracketed(args: seq<Arg>, lead: CallTree, middle: seq<Arg>, trail: CallTree)
    requires args == [Nested(lead)] + middle + [Nested(trail)] && middle != []
    ensures |args| >= 3 && args[0] == Nested(lead) && args[|args| - 1] == Nested(trail)
  {
  }

  /** Without trivia, identifiers, literals and plain kind tokens carry no trivia argument at all. */
  lemma NoTriviaNoTriviaArguments(cfg: Config, nl: string, tok: Token)
    requires tok.kind != "None" && !HasQuotedTrivia(cfg, nl, tok)
    requires tok.kind != "BadToken" && tok.kind != "InterpolatedStringTextToken" && !IsXmlTextKind(tok.kind)
    ensures forall a :: a in TokenFactoryCall(cfg, nl, tok).arguments ==> !a.Nested?
  {
  }

  /** A missing token of any kind but BadToken, identifiers included, is MissingToken(kind). */
  lemma MissingTokenQuoted(cfg: Config, nl: string, tok: Token)
    requires tok.isMissing && tok.kind != "None" && tok.kind != "BadToken"
    ensures TokenFactoryCall(cfg, nl, tok)
            == TokenCall(SyntaxFactoryMethod(cfg, "MissingToken"),
                         IfPresent(PairedLeading(cfg, nl, tok)) + [KindArg(tok.kind)]
                         + IfPresent(PairedTrailing(cfg, nl, tok)))
  {
  }

  /**
   * A BadToken (outside a literal expression, where it would be quoted as a
   * literal) is quoted with its escaped text, between both trivia arguments.
   */
  lemma BadTokenQuoted(cfg: Config, nl: string, tok: Token)
    requires tok.kind == "BadToken" && !tok.parentIsLiteralExpression
    ensures TokenFactoryCall(cfg, nl, tok)
            == TokenCall(SyntaxFactoryMethod(cfg, "BadToken"),
                         [Nested(Filled(cfg, LeadingTriviaCall(cfg, nl, tok), "LeadingTrivia")),
                          Literal(EscapedTokenText(nl, tok)),
                          Nested(Filled(cfg, TrailingTriviaCall(cfg, nl, tok), "TrailingTrivia"))])
  {
    var l := LeadingTriviaCall(cfg, nl, tok);
    var t := TrailingTriviaCall(cfg, nl, tok);
    assert Filled(cfg, PairedLeading(cfg, nl, tok), "LeadingTrivia") == Filled(cfg, l, "LeadingTrivia");
    assert Filled(cfg, PairedTrailing(cfg, nl, tok), "TrailingTrivia") == Filled(cfg, t, "TrailingTrivia");
  }

  /**
   * A present identifier is Identifier(text) whose literal argument parses
   * back to the identifier's text.
   */
  lemma IdentifierRoundTrip(cfg: Config, nl: string, tok: Token)
    requires tok.kind == "IdentifierToken" && !tok.isMissing
    requires !HasQuotedTrivia(cfg, nl, tok)
    requires tok.text != NewLineName || tok.text == nl
    ensures var c := TokenFactoryCall(cfg, nl, tok);
            c.methodName == SyntaxFactoryMethod(cfg, "Identifier")
            && |c.arguments| == 1 && c.arguments[0].Literal?
            && ParseStringLiteral(nl, c.arguments[0].text) == Ok(tok.text)
  {
    var verbatim := StartsWith(tok.text, "@") || '\r' in tok.text || '\n' in tok.text;
    ParseEscapeAndQuoteRoundTrip(nl, tok.text, verbatim);
  }

  /**
   * A literal token: its raw text is an argument exactly when trivia is
   * present or a string literal is not in canonical form; its value is
   * always the argument just before the trailing trivia (or the last one).
   */
  lemma LiteralArguments(cfg: Config, nl: string, tok: Token)
    requires tok.kind != "None" && IsLiteralToken(tok)
    requires tok.kind != "IdentifierToken" && tok.kind != "InterpolatedStringTextToken" && !IsXmlTextKind(tok.kind)
    ensures var c := TokenFactoryCall(cfg, nl, tok);
            var trivia := if HasQuotedTrivia(cfg, nl, tok) then 2 else 0;
            var raw := if LiteralKeepsText(cfg, nl, tok) then 1 else 0;
            c.methodName == SyntaxFactoryMethod(cfg, "Literal")
            && |c.arguments| == trivia + raw + 1
            && c.arguments[trivia / 2 + raw] == Literal(LiteralValue(nl, tok))
            && (raw == 1 ==> c.arguments[trivia / 2] == Literal(EscapeAndQuoteInferVerbatim(nl, tok.text, "\"")))
  {
    LiteralTokenCall(cfg, nl, tok);
    LiteralCallArguments(cfg, nl, tok);
  }

  lemma LiteralCallArguments(cfg: Config, nl: string, tok: Token)
    ensures var c := LiteralCall(cfg, nl, tok);
            var trivia := if HasQuotedTrivia(cfg, nl, tok) then 2 else 0;
            var raw := if LiteralKeepsText(cfg, nl, tok) then 1 else 0;
            c.methodName == SyntaxFactoryMethod(cfg, "Literal")
            && |c.arguments| == trivia + raw + 1
            && c.arguments[trivia / 2 + raw] == Literal(LiteralValue(nl, tok))
            && (raw == 1 ==> c.arguments[trivia / 2] == Literal(EscapeAndQuoteInferVerbatim(nl, tok.text, "\"")))
  {
    var lead := IfPresent(PairedLeading(cfg, nl, tok));
    var middle := if LiteralKeepsText(cfg, nl, tok) then [Literal(EscapeAndQuoteInferVerbatim(nl, tok.text, "\""))] else [];
    var value := [Literal(LiteralValue(nl, tok))];
    var trail := IfPresent(PairedTrailing(cfg, nl, tok));
    var args := lead + middle + value + trail;
    assert LiteralCall(cfg, nl, tok).arguments == args;
    assert |lead| == |trail| == if HasQuotedTrivia(cfg, nl, tok) then 1 else 0;
    assert args[|lead| + |middle|] == value[0];
    if LiteralKeepsText(cfg, nl, tok) {
      assert args[|lead|] == middle[0];
    }
  }

  /** A literal token other than an identifier, interpolated text or XML text is quoted by `LiteralCall`. */
  lemma LiteralTokenCall(cfg: Config, nl: string, tok: Token)
    requires IsLiteralToken(tok)
    requires tok.kind != "IdentifierToken" && tok.kind != "InterpolatedStringTextToken" && !IsXmlTextKind(tok.kind)
    ensures TokenFactoryCall(cfg, nl, tok) == LiteralCall(cfg, nl, tok)
  {
  }

  // ---------------------------------------------------------------------------
  // QuotePropertyValues
  // ---------------------------------------------------------------------------

  /** Properties that do not describe the shape of the tree and are never quoted. */
  const NonStructuralProperties: set<string> := {
    "AllowsAnyExpression", "Arity", "ContainsAnnotations", "ContainsDiagnostics",
    "ContainsDirectives", "ContainsSkippedText", "DirectiveNameToken", "FullSpan",
    "HasLeadingTrivia", "HasTrailingTrivia", "HasStructuredTrivia", "HasStructure",
    "IsConst", "IsDirective", "IsElastic", "IsFixed", "IsMissing", "IsStructuredTrivia",
    "IsUnboundGenericName", "IsUnmanaged", "IsVar", "Kind", "Language", "Parent",
    "ParentTrivia", "PlainName", "Span", "SyntaxTree"
  }

  /** Node types whose factory methods take the node's SyntaxKind back as their first argument. */
  const KindBearingTypes: set<string> := {
    "AccessorDeclarationSyntax", "AssignmentExpressionSyntax", "BinaryExpressionSyntax",
    "ClassOrStructConstraintSyntax", "CheckedExpressionSyntax", "CheckedStatementSyntax",
    "ConstructorInitializerSyntax", "GotoStatementSyntax", "InitializerExpressionSyntax",
    "LiteralExpressionSyntax", "MemberAccessExpressionSyntax", "OrderingSyntax",
    "PostfixUnaryExpressionSyntax", "PrefixUnaryExpressionSyntax",
    "DocumentationCommentTriviaSyntax", "YieldStatementSyntax"
  }

  /** The node is one of the kind-bearing types (or derives from one). */
  predicate CarriesKind(node: Node) {
    exists t :: t in KindBearingTypes && Is(node, t)
  }

  predicate IsStructural(p: Property) {
    p.name !in NonStructuralProperties && !p.obsolete
  }

  /** The properties that are quoted, in reflection order. */
  function StructuralProperties(props: seq<Property>): (r: seq<Property>)
    ensures |r| <= |props|
    ensures forall p :: p in r <==> p in props && IsStructural(p)
  {
    if props == [] then []
    else (if IsStructural(props[0]) then [props[0]] else []) + StructuralProperties(props[1..])
  }

  /** Quote one element of a list; elements are quoted without a name. */
  function QuoteElement(cfg: Config, nl: string, e: ListElement): Option<CallTree> {
    match e
    case NodeElement(q) => Some(q.(name := None))
    case TokenElement(tok) => QuoteToken(cfg, nl, tok, None)
    case TriviaElement(t) => QuoteTrivia(cfg, nl, t)
  }

  function QuoteElements(cfg: Config, nl: string, es: seq<ListElement>): (r: seq<Option<CallTree>>)
    ensures |r| == |es|
    ensures forall i :: 0 <= i < |es| ==> r[i] == QuoteElement(cfg, nl, es[i])
  {
    if es == [] then [] else [QuoteElement(cfg, nl, es[0])] + QuoteElements(cfg, nl, es[1..])
  }

  /** QuotePropertyValue: whatever it produces is named after the property. */
  function QuotePropertyValue(cfg: Config, nl: string, p: Property): (r: Option<CallTree>)
    ensures r.Some? ==> r.value.name == Some(p.name)
    ensures p.value.OtherValue? ==> r.None?
    ensures p.value.NodeValue? || p.value.StringValue? || p.value.BoolValue? ==> r.Some?
  {
    match p.value
    case TokenValue(tok) => QuoteToken(cfg, nl, tok, Some(p.name))
    case ListValue(shape, elements) => QuoteList(cfg, shape, QuoteElements(cfg, nl, elements), Some(p.name))
    case NodeValue(q) => Some(q.(name := Some(p.name)))
    case StringValue(text) => Some(MemberApiCall(Some(p.name), EscapeAndQuoteInferVerbatim(nl, text, "\"")))
    case BoolValue(b) => Some(MemberApiCall(Some(p.name), if b then "true" else "false"))
    case OtherValue => None
  }

  function QuoteProperties(cfg: Config, nl: string, props: seq<Property>): (r: seq<Option<CallTree>>)
    ensures |r| == |props|
    ensures forall i :: 0 <= i < |props| ==> r[i] == QuotePropertyValue(cfg, nl, props[i])
  {
    if props == [] then [] else [QuotePropertyValue(cfg, nl, props[0])] + QuoteProperties(cfg, nl, props[1..])
  }

  /** The artificial "Kind" value: a member access SyntaxKind.<kind>. */
  function KindValue(node: Node): CallTree {
    MemberApiCall(Some("Kind"), "SyntaxKind." + node.kind)
  }

  /** QuotePropertyValues: the non-null quoted structural properties, then Kind for kind-bearing nodes. */
  function QuotePropertyValues(cfg: Config, nl: string, node: Node): (r: seq<CallTree>)
    ensures |r| <= |node.properties| + 1
  {
    Present(QuoteProperties(cfg, nl, StructuralProperties(node.properties)))
    + (if CarriesKind(node) then [KindValue(node)] else [])
  }

  /**
   * Every quoted value is named after a structural, non-obsolete property of
   * the node, except the artificial Kind value, which is present, and last,
   * exactly when the node is of a kind-bearing type.
   */
  lemma PropertyValuesNamed(cfg: Config, nl: string, node: Node)
    ensures var r := QuotePropertyValues(cfg, nl, node);
            (forall v :: v in r ==>
               (v == KindValue(node) || exists p :: p in node.properties && IsStructural(p) && v.name == Some(p.name)))
            && (CarriesKind(node) <==> |r| > 0 && r[|r| - 1].name == Some("Kind"))
  {
    var props := StructuralProperties(node.properties);
    var quoted := QuoteProperties(cfg, nl, props);
    var values := Present(quoted);
    forall v | v in values
      ensures exists p :: p in node.properties && IsStructural(p) && v.name == Some(p.name)
    {
      assert Some(v) in quoted;
      var i :| 0 <= i < |quoted| && quoted[i] == Some(v);
      assert props[i] in props;
    }
    var r := QuotePropertyValues(cfg, nl, node);
    if !CarriesKind(node) && |r| > 0 {
      assert r == values;
      assert r[|r| - 1] in values;
    }
  }

  /**
   * Conversely, every structural, non-obsolete property whose value quotes to
   * something contributes that value.
   */
  lemma StructuralValuesQuoted(cfg: Config, nl: string, node: Node, p: Property)
    requires p in node.properties && IsStructural(p) && QuotePropertyValue(cfg, nl, p).Some?
    ensures QuotePropertyValue(cfg, nl, p).value in QuotePropertyValues(cfg, nl, node)
  {
    var props := StructuralProperties(node.properties);
    var quoted := QuoteProperties(cfg, nl, props);
    assert p in props;
    var i :| 0 <= i < |props| && props[i] == p;
    assert quoted[i] == QuotePropertyValue(cfg, nl, p);
    assert Some(QuotePropertyValue(cfg, nl, p).value) in quoted;
  }

  /** Obsolete and non-structural properties contribute nothing. */
  lemma HiddenPropertiesIgnored(cfg: Config, nl: string, node: Node, p: Property)
    requires !IsStructural(p)
    ensures QuotePropertyValues(cfg, nl, node.(properties := node.properties + [p]))
            == QuotePropertyValues(cfg, nl, node)
  {
    StructuralAppendHidden(node.properties, p);
  }

  lemma {:induction false} StructuralAppendHidden(props: seq<Property>, p: Property)
    requires !IsStructural(p)
    ensures StructuralProperties(props + [p]) == StructuralProperties(props)
    decreases |props|
  {
    if props == [] {
      assert StructuralProperties([p]) == [] + StructuralProperties([]);
    } else {
      assert (props + [p])[1..] == props[1..] + [p];
      StructuralAppendHidden(props[1..], p);
    }
  }
}
