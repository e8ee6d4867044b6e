# RoslynQuoter core in Dafny

RoslynQuoter takes C# source text and produces the C# code of the Roslyn
`SyntaxFactory` calls that rebuild the same syntax tree. Its engine,
`src/Quoter/Quoter.cs`, does four things:

- it quotes a syntax tree into a tree of API calls (`ApiCall`, `MemberCall`, `MethodCall`);
- it picks, for each node, a factory-method overload and binds the node's quoted property values to that overload's parameters;
- it prints the call tree as indented C# text;
- it interprets a call tree back into a syntax tree, which the redundant-call eliminator uses.

This project models that engine. Everything Roslyn provides through
reflection becomes an explicit descriptor or a parameter:

- nodes, tokens, trivia and properties are descriptors (module `Syntax`);
- factory methods, parameters, types and run-time values are descriptors too (module `Reflection`);
- the services the interpreter reaches at run time (`IsAssignableFrom`, `MakeGenericMethod`, `MethodInfo.Invoke`, `NormalizeWhitespace`, nested interpretation) are the fields of a `Host` record;
- the eliminator's `Evaluate` is a rendering oracle `render: (CallTree, bool) -> string`;
- `Environment.NewLine` is a parameter `nl`.

The modules follow the structure of the source:

- `Wrappers` (wrappers.dfy): `Option`, `Result` and the .NET exceptions the engine throws.
- `Text` (text.dfy): the `string` members used: `StartsWith`, `Contains`, `IndexOf`, `Replace`, `ToUpperInvariant`.
- `StringLiterals` (string_literals.dfy): `Escape`, `Unescape`, `EscapeAndQuote`, `SurroundWithQuotes`, `ParseStringLiteral`.
- `CallModel` (call_model.dfy): the call-tree values, plus the classes `ApiCall` and `MethodCall`, which the quoter mutates in place.
- `Printing` (printer.dfy): the specification `Render*` and the `Printer` class that appends to its buffer.
- `Syntax` (syntax.dfy): the descriptors of a syntax tree.
- `Quoting` (quoting.dfy): `QuoteList`, `QuoteToken`, `QuoteTrivia`, `QuotePropertyValues`.
- `Reflection` (reflection.dfy): type, parameter, factory-method and value descriptors.
- `Registry` (registry.dfy): `GetFactoryMethods` and `PickFactoryMethodToCreateNode`.
- `Binding` (binding.dfy): `FindValue`, `AddFactoryMethodArguments`, `ProperCase`, `AddModifyingCall(s)`, `QuoteNode`, `Quote`.
- `Interpreter` (interpreter.dfy): `InterpretApiCall`, `InterpretMethodCall`, `TryGetGenericArgument`, `PickCandidateMethod`, `GetArgument`.

The imperative parts stay imperative:

- `Escape` and `Unescape` are loops over a string builder.
- `AddFactoryMethodArguments` appends to a `MethodCall` object and shrinks the pool of quoted values.
- `AddModifyingCall` calls `Add` and `Remove` on an `ApiCall` object.
- `GetFactoryMethods` fills a dictionary in a loop.
- `PickCandidateMethod` is nested loops.
- The printer appends to one shared buffer.

Each of these methods is proved equal to a specification function. The
promised properties are then proved about that function.

## Model

| member | source | states |
|---|---|---|
| `Text.IndexOf` | src/Quoter/Quoter.cs:1330-1331 | the result is the first position holding the character, and -1 exactly when the character does not occur |
| `Text.ContainsCharIff` | src/Quoter/Quoter.cs:788-792 | `Contains` with a one-character string holds exactly when that character occurs |
| `Text.ToUpperInvariant` | src/Quoter/Quoter.cs:1751 | a lower-case ASCII letter becomes its upper-case letter; every other character is unchanged |
| `StringLiterals.Escape` | src/Quoter/Quoter.cs:760-786 | the loop produces `Escaped(text, v)`: `"` becomes `\"` (regular) or `""` (verbatim); a backslash is doubled in regular mode only; every other character is kept |
| `StringLiterals.Unescape` | src/Quoter/Quoter.cs:812-870 | the result is `Unescaped`: the sentinel text `Environment.NewLine` gives the platform newline, verbatim mode replaces `""` by `"`, and regular mode runs the backslash-flag scan |
| `StringLiterals.UnescapeChar` | src/Quoter/Quoter.cs:828-865 | one loop iteration: what it appends for a character and the new backslash flag, as the scan specifies |
| `StringLiterals.SurroundWithQuotes` | src/Quoter/Quoter.cs:894-898 | the result starts and ends with the quote string, is two quotes longer than the text, and has the text between the quotes |
| `StringLiterals.EscapeAndQuoteInferVerbatim` | src/Quoter/Quoter.cs:788-792 | the one-argument overload is verbatim exactly when the text holds `\n` or `\r` |
| `StringLiterals.ParseFailsOnNegativeSubstring` | src/Quoter/Quoter.cs:794-810 | the parse throws exactly when it would call `Substring(1, -1)` |
| `StringLiterals.NegativeSubstringIsLoneQuote` | src/Quoter/Quoter.cs:796-806 | that happens exactly for the inputs `"` and `@"` |
| `StringLiterals.ParseStringLiteral` | src/Quoter/Quoter.cs:794-810 | the only failure is ArgumentOutOfRange; text with neither `@` nor a leading quote is unescaped as it is |
| `StringLiterals.EscapeAndQuote` | src/Quoter/Quoter.cs:872-892 | the platform newline gives the `Environment.NewLine` name, `\n` gives `"\n"`, and anything else is escaped and quoted, behind `@` when verbatim |
| `StringLiterals.ParseFailsExactlyOnLoneQuote` | src/Quoter/Quoter.cs:794-810 | `ParseStringLiteral` fails exactly on a lone quote, with or without `@` |
| `StringLiterals.UnescapeScanEscaped` | src/Quoter/Quoter.cs:760-867 | the backslash scan undoes regular escaping of every string |
| `StringLiterals.ReplaceDoubledQuotesEscaped` | src/Quoter/Quoter.cs:760-822 | replacing `""` by `"` undoes verbatim escaping of every string |
| `StringLiterals.EscapedPlain` | src/Quoter/Quoter.cs:760-786 | an escaped text free of `"` and backslash is the original text |
| `StringLiterals.EscapedSentinel` | src/Quoter/Quoter.cs:814-817 | escaping a text other than `Environment.NewLine` never yields that sentinel text |
| `StringLiterals.UnescapeEscapeRoundTrip` | src/Quoter/Quoter.cs:760-870 | `Unescape(Escape(s, v), v) == s` for both flags and every `s` other than the sentinel |
| `StringLiterals.ParseQuoted` | src/Quoter/Quoter.cs:794-810 | parsing a quoted body, with `@` when verbatim, yields the unescaped body |
| `StringLiterals.ParseEscapeAndQuoteRoundTrip` | src/Quoter/Quoter.cs:794-892 | `ParseStringLiteral(EscapeAndQuote(s, v)) == s` for both flags, for the `"\n"` and platform-newline short-cuts, and for every `s` other than the sentinel |
| `StringLiterals.SentinelParsesToNewLine` | src/Quoter/Quoter.cs:814-877 | the sentinel text itself comes back as the platform newline, which is the one exception to the round trip |
| `StringLiterals.EscapedPlainText` | src/Quoter/Quoter.cs:760-786 | a text without `"` and backslash escapes to itself |
| `StringLiterals.BackslashBDecodesToB` | src/Quoter/Quoter.cs:840-862 | `\b` is not a known escape, and it decodes to the letter `b` |
| `CallModel.Appended` | src/Quoter/Quoter.cs:1904-1912 | adding nothing leaves a null argument list null; adding something creates the list and appends |
| `CallModel.AppendedTwice` | src/Quoter/Quoter.cs:1904-1912 | two rounds of `AddArgument` equal one round with the concatenation |
| `CallModel.MethodCall.constructor` | src/Quoter/Quoter.cs:192-195 | the object initializer sets the name and the argument list |
| `CallModel.MethodCall.AddArgument` | src/Quoter/Quoter.cs:1904-1912 | the list is created on first use and gains exactly the value at its end; the name is unchanged |
| `CallModel.IndexOfCall` | src/Quoter/Quoter.cs:1873 | the position of the first occurrence of that very object, and -1 exactly when it is absent |
| `CallModel.RemoveFirst` | src/Quoter/Quoter.cs:1873 | `List.Remove` by reference: nothing changes if the object is absent; otherwise exactly one copy goes (as multisets) |
| `CallModel.RemoveFirstOfAppended` | src/Quoter/Quoter.cs:1856-1874 | removing a call just appended (and not there before) restores the previous chain |
| `CallModel.ValuesOfRemoveFirst` | src/Quoter/Quoter.cs:1866-1874 | the values of the chain after `Remove` are the old values without the removed position |
| `CallModel.ApiCall.Named` | src/Quoter/Quoter.cs:1825-1828 | `new ApiCall(text)` has that name and no factory call and no instance calls |
| `CallModel.ApiCall.constructor` | src/Quoter/Quoter.cs:1850-1854 | the factory call object is shared, not copied |
| `CallModel.ApiCall.Add` | src/Quoter/Quoter.cs:1856-1864 | the chain is created on first use and gains exactly that call at its end; nothing else changes |
| `CallModel.ApiCall.Remove` | src/Quoter/Quoter.cs:1866-1874 | without a chain nothing happens; otherwise the first occurrence of that object leaves the chain and the rest keeps its order |
| `Printing.SpacesShape` | src/Quoter/Quoter.cs:1745 | `new string(' ', n)` is `n` spaces |
| `Printing.IndentationShape` | src/Quoter/Quoter.cs:1741-1747 | the indentation is `4 * indent` spaces, and empty at level 0 or below |
| `Printing.Printer.PrintIndent` | src/Quoter/Quoter.cs:1741-1747 | appends exactly the indentation |
| `Printing.Printer.PrintLine` | src/Quoter/Quoter.cs:1735-1739 | appends the indentation, then the line |
| `Printing.Printer.PrintNewLine` | src/Quoter/Quoter.cs:1730-1733 | appends exactly the platform newline |
| `Printing.Printer.PrintCall` | src/Quoter/Quoter.cs:1592-1629 | appends exactly `RenderCall`: the bare name without a factory call; otherwise the factory call and then the chain |
| `Printing.Printer.PrintChain` | src/Quoter/Quoter.cs:1615-1628 | appends each instance call after a newline, at the tree's depth and brace style |
| `Printing.Printer.PrintMember` | src/Quoter/Quoter.cs:1631-1728 | appends exactly `RenderMember` for a member access or a method call |
| `Printing.Printer.PrintOpen` | src/Quoter/Quoter.cs:1660-1673 | appends the opening bracket (on its own line when so configured and not inline), then a newline unless inline |
| `Printing.Printer.PrintClose` | src/Quoter/Quoter.cs:1718-1726 | appends the closing bracket, on its own line when so configured and not inline |
| `Printing.Printer.PrintArguments` | src/Quoter/Quoter.cs:1675-1716 | appends every argument in order, with `,` and a newline before all but the first |
| `Printing.Printer.PrintSeparator` | src/Quoter/Quoter.cs:1678-1682 | appends `,` and a newline when a comma is needed, and nothing otherwise |
| `Printing.Printer.PrintArgument` | src/Quoter/Quoter.cs:1684-1713 | a string or SyntaxKind is printed at depth+1 or inline; an ApiCall or MemberCall one level deeper |
| `Printing.Print` | src/Quoter/Quoter.cs:1571-1577 | the generated code is `RenderCall` of the root at depth 0, with the configured parenthesis options |
| `Printing.PrintWithDefaultFormatting` | src/Quoter/Quoter.cs:1579-1590 | the same with both parenthesis options off |
| `Printing.NameOnlyPrintsName` | src/Quoter/Quoter.cs:1609-1613 | a call tree without a factory call prints exactly its name, unindented, such as the parse-error message |
| `Printing.EmptyArgumentsPrintBrackets` | src/Quoter/Quoter.cs:1646-1650 | a null or empty argument list prints `Name()` or `Name{}` |
| `Printing.SingleLiteralPrintsInline` | src/Quoter/Quoter.cs:1652-1690 | a lone string argument prints inline, with no newline, whatever the parenthesis options are |
| `Printing.SingleKindPrintsInline` | src/Quoter/Quoter.cs:1652-1694 | a lone SyntaxKind argument prints inline as `SyntaxKind.<kind>` |
| `Printing.LiteralArgsAreJoinedLines` | src/Quoter/Quoter.cs:1675-1716 | several string arguments print as their indented lines joined by `,` and a newline |
| `Printing.LiteralArgumentsOnePerLine` | src/Quoter/Quoter.cs:1652-1726 | two or more string arguments print one per line, indented 4 spaces deeper than the call, between the brackets |
| `Printing.ChainSnoc` | src/Quoter/Quoter.cs:1615-1628 | appending a call to the chain appends a newline and that call to the chain's text |
| `Printing.AppendedModifierPrintsOnNewLine` | src/Quoter/Quoter.cs:1615-1628 | each modifier call prints on its own new line after everything before it |
| `Printing.EmptyChainPrintsNothing` | src/Quoter/Quoter.cs:1615-1628 | a null chain and an empty chain print the same |
| `Quoting.Present` | src/Quoter/Quoter.cs:340-342 | the non-null quoted elements, and nothing else |
| `Quoting.PresentAppend` | src/Quoter/Quoter.cs:340-342 | filtering distributes over concatenation, so source order is kept |
| `Quoting.NestedAll` | src/Quoter/Quoter.cs:371-378 | each element becomes one nested argument, in order |
| `Quoting.QuoteList` | src/Quoter/Quoter.cs:305-383 | null exactly when no element quotes to a call; otherwise one method call named after the property |
| `Quoting.QuoteListSingleton` | src/Quoter/Quoter.cs:347-381 | for each list shape, one element gives its singleton factory (`SingletonList<T>`, `SingletonSeparatedList<T>`, `TokenList`, `TriviaList`) with that element as the only argument |
| `Quoting.PresentNone` | src/Quoter/Quoter.cs:338-345 | a list whose every element quotes to nothing has no present elements |
| `Quoting.ArrayCreationOfListType` | src/Quoter/Quoter.cs:374-381 | the array-creation name is `new T[]` for the shape's element type: `T` for syntax lists, `SyntaxNodeOrToken` for separated lists, none for token and trivia lists |
| `Quoting.QuoteListArray` | src/Quoter/Quoter.cs:369-381 | two or more elements keep the list method's name and pass one array-creation argument in curly braces, named `new T[]` for the shape's element type, holding exactly the present elements in source order |
| `Quoting.SingletonNames` | src/Quoter/Quoter.cs:305-368 | for each list shape, `List` becomes `SingletonList` and `SeparatedList` becomes `SingletonSeparatedList`; `TokenList` and `TriviaList` stay |
| `Quoting.SingletonListName` | src/Quoter/Quoter.cs:309-367 | `List<T>` becomes `SingletonList<T>`, keeping the `SyntaxFactory.` prefix and the generic suffix |
| `Quoting.SingletonListNameShort` | src/Quoter/Quoter.cs:349-352 | with `using static`, the `List` prefix is replaced and nothing later applies |
| `Quoting.SingletonListNameFull` | src/Quoter/Quoter.cs:354-357 | without `using static`, the `SyntaxFactory.List` prefix is replaced and nothing later applies |
| `Quoting.SingletonSeparatedListName` | src/Quoter/Quoter.cs:320-367 | `SeparatedList<T>` becomes `SingletonSeparatedList<T>`, keeping prefix and suffix |
| `Quoting.SingletonSeparatedListNameShort` | src/Quoter/Quoter.cs:359-362 | the short form is renamed by the third test only |
| `Quoting.SingletonSeparatedListNameFull` | src/Quoter/Quoter.cs:364-367 | the qualified form is renamed by the fourth test only |
| `Quoting.SingletonNonGenericName` | src/Quoter/Quoter.cs:330-367 | `TokenList` and `TriviaList` keep their names for a single element |
| `Quoting.QuoteTrivia` | src/Quoter/Quoter.cs:572-637 | null exactly for zero-width trivia (when quoting without default formatting); a result is nameless and has no chain |
| `Quoting.PresetTriviaQuotedAsProperty` | src/Quoter/Quoter.cs:582-592 | a ready-made trivia (here `\r\n` end-of-line) is quoted as the `SyntaxFactory` property of that name |
| `Quoting.CommentTriviaRoundTrip` | src/Quoter/Quoter.cs:606-636 | a comment is quoted as `Comment(text)`, and its literal argument parses back to the comment's text |
| `Quoting.CommentTriviaQuoted` | src/Quoter/Quoter.cs:606-636 | a comment is quoted as `Comment` applied to its escaped text |
| `Quoting.QuoteTrivias` | src/Quoter/Quoter.cs:340-342 | a trivia list is quoted element by element |
| `Quoting.QuoteToken` | src/Quoter/Quoter.cs:385-529 | a default or `None` token gives null; every other token gives one call named after the property, with no chain |
| `Quoting.TriviaArgumentsPaired` | src/Quoter/Quoter.cs:403-525 | once either side has trivia, the first argument is the leading trivia and the last is the trailing trivia, with `TriviaList()` filling a missing side |
| `Quoting.IdentifierTriviaPaired` | src/Quoter/Quoter.cs:403-429 | the same for a present identifier |
| `Quoting.LiteralTriviaPaired` | src/Quoter/Quoter.cs:459-501 | the same for a literal token |
| `Quoting.KindTriviaPaired` | src/Quoter/Quoter.cs:403-526 | the same for the fall-through `Token(kind)` / `MissingToken(kind)` case |
| `Quoting.NoTriviaNoTriviaArguments` | src/Quoter/Quoter.cs:403-525 | without trivia, identifiers, literals and plain kind tokens get no trivia argument at all |
| `Quoting.MissingTokenQuoted` | src/Quoter/Quoter.cs:409-526 | a missing token of any kind but `BadToken`, identifiers included, is `MissingToken(kind)` with its paired trivia |
| `Quoting.BadTokenQuoted` | src/Quoter/Quoter.cs:509-525 | a `BadToken` is quoted with its escaped text between both trivia arguments |
| `Quoting.IdentifierRoundTrip` | src/Quoter/Quoter.cs:394-429 | a present identifier is `Identifier(text)`, and its literal parses back to the identifier's text |
| `Quoting.LiteralArguments` | src/Quoter/Quoter.cs:459-501 | `Literal(...)` repeats the raw text exactly when trivia is present or a string literal is not canonical; the value argument always comes just before the trailing trivia |
| `Quoting.LiteralTokenCall` | src/Quoter/Quoter.cs:459-468 | a literal token that is not an identifier, interpolated text or XML text takes the `Literal(...)` branch |
| `Quoting.LiteralCallArguments` | src/Quoter/Quoter.cs:469-501 | the `Literal(...)` arguments: paired trivia around an optional raw text and the value |
| `Quoting.StructuralProperties` | src/Quoter/Quoter.cs:217-219 | exactly the properties that are neither on the non-structural deny-list nor obsolete |
| `Quoting.QuoteElements` | src/Quoter/Quoter.cs:340-342 | the elements of a list are quoted one by one, without a name |
| `Quoting.QuotePropertyValue` | src/Quoter/Quoter.cs:253-293 | the result is named after the property; a node, string or bool value always quotes to something; any other value gives null |
| `Quoting.QuoteProperties` | src/Quoter/Quoter.cs:217-221 | the properties are quoted one by one, in reflection order |
| `Quoting.QuotePropertyValues` | src/Quoter/Quoter.cs:210-247 | at most one value per property, plus the artificial `Kind` value |
| `Quoting.StructuralValuesQuoted` | src/Quoter/Quoter.cs:210-232 | every structural property whose value quotes to something contributes that value |
| `Quoting.PropertyValuesNamed` | src/Quoter/Quoter.cs:210-247 | every value is named after a structural property, except the `Kind` value; that value is present, and last, exactly for the kind-bearing node types |
| `Quoting.HiddenPropertiesIgnored` | src/Quoter/Quoter.cs:216-219 | adding an obsolete or non-structural property changes nothing |
| `Quoting.StructuralAppendHidden` | src/Quoter/Quoter.cs:217-219 | the filter drops a hidden property appended at the end |
| `Registry.Included` | src/Quoter/Quoter.cs:979-982 | exactly the methods that are not obsolete and whose signature contains no excluded fragment |
| `Registry.LexLeReflexive` | src/Quoter/Quoter.cs:984 | the ordinal string order is reflexive |
| `Registry.LexLeTotal` | src/Quoter/Quoter.cs:984 | the ordinal string order is total |
| `Registry.LexLeTransitive` | src/Quoter/Quoter.cs:984 | the ordinal string order is transitive |
| `Registry.Insert` | src/Quoter/Quoter.cs:984 | insertion keeps a sorted list sorted and adds exactly one copy |
| `Registry.InsertFrontSorted` | src/Quoter/Quoter.cs:984 | inserting in front of a larger head keeps sortedness |
| `Registry.InsertBehindSorted` | src/Quoter/Quoter.cs:984 | inserting behind a smaller head keeps sortedness |
| `Registry.SortBySignature` | src/Quoter/Quoter.cs:984 | `OrderBy(m => m.ToString())` gives a permutation sorted by signature |
| `Registry.WithSignature` | src/Quoter/Quoter.cs:984 | exactly the methods with that signature, in list order |
| `Registry.InsertWithSignature` | src/Quoter/Quoter.cs:984 | inserting a method puts it in front of the methods with an equal signature and keeps their order |
| `Registry.WithSignatureCons` | src/Quoter/Quoter.cs:984 | filtering by signature looks at the head and then the rest |
| `Registry.SortBySignatureStable` | src/Quoter/Quoter.cs:984 | the sort is stable: methods with equal signatures keep their original order |
| `Registry.OfReturnType` | src/Quoter/Quoter.cs:986-995 | exactly the methods with that return-type name |
| `Registry.OfReturnTypeCount` | src/Quoter/Quoter.cs:986-995 | the filter keeps each method's multiplicity when its return type matches, and removes it otherwise |
| `Registry.OfReturnTypeSorted` | src/Quoter/Quoter.cs:984-995 | the filter keeps signature order |
| `Registry.NoBucketEmpty` | src/Quoter/Quoter.cs:989-993 | a return type with no method has no bucket contents |
| `Registry.ReturnTypesSnoc` | src/Quoter/Quoter.cs:986-995 | appending a method adds exactly its return-type name to the set of keys |
| `Registry.BucketStep` | src/Quoter/Quoter.cs:986-995 | one iteration (create the bucket if missing, then append) extends the bucketing by one method |
| `Registry.BucketingKeys` | src/Quoter/Quoter.cs:975-999 | the keys are exactly the return-type names of included methods |
| `Registry.FillBuckets` | src/Quoter/Quoter.cs:984-996 | the loop leaves each key's bucket holding its methods in list order |
| `Registry.GetFactoryMethods` | src/Quoter/Quoter.cs:975-999 | one key per return-type name of an included method, and each bucket is that type's methods in signature order |
| `Registry.BucketsSortedPermutations` | src/Quoter/Quoter.cs:975-999 | each bucket is sorted by signature and is a permutation of the included methods of that type |
| `Registry.KeyOrder` | src/Quoter/Quoter.cs:938-942 | the keys of the return-type table, each return-type name of the methods listed |
| `Registry.BucketsOf` | src/Quoter/Quoter.cs:938-940 | `Values.SelectMany`: exactly the methods whose return-type name is among the keys |
| `Registry.AllBucketed` | src/Quoter/Quoter.cs:938-940 | all methods of the return-type table are exactly the included methods |
| `Registry.Named` | src/Quoter/Quoter.cs:941 | exactly the methods with that name |
| `Registry.FactoryMethodsByName` | src/Quoter/Quoter.cs:938-942 | one key per name of an included method, whose group is exactly the included methods of that name |
| `Registry.WithoutSignature` | src/Quoter/Quoter.cs:1029 | exactly the candidates whose signature differs |
| `Registry.WithoutSignatureAppend` | src/Quoter/Quoter.cs:1029 | the `Where` filter distributes over concatenation, so it keeps the candidates' order |
| `Registry.CandidatesFor` | src/Quoter/Quoter.cs:1024-1031 | a using directive without alias drops exactly the alias overload; every other node keeps the bucket unchanged |
| `Registry.MinParameterCount` | src/Quoter/Quoter.cs:1033 | the fewest parameters of any candidate, reached by one of them |
| `Registry.FirstStringFirst` | src/Quoter/Quoter.cs:1053-1054 | the found overload takes a string first; a parameterless candidate reached first throws IndexOutOfRange |
| `Registry.WithParameterCount` | src/Quoter/Quoter.cs:1061 | exactly the candidates with that many parameters |
| `Registry.FirstParamArrayFirst` | src/Quoter/Quoter.cs:1066 | found exactly when some candidate has a params first parameter; it is the first such candidate |
| `Registry.FirstOptionalFirst` | src/Quoter/Quoter.cs:1073 | found exactly when some candidate has an optional first parameter; it is the first such candidate |
| `Registry.PickByParameterCount` | src/Quoter/Quoter.cs:1061-1083 | the pick has the chosen parameter count, and fails exactly when no candidate has it; among several one-parameter candidates a params overload, else an optional one, is taken when there is one |
| `Registry.PickAmong` | src/Quoter/Quoter.cs:1024-1083 | the pick is a candidate; failures are `Min` over nothing or an index past the end |
| `Registry.PickFactoryMethodToCreateNode` | src/Quoter/Quoter.cs:1006-1084 | NotSupported naming the type exactly when no bucket exists; the result is from the bucket; a sole candidate is returned |
| `Registry.PickHasMinimalArity` | src/Quoter/Quoter.cs:1033-1083 | outside the literal and string-first cases, the pick has the fewest parameters of all candidates |
| `Registry.PickedHasMinimalCount` | src/Quoter/Quoter.cs:1033-1083 | the pick succeeds, with the minimal parameter count |
| `Registry.PickAmongMinimal` | src/Quoter/Quoter.cs:1033-1083 | among several candidates, outside the special cases, the deliberation succeeds with the fewest parameters any candidate has |
| `Registry.MinimalCountBelowAll` | src/Quoter/Quoter.cs:1033 | no candidate has fewer parameters than the minimum |
| `Registry.NoneWithParameterCount` | src/Quoter/Quoter.cs:1061 | the filter is empty when no candidate has the count |
| `Registry.LiteralPicksTwoParameters` | src/Quoter/Quoter.cs:1035-1081 | a literal other than true/false/null gets a two-parameter overload, and IndexOutOfRange exactly when there is none |
| `Registry.ParamArrayOverloadPreferred` | src/Quoter/Quoter.cs:1063-1070 | with several one-parameter overloads, the first params-array overload wins |
| `Registry.OptionalOverloadPreferred` | src/Quoter/Quoter.cs:1063-1077 | with several one-parameter overloads and no params overload, the first overload with an optional parameter wins |
| `Registry.StringOverloadPreferred` | src/Quoter/Quoter.cs:1050-1059 | for a type declaration or identifier name, the first overload taking a string first wins |
| `Registry.FirstStringFirstAt` | src/Quoter/Quoter.cs:1054 | `FirstOrDefault` returns the first candidate that takes a string first |
| `Binding.FindValue` | src/Quoter/Quoter.cs:903-907 | the first value whose name equals the parameter name ignoring case, and none exactly when no value matches |
| `Binding.FindNamedExactly` | src/Quoter/Quoter.cs:677 | the first value named exactly so, and none exactly when there is no such value |
| `Binding.RemoveAt` | src/Quoter/Quoter.cs:667-718 | removing a value from the pool takes out exactly that value |
| `Binding.PrintableTypeName` | src/Quoter/Quoter.cs:1754-1767 | a non-generic type prints as its name; the only failure is ArgumentOutOfRange |
| `Binding.PrintableGenericName` | src/Quoter/Quoter.cs:1754-1767 | a generic `Name`N` prints as `Name<A, B>`, the argument names joined by ", " |
| `Binding.PrintableArgumentsJoined` | src/Quoter/Quoter.cs:1764 | the generic arguments print as their names joined by ", " |
| `Binding.PrintableTypeNameDefined` | src/Quoter/Quoter.cs:1754-1767 | a well-formed type always has a printable name; a generic name without a backtick throws ArgumentOutOfRange |
| `Binding.PrintableTypeArgumentsDefined` | src/Quoter/Quoter.cs:1764 | the generic arguments of a well-formed type all have printable names |
| `Binding.AfterNothing` | src/Quoter/Quoter.cs:644-746 | prefixing nothing changes no binding outcome |
| `Binding.AfterAfter` | src/Quoter/Quoter.cs:644-746 | prefixing twice is prefixing the concatenation |
| `Binding.AddFactoryMethodArguments` | src/Quoter/Quoter.cs:639-747 | the call gains exactly what `BindFrom` appends, the pool is what it leaves, and an error is the one it throws |
| `Binding.AddArguments` | src/Quoter/Quoter.cs:662-665 | `AddArgument` for each value in order |
| `Binding.FirstMatchConsumed` | src/Quoter/Quoter.cs:649-719 | a plain parameter takes the first case-insensitive match, and that value leaves the pool |
| `Binding.UnmatchedParameter` | src/Quoter/Quoter.cs:720-745 | an unmatched parameter gets nothing if optional or an array, `null` for a reference type, and `default(T)` for a value type |
| `Binding.NameWithoutIdentifierThrows` | src/Quoter/Quoter.cs:675-681 | a `string name` parameter with no `Identifier` value throws NotImplementedException |
| `Binding.StepConsumesOnlyEmitted` | src/Quoter/Quoter.cs:653-719 | a step either leaves the pool alone or removes one value it emitted: directly, unwrapped from `Identifier(x)`, or flattened from a list |
| `Binding.FlattenedEmits` | src/Quoter/Quoter.cs:653-668 | the flattened list elements are the items of the list's single array-creation argument |
| `Binding.NameConsumesOnlyEmitted` | src/Quoter/Quoter.cs:673-698 | a `string name` parameter leaves the pool alone or removes the `Identifier` value whose argument (or itself) it added |
| `Binding.IdentifierConsumesOnlyEmitted` | src/Quoter/Quoter.cs:700-713 | a `string identifier` parameter leaves the pool alone or removes the found value whose argument it added |
| `Binding.PlainConsumesOnlyEmitted` | src/Quoter/Quoter.cs:715-745 | a plain parameter leaves the pool alone or removes the found value, which it added |
| `Binding.BindingShrinksPool` | src/Quoter/Quoter.cs:644-746 | binding never adds to the pool and removes at most one value per parameter |
| `Binding.ProperCase` | src/Quoter/Quoter.cs:1749-1752 | an empty name throws IndexOutOfRange; otherwise the first letter is upper-cased and the rest kept |
| `Binding.ToUpperIdempotent` | src/Quoter/Quoter.cs:1751 | upper-casing twice is upper-casing once |
| `Binding.ProperCaseProperties` | src/Quoter/Quoter.cs:1749-1752 | the result equals the name ignoring case, and proper-casing is idempotent |
| `Binding.ModifyingCall` | src/Quoter/Quoter.cs:1098-1113 | the call is a method call whose only argument is the value |
| `Binding.AddModifyingCall` | src/Quoter/Quoter.cs:1119-1135 | the call tree becomes `Extend`: the call is appended, or (with elimination on and equal renderings) the chain is left as it was |
| `Binding.AddModifyingCalls` | src/Quoter/Quoter.cs:1090-1117 | the call tree becomes `ModifiedFrom`, and an exception is the first one thrown |
| `Binding.NoEliminationAppendsAll` | src/Quoter/Quoter.cs:1090-1135 | with elimination off, every leftover value's `.WithX` call is appended, in pool order |
| `Binding.EliminationKeepsPrefix` | src/Quoter/Quoter.cs:1090-1135 | name, factory call and brace style never change; the chain keeps its prefix and grows by at most one call per value |
| `Binding.MissingWithMethodThrows` | src/Quoter/Quoter.cs:1098-1107 | a value whose `WithX` method does not exist throws NotSupportedException |
| `Binding.QuoteNode` | src/Quoter/Quoter.cs:181-203 | a fresh ApiCall whose value is `QuotedNode`, or the exception it throws |
| `Binding.Quote` | src/Quoter/Quoter.cs:135-144 | the root's value is `QuotedRoot` |
| `Binding.QuoteSource` | src/Quoter/Quoter.cs:94-103 | a parse that gives nothing yields the name-only parse-error ApiCall; otherwise the result is `Quote` of the node |
| `Binding.QuotedRootShape` | src/Quoter/Quoter.cs:135-203 | the root is nameless and carries the bound factory call; with default formatting its chain ends in `.NormalizeWhitespace()` |
| `Interpreter.MethodName` | src/Quoter/Quoter.cs:1246-1254 | drops the `SyntaxFactory.` qualifier or the leading `.`, and otherwise keeps the name |
| `Interpreter.QuotedNamesResolve` | src/Quoter/Quoter.cs:295-1254 | the names the quoter prints, qualified or not, resolve to the method they were printed for |
| `Interpreter.TryGetGenericArgument` | src/Quoter/Quoter.cs:1328-1340 | a split name is rebuilt as `M<T>` with a non-empty `M`; an unsplit one is unchanged |
| `Interpreter.GenericArgumentRoundTrip` | src/Quoter/Quoter.cs:1328-1340 | every `M<T>` without nested angle brackets splits back into M and T |
| `Interpreter.NotGenericWithoutClosingAngle` | src/Quoter/Quoter.cs:1332 | a name not ending in `>` is not split |
| `Interpreter.InterpretMemberCall` | src/Quoter/Quoter.cs:1213-1242 | a member access reads as a trivia property, a known SyntaxKind or a boolean |
| `Interpreter.KindMemberRoundTrip` | src/Quoter/Quoter.cs:243-1230 | the `SyntaxKind.<k>` value the quoter adds reads back as that kind |
| `Interpreter.TriviaMemberRoundTrip` | src/Quoter/Quoter.cs:591-1224 | a ready-made trivia property, qualified or not, reads back as that property |
| `Interpreter.TrimLeading` | src/Quoter/Quoter.cs:1536 | strips exactly the leading run of the given characters |
| `Interpreter.TrimTrailing` | src/Quoter/Quoter.cs:1536 | strips exactly the trailing run of the given characters |
| `Interpreter.ParseInt32` | src/Quoter/Quoter.cs:1536 | a parsed value is within the 32-bit range |
| `Interpreter.DecimalDigits` | src/Quoter/Quoter.cs:1536 | the text of a number is a non-empty run of digits |
| `Interpreter.DigitsRoundTrip` | src/Quoter/Quoter.cs:1536 | the digits of `n` have value `n` |
| `Interpreter.ParseInt32RoundTrip` | src/Quoter/Quoter.cs:1536-1539 | every 32-bit integer parses back from its own text |
| `Interpreter.NestedArgument` | src/Quoter/Quoter.cs:1474-1528 | a null node never matches; a non-array node is passed as itself |
| `Interpreter.LiteralArgument` | src/Quoter/Quoter.cs:1530-1559 | a match has the parameter's type: a string is parsed as a literal, an int by `int.TryParse`, a char from between single quotes, a bool only from `true`/`false`; only the string parse can throw |
| `Interpreter.StringArgumentRoundTrip` | src/Quoter/Quoter.cs:1532-1535 | a string parameter reads back exactly the string the quoter escaped and quoted |
| `Interpreter.Int32ArgumentRoundTrip` | src/Quoter/Quoter.cs:1536-1539 | an int parameter reads back a printed 32-bit integer |
| `Interpreter.CharArgumentRoundTrip` | src/Quoter/Quoter.cs:1544-1547 | a char parameter reads back the character between single quotes |
| `Interpreter.CharLiteralOfQuoted` | src/Quoter/Quoter.cs:1544 | the text between the quotes is that character |
| `Interpreter.BooleanArgument` | src/Quoter/Quoter.cs:1548-1558 | a bool parameter matches exactly `true` and `false` |
| `Interpreter.ParamArrayElement` | src/Quoter/Quoter.cs:1363-1369 | present exactly when the last parameter is a params array |
| `Interpreter.RequiredFrom` | src/Quoter/Quoter.cs:1357-1361 | the required count never exceeds the parameter count |
| `Interpreter.RequiredFromStops` | src/Quoter/Quoter.cs:1357-1361 | every parameter past the required count is optional and has no argument, and the loop stops at the first that is required or has an argument |
| `Interpreter.PackFrom` | src/Quoter/Quoter.cs:1396-1408 | a completed packing holds one value per trailing argument |
| `Interpreter.PackFromContents` | src/Quoter/Quoter.cs:1396-1408 | a completed packing keeps what was packed before and adds, in order, what `GetArgument` made of each trailing argument at the element type |
| `Interpreter.PackFromStops` | src/Quoter/Quoter.cs:1399-1404 | an abandoned packing met a trailing argument that does not match the element type |
| `Interpreter.PackParamArray` | src/Quoter/Quoter.cs:1396-1408 | the inner loop computes `PackFrom` |
| `Interpreter.BuildArguments` | src/Quoter/Quoter.cs:1389-1437 | the loop over a candidate's parameters computes `BuildFrom` |
| `Interpreter.BuildFromDefault` | src/Quoter/Quoter.cs:1423-1428 | a parameter past the last argument takes its default value and the loop goes on |
| `Interpreter.BuildFromArgument` | src/Quoter/Quoter.cs:1430-1436 | a parameter with an argument takes `GetArgument`'s value, stops the loop when it does not match, and passes its error on |
| `Interpreter.TryCandidateMethod` | src/Quoter/Quoter.cs:1350-1442 | one candidate's iteration computes `TryCandidate` |
| `Interpreter.PickCandidateMethod` | src/Quoter/Quoter.cs:1342-1446 | the loop as written computes `PickAsWritten`, with the params state carried over between candidates |
| `Interpreter.PickCandidateMethodCorrected` | src/Quoter/Quoter.cs:1342-1446 | the loop with the params state reset per candidate computes `PickCorrected` |
| `Interpreter.AllFitSnoc` | src/Quoter/Quoter.cs:1389-1437 | one more fitting value extends a fitting prefix |
| `Interpreter.BuildFromFits` | src/Quoter/Quoter.cs:1389-1441 | with the candidate's own params state, every value built fits its parameter, and an early return has one value per parameter; at a final params parameter the value is the array of what `GetArgument` made of each trailing argument, empty when only count-1 arguments are given |
| `Interpreter.PickCorrectedFits` | src/Quoter/Quoter.cs:1342-1446 | a corrected pick is an (instantiated) candidate called with exactly one fitting value per parameter: the default past the last argument, `GetArgument`'s value of the argument at that position, or at a final params parameter the array packed from the trailing arguments |
| `Interpreter.ParseFive` | src/Quoter/Quoter.cs:1536 | `"5"` parses as 5 |
| `Interpreter.QuotedTextIsNotInt32` | src/Quoter/Quoter.cs:1536 | `"a"` in quotes is not an int |
| `Interpreter.QuotedTextParses` | src/Quoter/Quoter.cs:1532-1535 | `"a"` in quotes is the string `a` |
| `Interpreter.GetArgument` | src/Quoter/Quoter.cs:1472-1565 | a member call never matches; a SyntaxKind matches exactly when assignable to the parameter; only a nested call or a literal can fail, and a nested call's failure is passed on |
| `Interpreter.PairArgumentFacts` | src/Quoter/Quoter.cs:1530-1559 | how `GetArgument` sees the two sample arguments at string, int and int[] |
| `Interpreter.ParamsOverloadRejected` | src/Quoter/Quoter.cs:1392-1437 | `M(params int[])` rejects the sample call |
| `Interpreter.PairOverloadAdmitted` | src/Quoter/Quoter.cs:1371-1387 | `M(string, int)` passes the arity test |
| `Interpreter.PairLastWithStaleParamArray` | src/Quoter/Quoter.cs:1392-1414 | with stale params state, `5` is packed into an `int[]` at the int parameter |
| `Interpreter.PairFirst` | src/Quoter/Quoter.cs:1430-1436 | the first sample argument binds to the string parameter as `a` |
| `Interpreter.PairOverloadWithStaleParamArray` | src/Quoter/Quoter.cs:1348-1442 | `M(string, int)` with stale params state returns `("a", int[]{5})` |
| `Interpreter.PairLast` | src/Quoter/Quoter.cs:1430-1441 | with its own params state, `5` binds as an int |
| `Interpreter.PairOverloadBinds` | src/Quoter/Quoter.cs:1348-1442 | `M(string, int)` on its own terms binds `("a", 5)` |
| `Interpreter.StickyParamArrayMisbinds` | src/Quoter/Quoter.cs:1345-1369 | as written, the call binds `M(string, int)` to `("a", int[]{5})`, and that value does not fit the int parameter |
| `Interpreter.ResetParamArrayBinds` | src/Quoter/Quoter.cs:1342-1446 | with the reset, the same call binds `M(string, int)` to `("a", 5)` |
| `Interpreter.StaticCandidatesIncluded` | src/Quoter/Quoter.cs:1296-1312 | with the by-name table derived from the factory methods, the static candidates for a name are exactly the included methods of that name |
| `Interpreter.InterpretElements` | src/Quoter/Quoter.cs:1256-1263 | an array creation interprets to one value per element |
| `Interpreter.InterpretMethodCall` | src/Quoter/Quoter.cs:1244-1294 | the method computes `InterpretedMethodCall`: array creation, `NormalizeWhitespace` on a compilation unit, or find, pick and invoke an overload |
| `Interpreter.InvokeOverload` | src/Quoter/Quoter.cs:1270-1293 | it computes `InvokedOverload`: generic split, candidates, "Can't find factory method" when there are none |
| `Interpreter.InvokePick` | src/Quoter/Quoter.cs:1281-1288 | it computes `InvokedPick`: "Can't pick a method to call" when nothing fits, else invoke |
| `Interpreter.InterpretInstanceCalls` | src/Quoter/Quoter.cs:1198-1211 | it computes `InterpretedInstanceCalls`: a null node or an empty chain is returned unchanged; otherwise each call is applied in turn |
| `Interpreter.InterpretApiCall` | src/Quoter/Quoter.cs:1182-1196 | it computes `InterpretedApiCall`: the factory call then its chain, a member access, or "Unexpected" |
| `Interpreter.QuotedKindInterprets` | src/Quoter/Quoter.cs:243-1230 | the `Kind` value of a kind-bearing node interprets to that SyntaxKind |
| `Interpreter.QuotedPresetTriviaInterprets` | src/Quoter/Quoter.cs:591-1224 | a ready-made trivia, as quoted, interprets to that trivia property |
| `Interpreter.NormalizeWhitespaceInterprets` | src/Quoter/Quoter.cs:140-1268 | the `.NormalizeWhitespace` call the quoter appends normalizes a compilation unit |
| `Interpreter.NormalizeWhitespaceName` | src/Quoter/Quoter.cs:1251-1263 | `.NormalizeWhitespace` resolves to `NormalizeWhitespace`, which is not an array creation |
| `Interpreter.NameOnlyDoesNotInterpret` | src/Quoter/Quoter.cs:1182-1196 | a bare name, such as the parse-error message, fails with "Unexpected" |
| `Interpreter.UnknownFactoryMethod` | src/Quoter/Quoter.cs:1278-1312 | a name with no factory method fails with "Can't find factory method for" that name |
| `Interpreter.InvokedWithFittingArguments` | src/Quoter/Quoter.cs:1278-1446 | a factory is invoked with one fitting value per parameter, a params parameter getting the trailing arguments packed in order |

## Left out

- Reflection is replaced by descriptors: `GetProperties`, `GetMethods`, custom attributes, `MethodInfo.Invoke`, `MakeGenericMethod`, `IsAssignableFrom`, `GetType(string)` and `Enum.Parse`. The interpreter reaches them through the fields of `Host`, which are taken as given. `Host.instantiate` returns nothing both for a candidate that is not a generic definition and for one that `MakeGenericMethod` (src/Quoter/Quoter.cs:1351-1354) cannot instantiate. The source throws ArgumentException on a constraint violation; `Interpreter.Instantiated` then keeps the candidate unchanged. The quoter never prints a generic argument that violates a constraint.
- Recursion through child nodes: a property holding a child node or list element carries the call tree its own quoting produced. Likewise, `GetArgument` interprets a nested ApiCall through `Host.interpret`, which stands for `InterpretApiCall`. The model proves one level of each recursion, taking the inner level as given.
- The Roslyn parser (`Parse`), `ToFullString` and `NormalizeWhitespace` are foreign calls. `QuoteSource` takes the parse result as a parameter. `Evaluate` is the rendering oracle `render`.
- `SyntaxFactory.Literal(valueText).ToString()` in `QuoteToken` is a field of the token descriptor (`canonicalLiteralText`).
- `double.TryParse` is floating point. The host's `parsesAsDouble` decides it, and the value is kept as its text.
- `Environment.NewLine` and `AppendLine` are platform-dependent. They are the parameter `nl`.
- `Array.CreateInstance`, `CreateArrayOfType` and the `SyntaxNodeOrToken` conversions in `GetArgument` are not modelled. An array value records its element type and its elements. `Interpreter.NestedArgument` relabels an interpreted array with the parameter's element type and accepts any elements. In the source, `Array.SetValue` (src/Quoter/Quoter.cs:1497-1518) throws InvalidCastException for an element outside the element type, and that exception escapes the whole pick instead of moving on to the next candidate. The model drops this exception.
- `GetText`, `QuoteText`, the commented-out scripting path, the hosts, the UI and the tests are not part of this model.
- `Interpreter.InterpretMethodCall`: picks with `PickCandidateMethodCorrected`, not with the sticky `paramArray` variable as written. See the finding below; the as-written loop is `Interpreter.PickCandidateMethod`.
- `Interpreter.GetArgument`: a `MemberCall` argument never matches. The quoter does emit one: `AddFactoryMethodArguments` (src/Quoter/Quoter.cs:735-742) passes a `default(T)` MethodCall for a missing value-type argument. Its parameter type is a value type, so the final `IsAssignableFrom` test (src/Quoter/Quoter.cs:1559-1562) never accepts the MethodCall, and the model returns no value for it.
- `Interpreter.IsParamArray`: the params attribute is taken to sit only on array-typed parameters, as C# requires.
- `Text.ToUpperInvariant`, `Text.EqualsIgnoreCase`: these cover ASCII case only, and no culture or Unicode case mapping beyond it. (`Text.IsWhiteSpace` is the full Unicode White_Space set that `char.IsWhiteSpace` tests, and is not limited in this way.)
- `Registry.SortBySignature`: `OrderBy` uses the culture-sensitive `Comparer<string>.Default`; the model sorts by ordinal (code-unit) order. The two orders can differ on punctuation and case, so the order of methods inside a bucket is modelled, not reproduced.
- `Registry.LexLeTotal`, `Registry.LexLeTransitive`, `Registry.LexLeReflexive`: state the properties of the ordinal order used in place of the culture-sensitive comparer.
- `Text.StartsWith`, `Text.EndsWith`: culture-sensitive in the source (used in `ParseStringLiteral`, `QuoteList`'s method names and `InterpretMethodCall`); modelled as ordinal prefix and suffix tests. The two differ on text that begins or ends with a character the culture comparison ignores (a soft hyphen U+00AD or a zero-width space U+200B, say): for `\u00AD@"a"` the source's `StartsWith("@")` holds and the model's does not. The quoter's own output (escaped literals, printed method and type names) never has such a character at either end.
- `Interpreter.Host`: `factoryMethodsByName` is a field of the host. `Interpreter.DerivesFactoryTable` states how it is derived from `GetFactoryMethods`, but the interpretation functions do not require it. `Registry.FactoryMethodsByName` fixes each group's order, but only its membership is proved.
- `Interpreter.InvokePick`, `Interpreter.InvokedWithFittingArguments`, `Interpreter.InvokeOverload`: these use the corrected pick (`PickCandidateMethodCorrected`), not the as-written loop that src/Quoter/Quoter.cs:1281 calls.

## Findings

| source | as written | input that shows it | evidently intended | confidence | as-written member | corrected member |
|---|---|---|---|---|---|---|
| src/Quoter/Quoter.cs:1345-1369 | `paramArray` and `paramArrayType` are declared outside the candidate loop and are only ever set, so a params array seen on one candidate stays in force for every later candidate | candidates `M(params int[])` then `M(string, int)`, arguments `"a"` and `5`: the first rejects, and the second is then called with `("a", int[]{5})`, which does not fit its `int` parameter | the params state is that of the candidate being tried, giving `M(string, int)` with `("a", 5)` | not executed | `Interpreter.PickCandidateMethod`, `Interpreter.StickyParamArrayMisbinds` | `Interpreter.PickCandidateMethodCorrected`, `Interpreter.ResetParamArrayBinds`, `Interpreter.PickCorrectedFits`, `Interpreter.InvokePick`, `Interpreter.InvokedWithFittingArguments` |
