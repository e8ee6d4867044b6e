/**
 * The printer: turns a call tree into C# source text that builds the same
 * syntax tree.
 *
 * Render* are the specification: four spaces of indentation per nesting depth,
 * a lone string or SyntaxKind argument printed inline, every other non-empty
 * argument list printed one argument per line separated by "," and a line
 * break, and each instance call on a line of its own. The Printer class
 * appends to its buffer exactly what the specification says.
 */
module Printing {
  import opened Wrappers
  import opened Text
  import opened CallModel

  /** The line break (Environment.NewLine) and the two parenthesis options. */
  datatype Layout = Layout(nl: string, openParenthesisOnNewLine: bool, closingParenthesisOnNewLine: bool)

  /** new string(' ', count). */
  function Spaces(count: nat): string {
    if count == 0 then "" else " " + Spaces(count - 1)
  }

  /** PrintIndent: four spaces per level, nothing for a non-positive level. */
  function Indentation(indent: int): string {
    if indent > 0 then Spaces(4 * indent) else ""
  }

  lemma {:induction false} SpacesShape(count: nat)
    ensures |Spaces(count)| == count
    ensures forall i :: 0 <= i < count ==> Spaces(count)[i] == ' '
  {
    if count > 0 {
      SpacesShape(count - 1);
    }
  }

  /** An indentation is 4 spaces per level and empty at level 0 or below. */
  lemma IndentationShape(indent: int)
    ensures indent <= 0 ==> Indentation(indent) == ""
    ensures indent > 0 ==> |Indentation(indent)| == 4 * indent
    ensures forall i :: 0 <= i < |Indentation(indent)| ==> Indentation(indent)[i] == ' '
  {
    if indent > 0 {
      SpacesShape(4 * indent);
    }
  }

  /** Print(string, sb, indent). */
  function Line(line: string, indent: int): string {
    Indentation(indent) + line
  }

  function OpenParen(useCurlies: bool): string { if useCurlies then "{" else "(" }
  function CloseParen(useCurlies: bool): string { if useCurlies then "}" else ")" }

  /** A lone string or SyntaxKind argument stays on the call's line. */
  predicate IsInline(arguments: seq<Arg>) {
    |arguments| == 1 && (arguments[0].Literal? || arguments[0].KindArg?)
  }

  /** Print(ApiCall, ...): the factory call and then each instance call on its own line. */
  function RenderCall(codeBlock: CallTree, depth: int, layout: Layout): (r: string)
    decreases codeBlock, 1, 0
  {
    match codeBlock.factory
    case None => Line(codeBlock.name.GetOr(""), 0)
    case Some(f) => RenderMember(f, depth, layout, codeBlock.useCurlies) + RenderChain(codeBlock, 0, depth, layout)
  }

  /** The instance calls of a call tree from position i on, each after a line break. */
  function RenderChain(codeBlock: CallTree, i: nat, depth: int, layout: Layout): string
    requires i <= |codeBlock.modifiers.Calls()|
    decreases codeBlock, 0, |codeBlock.modifiers.Calls()| - i
  {
    if i == |codeBlock.modifiers.Calls()| then ""
    else
      layout.nl + RenderMember(codeBlock.modifiers.Calls()[i], depth, layout, codeBlock.useCurlies)
        + RenderChain(codeBlock, i + 1, depth, layout)
  }

  /** Print(MemberCall, ...). */
  function RenderMember(call: Invocation, depth: int, layout: Layout, useCurlies: bool): (r: string)
    decreases call, 1, 0
  {
    var head := Line(call.name, depth);
    match call
    case MemberAccess(_) => head
    case MethodInvocation(_, arguments) =>
      if arguments.NoArguments? || arguments.items == [] then
        head + Line(OpenParen(useCurlies) + CloseParen(useCurlies), 0)
      else
        var needNewLine := !IsInline(arguments.items);
        head + RenderOpen(depth, needNewLine, layout, useCurlies)
          + RenderArgs(call, 0, depth, needNewLine, layout, useCurlies)
          + RenderClose(depth, needNewLine, layout, useCurlies)
  }

  /** The opening bracket of a non-empty argument list, and the line break before the first argument. */
  function RenderOpen(depth: int, needNewLine: bool, layout: Layout, useCurlies: bool): string {
    (if layout.openParenthesisOnNewLine && needNewLine
     then layout.nl + Line(OpenParen(useCurlies), depth)
     else Line(OpenParen(useCurlies), 0))
    + (if needNewLine then layout.nl else "")
  }

  /** The closing bracket of a non-empty argument list. */
  function RenderClose(depth: int, needNewLine: bool, layout: Layout, useCurlies: bool): string {
    if layout.closingParenthesisOnNewLine && needNewLine
    then layout.nl + Line(CloseParen(useCurlies), depth)
    else Line(CloseParen(useCurlies), 0)
  }

  /** The arguments of a method call from position i on, separated by "," and a line break. */
  function RenderArgs(call: Invocation, i: nat, depth: int, needNewLine: bool, layout: Layout,
                      useCurlies: bool): string
    requires call.MethodInvocation? && call.arguments.Arguments? && i <= |call.arguments.items|
    decreases call, 0, |call.arguments.items| - i
  {
    var args := call.arguments.items;
    if i == |args| then ""
    else
      Separator(i > 0, layout)
        + RenderArg(args[i], depth, needNewLine, layout, useCurlies)
        + RenderArgs(call, i + 1, depth, needNewLine, layout, useCurlies)
  }

  /** Four-part concatenation regrouped to the right, so that proofs over printed lines need not rediscover it. */
  lemma Regroup(a: string, b: string, c: string, d: string)
    ensures a + b + c + d == a + (b + c + d)
  {
  }

  /** The five-part form of `Regroup`. */
  lemma Regroup5(a: string, b: string, c: string, d: string, e: string)
    ensures a + b + c + d + e == a + (b + c + d + e)
  {
  }

  /** One unfolding of `RenderArgs`, stated separately so that callers need not unfold it themselves. */
  lemma RenderArgsStep(call: Invocation, i: nat, depth: int, needNewLine: bool, layout: Layout, useCurlies: bool)
    requires call.MethodInvocation? && call.arguments.Arguments? && i < |call.arguments.items|
    ensures RenderArgs(call, i, depth, needNewLine, layout, useCurlies)
            == Separator(i > 0, layout) + RenderArg(call.arguments.items[i], depth, needNewLine, layout, useCurlies)
               + RenderArgs(call, i + 1, depth, needNewLine, layout, useCurlies)
  {
  }

  /** The "," and line break printed before every argument but the first. */
  function Separator(needComma: bool, layout: Layout): string {
    if needComma then Line(",", 0) + layout.nl else ""
  }

  function RenderArg(block: Arg, depth: int, needNewLine: bool, layout: Layout, useCurlies: bool): string
    decreases block, 0, 0
  {
    match block
    case Literal(text) => Line(text, if needNewLine then depth + 1 else 0)
    case KindArg(kind) => Line("SyntaxKind." + kind, if needNewLine then depth + 1 else 0)
    case Nested(call) => RenderCall(call, depth + 1, layout)
    case MemberArg(member) => RenderMember(member, depth + 1, layout, useCurlies)
  }

  /** The StringBuilder the source's static Print overloads share. */
  class Printer {
    var text: string
    const layout: Layout

    constructor (layout: Layout)
      ensures text == "" && this.layout == layout
    {
      text := "";
      this.layout := layout;
    }

    method PrintIndent(indent: int)
      modifies this
      ensures text == old(text) + Indentation(indent)
    {
      if indent > 0 {
        text := text + Spaces(indent * 4);
      }
    }

    method PrintLine(line: string, indent: int)
      modifies this
      ensures text == old(text) + Line(line, indent)
    {
      PrintIndent(indent);
      text := text + line;
    }

    method PrintNewLine()
      modifies this
      ensures text == old(text) + layout.nl
    {
      text := text + layout.nl;
    }

    method PrintCall(codeBlock: CallTree, depth: int)
      modifies this
      decreases codeBlock, 1, 0
      ensures text == old(text) + RenderCall(codeBlock, depth, layout)
    {
      if codeBlock.factory.None? {
        PrintLine(codeBlock.name.GetOr(""), 0);
        return;
      }
      ghost var before := text;
      PrintMember(codeBlock.factory.value, depth, codeBlock.useCurlies);
      ghost var member := text[|before|..];
      PrintChain(codeBlock, depth);
      Regroup3(before, member, RenderChain(codeBlock, 0, depth, layout));
    }

    /** The foreach over an ApiCall's instance calls. */
    method PrintChain(codeBlock: CallTree, depth: int)
      modifies this
      decreases codeBlock, 0, 0
      ensures text == old(text) + RenderChain(codeBlock, 0, depth, layout)
    {
      if codeBlock.modifiers.NoChain? {
        return;
      }
      var calls := codeBlock.modifiers.calls;
      var i := 0;
      while i < |calls|
        invariant 0 <= i <= |calls|
        invariant text + RenderChain(codeBlock, i, depth, layout) == old(text) + RenderChain(codeBlock, 0, depth, layout)
      {
        Regroup(text, layout.nl, RenderMember(calls[i], depth, layout, codeBlock.useCurlies),
                RenderChain(codeBlock, i + 1, depth, layout));
        PrintNewLine();
        PrintMember(calls[i], depth, codeBlock.useCurlies);
        i := i + 1;
      }
    }

    method PrintMember(call: Invocation, depth: int, useCurlies: bool)
      modifies this
      decreases call, 1, 0
      ensures text == old(text) + RenderMember(call, depth, layout, useCurlies)
    {
      var openParen := OpenParen(useCurlies);
      var closeParen := CloseParen(useCurlies);
      ghost var before := text;
      PrintLine(call.name, depth);
      if call.MemberAccess? {
        return;
      }
      var arguments := call.arguments;
      if arguments.NoArguments? || arguments.items == [] {
        PrintLine(openParen + closeParen, 0);
        assert before + Line(call.name, depth) + Line(openParen + closeParen, 0)
               == before + (Line(call.name, depth) + Line(openParen + closeParen, 0));
        return;
      }
      var args := arguments.items;
      var needNewLine := true;
      if |args| == 1 && (args[0].Literal? || args[0].KindArg?) {
        needNewLine := false;
      }
      assert needNewLine == !IsInline(args);
      PrintOpen(depth, needNewLine, useCurlies);
      PrintArguments(call, depth, needNewLine, useCurlies);
      PrintClose(depth, needNewLine, useCurlies);
      Regroup5(before, Line(call.name, depth), RenderOpen(depth, needNewLine, layout, useCurlies),
               RenderArgs(call, 0, depth, needNewLine, layout, useCurlies),
               RenderClose(depth, needNewLine, layout, useCurlies));
    }

    method PrintOpen(depth: int, needNewLine: bool, useCurlies: bool)
      modifies this
      ensures text == old(text) + RenderOpen(depth, needNewLine, layout, useCurlies)
    {
      ghost var before := text;
      var open := OpenParen(useCurlies);
      ghost var head := if layout.openParenthesisOnNewLine && needNewLine
                        then layout.nl + Line(open, depth) else Line(open, 0);
      ghost var tail := if needNewLine then layout.nl else "";
      if layout.openParenthesisOnNewLine && needNewLine {
        PrintNewLine();
        PrintLine(open, depth);
        Regroup3(before, layout.nl, Line(open, depth));
      } else {
        PrintLine(open, 0);
      }
      assert text == before + head;
      if needNewLine {
        PrintNewLine();
      }
      assert text == before + head + tail;
      Regroup3(before, head, tail);
    }

    method PrintClose(depth: int, needNewLine: bool, useCurlies: bool)
      modifies this
      ensures text == old(text) + RenderClose(depth, needNewLine, layout, useCurlies)
    {
      if layout.closingParenthesisOnNewLine && needNewLine {
        PrintNewLine();
        PrintLine(CloseParen(useCurlies), depth);
      } else {
        PrintLine(CloseParen(useCurlies), 0);
      }
    }

    /** The foreach over a method call's arguments. */
    method PrintArguments(call: Invocation, depth: int, needNewLine: bool, useCurlies: bool)
      requires call.MethodInvocation? && call.arguments.Arguments?
      modifies this
      decreases call, 0, 1
      ensures text == old(text) + RenderArgs(call, 0, depth, needNewLine, layout, useCurlies)
    {
      var args := call.arguments.items;
      var i := 0;
      while i < |args|
        invariant 0 <= i <= |args|
        invariant text + RenderArgs(call, i, depth, needNewLine, layout, useCurlies)
                  == old(text) + RenderArgs(call, 0, depth, needNewLine, layout, useCurlies)
      {
        RenderArgsStep(call, i, depth, needNewLine, layout, useCurlies);
        Regroup(text, Separator(i > 0, layout), RenderArg(args[i], depth, needNewLine, layout, useCurlies),
                RenderArgs(call, i + 1, depth, needNewLine, layout, useCurlies));
        PrintSeparator(i > 0);
        PrintArgument(call, i, depth, needNewLine, useCurlies);
        i := i + 1;
      }
    }

    method PrintSeparator(needComma: bool)
      modifies this
      ensures text == old(text) + Separator(needComma, layout)
    {
      if needComma {
        PrintLine(",", 0);
        PrintNewLine();
      }
    }

    /** One argument, by its runtime type: a string, a SyntaxKind, an ApiCall or a MemberCall. */
    method PrintArgument(call: Invocation, i: nat, depth: int, needNewLine: bool, useCurlies: bool)
      requires call.MethodInvocation? && call.arguments.Arguments? && i < |call.arguments.items|
      modifies this
      decreases call, 0, 0
      ensures text == old(text) + RenderArg(call.arguments.items[i], depth, needNewLine, layout, useCurlies)
    {
      match call.arguments.items[i] {
        case Literal(s) => PrintLine(s, if needNewLine then depth + 1 else 0);
        case KindArg(k) => PrintLine("SyntaxKind." + k, if needNewLine then depth + 1 else 0);
        case Nested(c) => PrintCall(c, depth + 1);
        case MemberArg(m) => PrintMember(m, depth + 1, useCurlies);
      }
    }
  }

  /** Print(root): render the whole tree from depth 0 with the configured parenthesis options. */
  method Print(root: CallTree, nl: string, openParenthesisOnNewLine: bool, closingParenthesisOnNewLine: bool)
    returns (generatedCode: string)
    ensures generatedCode == RenderCall(root, 0, Layout(nl, openParenthesisOnNewLine, closingParenthesisOnNewLine))
  {
    var printer := new Printer(Layout(nl, openParenthesisOnNewLine, closingParenthesisOnNewLine));
    printer.PrintCall(root, 0);
    generatedCode := printer.text;
  }

  /** PrintWithDefaultFormatting: both parenthesis options off. */
  method PrintWithDefaultFormatting(root: CallTree, nl: string) returns (generatedCode: string)
    ensures generatedCode == RenderCall(root, 0, Layout(nl, false, false))
  {
    generatedCode := Print(root, nl, false, false);
  }

  // ---------------------------------------------------------------------------
  // Properties of the rendering
  // ---------------------------------------------------------------------------

  /** A call tree without a factory call prints as its bare name, never indented. */
  lemma NameOnlyPrintsName(codeBlock: CallTree, depth: int, layout: Layout)
    requires codeBlock.factory.None?
    ensures RenderCall(codeBlock, depth, layout) == codeBlock.name.GetOr("")
  {
  }

  /** A method call with no (or an empty) argument list prints "()" or "{}" right after its name. */
  lemma EmptyArgumentsPrintBrackets(name: string, arguments: ArgList, depth: int,
                                    layout: Layout, useCurlies: bool)
    requires arguments.Items() == []
    ensures RenderMember(MethodInvocation(name, arguments), depth, layout, useCurlies)
            == Indentation(depth) + name + (if useCurlies then "{}" else "()")
  {
  }

  /** A lone string argument stays on the call's line, whatever the parenthesis options say. */
  lemma SingleLiteralPrintsInline(name: string, text: string, depth: int, layout: Layout, useCurlies: bool)
    ensures RenderMember(MethodInvocation(name, Arguments([Literal(text)])), depth, layout, useCurlies)
            == Line(name, depth) + OpenParen(useCurlies) + text + CloseParen(useCurlies)
  {
    var call := MethodInvocation(name, Arguments([Literal(text)]));
    assert IsInline(call.arguments.items);
    assert RenderOpen(depth, false, layout, useCurlies) == OpenParen(useCurlies);
    assert RenderArgs(call, 1, depth, false, layout, useCurlies) == "";
    assert RenderArgs(call, 0, depth, false, layout, useCurlies) == text;
    assert RenderClose(depth, false, layout, useCurlies) == CloseParen(useCurlies);
  }

  /** A lone SyntaxKind argument prints inline as SyntaxKind.<name>. */
  lemma SingleKindPrintsInline(name: string, kind: string, depth: int, layout: Layout, useCurlies: bool)
    ensures RenderMember(MethodInvocation(name, Arguments([KindArg(kind)])), depth, layout, useCurlies)
            == Line(name, depth) + OpenParen(useCurlies) + ("SyntaxKind." + kind) + CloseParen(useCurlies)
  {
    var call := MethodInvocation(name, Arguments([KindArg(kind)]));
    assert IsInline(call.arguments.items);
    assert RenderOpen(depth, false, layout, useCurlies) == OpenParen(useCurlies);
    assert RenderArgs(call, 1, depth, false, layout, useCurlies) == "";
    assert RenderArgs(call, 0, depth, false, layout, useCurlies) == "SyntaxKind." + kind;
    assert RenderClose(depth, false, layout, useCurlies) == CloseParen(useCurlies);
  }

  /** Strings joined with a separator between consecutive elements. */
  function Join(parts: seq<string>, separator: string): string {
    if |parts| == 0 then ""
    else if |parts| == 1 then parts[0]
    else parts[0] + separator + Join(parts[1..], separator)
  }

  function Literals(texts: seq<string>): (r: seq<Arg>)
    ensures |r| == |texts|
    ensures forall i :: 0 <= i < |texts| ==> r[i] == Literal(texts[i])
  {
    if texts == [] then [] else [Literal(texts[0])] + Literals(texts[1..])
  }

  /** Each text on its own line at the given indentation. */
  function IndentedLines(texts: seq<string>, indent: int): (r: seq<string>)
    ensures |r| == |texts|
    ensures forall i :: 0 <= i < |texts| ==> r[i] == Indentation(indent) + texts[i]
  {
    if texts == [] then [] else [Indentation(indent) + texts[0]] + IndentedLines(texts[1..], indent)
  }

  lemma {:induction false} LiteralArgsAreJoinedLines(name: string, texts: seq<string>, i: nat, depth: int,
                                                      layout: Layout, useCurlies: bool)
    requires i <= |texts|
    ensures RenderArgs(MethodInvocation(name, Arguments(Literals(texts))), i, depth, true, layout, useCurlies)
            == (if 0 < i < |texts| then "," + layout.nl else "")
               + Join(IndentedLines(texts[i..], depth + 1), "," + layout.nl)
    decreases |texts| - i
  {
    if i < |texts| {
      var call := MethodInvocation(name, Arguments(Literals(texts)));
      var sep := "," + layout.nl;
      var lines := IndentedLines(texts[i..], depth + 1);
      LiteralArgsAreJoinedLines(name, texts, i + 1, depth, layout, useCurlies);
      assert texts[i..][1..] == texts[i + 1..];
      assert lines[1..] == IndentedLines(texts[i + 1..], depth + 1);
      RenderArgsStep(call, i, depth, true, layout, useCurlies);
      assert Line(",", 0) == ",";
      assert Separator(i > 0, layout) == (if 0 < i < |texts| then sep else "");
      assert RenderArg(call.arguments.items[i], depth, true, layout, useCurlies) == lines[0];
      var separator := Separator(i > 0, layout);
      if i + 1 < |texts| {
        var rest := Join(lines[1..], sep);
        assert RenderArgs(call, i + 1, depth, true, layout, useCurlies) == sep + rest;
        assert Join(lines, sep) == lines[0] + sep + rest;
        Regroup3(separator + lines[0], sep, rest);
        Regroup(separator, lines[0], sep, rest);
      } else {
        assert lines == [lines[0]];
        assert RenderArgs(call, i + 1, depth, true, layout, useCurlies) == "";
      }
    }
  }

  /**
   * Several string arguments print one per line, each indented one level deeper
   * than the call, separated by "," and a line break; with both parenthesis
   * options off the brackets stay at the ends of the first and last lines.
   */
  lemma LiteralArgumentsOnePerLine(name: string, texts: seq<string>, depth: int, nl: string, useCurlies: bool)
    requires |texts| >= 2
    ensures RenderMember(MethodInvocation(name, Arguments(Literals(texts))), depth, Layout(nl, false, false), useCurlies)
            == Line(name, depth) + (OpenParen(useCurlies) + nl)
               + Join(IndentedLines(texts, depth + 1), "," + nl) + CloseParen(useCurlies)
  {
    var layout := Layout(nl, false, false);
    var call := MethodInvocation(name, Arguments(Literals(texts)));
    var head := Line(name, depth);
    var open := RenderOpen(depth, true, layout, useCurlies);
    var args := RenderArgs(call, 0, depth, true, layout, useCurlies);
    var close := RenderClose(depth, true, layout, useCurlies);
    assert !IsInline(call.arguments.items);
    assert RenderMember(call, depth, layout, useCurlies) == head + open + args + close;
    assert Line(OpenParen(useCurlies), 0) == OpenParen(useCurlies);
    assert open == OpenParen(useCurlies) + nl;
    assert close == CloseParen(useCurlies);
    LiteralArgsAreJoinedLines(name, texts, 0, depth, layout, useCurlies);
    assert texts[0..] == texts;
    assert args == Join(IndentedLines(texts, depth + 1), "," + nl);
  }

  lemma {:induction false} ChainSnoc(codeBlock: CallTree, call: Invocation, i: nat, depth: int, layout: Layout)
    requires i <= |codeBlock.modifiers.Calls()|
    ensures RenderChain(codeBlock.(modifiers := Chain(codeBlock.modifiers.Calls() + [call])), i, depth, layout)
            == RenderChain(codeBlock, i, depth, layout) + (layout.nl + RenderMember(call, depth, layout, codeBlock.useCurlies))
    decreases |codeBlock.modifiers.Calls()| - i
  {
    var longer := codeBlock.(modifiers := Chain(codeBlock.modifiers.Calls() + [call]));
    var tail := layout.nl + RenderMember(call, depth, layout, codeBlock.useCurlies);
    if i < |codeBlock.modifiers.Calls()| {
      ChainSnoc(codeBlock, call, i + 1, depth, layout);
      var head := layout.nl + RenderMember(codeBlock.modifiers.Calls()[i], depth, layout, codeBlock.useCurlies);
      assert longer.modifiers.Calls()[i] == codeBlock.modifiers.Calls()[i];
      var rest := RenderChain(codeBlock, i + 1, depth, layout);
      assert RenderChain(longer, i, depth, layout) == head + (rest + tail);
      assert RenderChain(codeBlock, i, depth, layout) == head + rest;
      Regroup3(head, rest, tail);
    } else {
      assert longer.modifiers.Calls()[i] == call;
      assert RenderChain(longer, i + 1, depth, layout) == "";
    }
  }

  /**
   * Appending an instance call to a call tree appends exactly one line break
   * and that call, at the tree's own depth and brace style.
   */
  lemma AppendedModifierPrintsOnNewLine(codeBlock: CallTree, call: Invocation, depth: int, layout: Layout)
    requires codeBlock.factory.Some?
    ensures RenderCall(codeBlock.(modifiers := Chain(codeBlock.modifiers.Calls() + [call])), depth, layout)
            == RenderCall(codeBlock, depth, layout) + (layout.nl + RenderMember(call, depth, layout, codeBlock.useCurlies))
  {
    var factory := RenderMember(codeBlock.factory.value, depth, layout, codeBlock.useCurlies);
    ChainSnoc(codeBlock, call, 0, depth, layout);
    Regroup3(factory, RenderChain(codeBlock, 0, depth, layout),
             layout.nl + RenderMember(call, depth, layout, codeBlock.useCurlies));
  }

  /** A missing chain and an empty chain print the same. */
  lemma EmptyChainPrintsNothing(codeBlock: CallTree, depth: int, layout: Layout)
    ensures RenderCall(codeBlock.(modifiers := NoChain), depth, layout)
            == RenderCall(codeBlock.(modifiers := Chain([])), depth, layout)
  {
  }
}
