/**
 * The quoter's small C# string-literal codec: regular and verbatim escaping,
 * the inverse used by the interpreter, quoting, and the parse of a quoted
 * literal. Only \" \\ \n \t \r and doubled quotes are understood.
 *
 * `nl` is the platform's Environment.NewLine throughout; the generated code
 * spells it as the identifier text "Environment.NewLine".
 */
module StringLiterals {
  import opened Wrappers
  import opened Text

  /** The identifier text that stands for the platform newline in generated code. */
  const NewLineName: string := "Environment.NewLine"

  /** What one character of the input becomes inside "..." (regular) or @"..." (verbatim). */
  function EscapeChar(c: char, verbatim: bool): string {
    if c == '"' then (if verbatim then "\"\"" else "\\\"")
    else if c == '\\' && !verbatim then "\\\\"
    else [c]
  }

  /** The escaped form of a whole string: each character escaped in turn. */
  function Escaped(s: string, verbatim: bool): string
    decreases |s|
  {
    if s == [] then [] else EscapeChar(s[0], verbatim) + Escaped(s[1..], verbatim)
  }

  lemma {:induction false} EscapedSnoc(s: string, c: char, verbatim: bool)
    ensures Escaped(s + [c], verbatim) == Escaped(s, verbatim) + EscapeChar(c, verbatim)
    decreases |s|
  {
    if s == [] {
      assert s + [c] == [c];
    } else {
      assert (s + [c])[1..] == s[1..] + [c];
      EscapedSnoc(s[1..], c, verbatim);
    }
  }

  /** Escape: the StringBuilder loop, one appended chunk per input character. */
  method Escape(text: string, escapeVerbatim: bool) returns (r: string)
    ensures r == Escaped(text, escapeVerbatim)
  {
    var sb := "";
    var i := 0;
    while i < |text|
      invariant 0 <= i <= |text|
      invariant sb == Escaped(text[..i], escapeVerbatim)
    {
      var toAppend := [text[i]];
      if text[i] == '"' {
        if escapeVerbatim {
          toAppend := "\"\"";
        } else {
          toAppend := "\\\"";
        }
      } else if text[i] == '\\' && !escapeVerbatim {
        toAppend := "\\\\";
      }
      EscapedSnoc(text[..i], text[i], escapeVerbatim);
      assert text[..i + 1] == text[..i] + [text[i]];
      sb := sb + toAppend;
      i := i + 1;
    }
    assert text[..i] == text;
    r := sb;
  }

  /** The character a backslash followed by `c` stands for: \n, \t and \r; any other letter is itself. */
  function EscapeLetter(c: char): char {
    if c == 'n' then '\n' else if c == 't' then '\t' else if c == 'r' then '\r' else c
  }

  /**
   * The regular-literal unescape scan from the current position with the
   * `backslash` flag: a first backslash is swallowed, a second one is kept,
   * a letter after a backslash is decoded, a trailing lone backslash is lost.
   */
  function UnescapeScan(s: string, backslash: bool): string
    decreases |s|
  {
    if s == [] then []
    else if s[0] == '\\' then
      (if !backslash then UnescapeScan(s[1..], true) else "\\" + UnescapeScan(s[1..], false))
    else if backslash then [EscapeLetter(s[0])] + UnescapeScan(s[1..], false)
    else [s[0]] + UnescapeScan(s[1..], false)
  }

  /** What the scan emits for one character: nothing for a first backslash, the decoded letter after one. */
  function ScanStepOutput(c: char, backslash: bool): string {
    if c == '\\' then (if !backslash then "" else "\\")
    else if backslash then [EscapeLetter(c)]
    else [c]
  }

  lemma UnescapeScanStep(s: string, backslash: bool)
    requires s != []
    ensures UnescapeScan(s, backslash)
            == ScanStepOutput(s[0], backslash) + UnescapeScan(s[1..], s[0] == '\\' && !backslash)
  {
  }

  /** The meaning Unescape gives to a literal body. */
  function Unescaped(nl: string, text: string, verbatim: bool): string {
    if text == NewLineName then nl
    else if verbatim then Replace(text, "\"\"", "\"")
    else UnescapeScan(text, false)
  }

  /** Unescape: the newline sentinel, the verbatim Replace, or the backslash-flag loop. */
  method Unescape(nl: string, text: string, verbatim: bool) returns (r: string)
    ensures r == Unescaped(nl, text, verbatim)
  {
    if text == NewLineName {
      return nl;
    }
    if verbatim {
      return Replace(text, "\"\"", "\"");
    }
    var sb := "";
    var backslash := false;
    var i := 0;
    while i < |text|
      invariant 0 <= i <= |text|
      invariant sb + UnescapeScan(text[i..], backslash) == UnescapeScan(text, false)
    {
      var toAppend;
      UnescapeScanStep(text[i..], backslash);
      assert text[i..][1..] == text[i + 1..];
      toAppend, backslash := UnescapeChar(text[i], backslash);
      Regroup3(sb, toAppend, UnescapeScan(text[i + 1..], backslash));
      sb := sb + toAppend;
      i := i + 1;
    }
    r := sb;
  }

  /** One iteration of Unescape's loop: what to append for `c` and the new backslash flag. */
  method UnescapeChar(c: char, backslash: bool) returns (toAppend: string, backslash': bool)
    ensures toAppend == ScanStepOutput(c, backslash)
    ensures backslash' == (c == '\\' && !backslash)
  {
    toAppend := [c];
    backslash' := backslash;
    if c == '\\' {
      if !backslash {
        backslash' := true;
        toAppend := "";
      } else {
        backslash' := false;
      }
    } else {
      if backslash {
        // "\\" is unreachable here: a backslash takes the branch above.
        if toAppend == "n" {
          toAppend := "\n";
        } else if toAppend == "t" {
          toAppend := "\t";
        } else if toAppend == "r" {
          toAppend := "\r";
        }
        backslash' := false;
      }
    }
  }

  /** SurroundWithQuotes: the text between two copies of the quote string. */
  function SurroundWithQuotes(text: string, quoteChar: string): (r: string)
    ensures |r| == |text| + 2 * |quoteChar|
    ensures StartsWith(r, quoteChar) && EndsWith(r, quoteChar)
    ensures r[|quoteChar|..|r| - |quoteChar|] == text
  {
    quoteChar + text + quoteChar
  }

  /** EscapeAndQuote(text, verbatim, quoteChar): the C# literal that denotes `text`. */
  function EscapeAndQuote(nl: string, text: string, verbatim: bool, quoteChar: string): (r: string)
    ensures text == nl ==> r == NewLineName
    ensures text != nl && text == "\n" ==> r == "\"\\n\""
    ensures text != nl && text != "\n" ==>
              r == (if verbatim then "@" else "") + SurroundWithQuotes(Escaped(text, verbatim), quoteChar)
  {
    if text == nl then NewLineName
    else if text == "\n" then "\"\\n\""
    else (if verbatim then "@" else "") + SurroundWithQuotes(Escaped(text, verbatim), quoteChar)
  }

  /** EscapeAndQuote(text, quoteChar): verbatim exactly when the text holds a line break. */
  function EscapeAndQuoteInferVerbatim(nl: string, text: string, quoteChar: string): (r: string)
    ensures r == EscapeAndQuote(nl, text, '\n' in text || '\r' in text, quoteChar)
  {
    ContainsCharIff(text, '\n');
    ContainsCharIff(text, '\r');
    var verbatim := Contains(text, "\n") || Contains(text, "\r");
    EscapeAndQuote(nl, text, verbatim, quoteChar)
  }

  /**
   * ParseStringLiteral: drop a leading '@' (verbatim), then the surrounding
   * quotes when both are there, then unescape. A text that is a lone quote
   * (after the '@') makes Substring(1, -1) throw.
   */
  function ParseStringLiteral(nl: string, text: string): (r: Result<string>)
    ensures r.Err? ==> r.error == ArgumentOutOfRange
    ensures !StartsWith(text, "@") && !StartsWith(text, "\"") ==> r == Ok(Unescaped(nl, text, false))
  {
    var verbatim := StartsWith(text, "@");
    var t := WithoutVerbatimPrefix(text);
    if StartsWith(t, "\"") && EndsWith(t, "\"") then
      if |t| < 2 then Err(ArgumentOutOfRange)
      else Ok(Unescaped(nl, t[1..|t| - 1], verbatim))
    else
      Ok(Unescaped(nl, t, verbatim))
  }

  function WithoutVerbatimPrefix(text: string): string {
    if StartsWith(text, "@") then text[1..] else text
  }

  /** The condition under which the parse takes Substring(1, -1) and throws. */
  predicate TakesNegativeSubstring(text: string) {
    var t := WithoutVerbatimPrefix(text);
    StartsWith(t, "\"") && EndsWith(t, "\"") && |t| < 2
  }

  lemma ParseFailsOnNegativeSubstring(nl: string, text: string)
    ensures ParseStringLiteral(nl, text).Err? <==> TakesNegativeSubstring(text)
  {
  }

  lemma NegativeSubstringIsLoneQuote(text: string)
    ensures TakesNegativeSubstring(text) <==> (text == "\"" || text == "@\"")
  {
    var t := WithoutVerbatimPrefix(text);
    if TakesNegativeSubstring(text) {
      assert |t| == 1 && t[0] == '"';
      assert t == "\"";
      if StartsWith(text, "@") {
        assert text == text[..1] + text[1..];
        assert text[..1] == "@";
      }
    }
    var lone := "\"";
    assert lone[..1] == lone && lone[0] != '@';
    assert !StartsWith(lone, "@");
    var verbatimLone := "@\"";
    assert verbatimLone[..1] == "@" && verbatimLone[1..] == lone;
  }

  /** The parse throws exactly on a lone quote, with or without '@'. */
  lemma ParseFailsExactlyOnLoneQuote(nl: string, text: string)
    ensures ParseStringLiteral(nl, text).Err? <==> (text == "\"" || text == "@\"")
  {
    ParseFailsOnNegativeSubstring(nl, text);
    NegativeSubstringIsLoneQuote(text);
  }

  // ---- Round trips ----------------------------------------------------------

  lemma {:induction false} UnescapeScanEscaped(s: string)
    ensures UnescapeScan(Escaped(s, false), false) == s
    decreases |s|
  {
    if s != [] {
      var c, rest := s[0], Escaped(s[1..], false);
      UnescapeScanEscaped(s[1..]);
      if c == '"' || c == '\\' {
        var e := EscapeChar(c, false) + rest;
        assert e[0] == '\\' && e[1] == c && e[2..] == rest;
        assert UnescapeScan(e, false) == UnescapeScan(e[1..], true);
        assert e[1..][1..] == rest;
      } else {
        assert ([c] + rest)[1..] == rest;
      }
    }
  }

  lemma {:induction false} ReplaceDoubledQuotesEscaped(s: string)
    ensures Replace(Escaped(s, true), "\"\"", "\"") == s
    decreases |s|
  {
    if s != [] {
      var c, rest := s[0], Escaped(s[1..], true);
      ReplaceDoubledQuotesEscaped(s[1..]);
      if c == '"' {
        var e := "\"\"" + rest;
        assert Escaped(s, true) == e;
        assert e[..2] == "\"\"" && e[2..] == rest;
        assert Replace(e, "\"\"", "\"") == "\"" + Replace(rest, "\"\"", "\"");
        assert s == [c] + s[1..];
      } else {
        var e := [c] + rest;
        assert Escaped(s, true) == e;
        assert e[0] != '"' && e[1..] == rest;
        assert !StartsWith(e, "\"\"");
        assert Replace(e, "\"\"", "\"") == [c] + Replace(rest, "\"\"", "\"");
        assert s == [c] + s[1..];
      }
    }
  }

  /** Only the sentinel itself escapes to the sentinel: it holds neither '"' nor '\\'. */
  lemma {:induction false} EscapedPlain(s: string, verbatim: bool)
    requires '"' !in Escaped(s, verbatim) && '\\' !in Escaped(s, verbatim)
    ensures Escaped(s, verbatim) == s
    decreases |s|
  {
    if s != [] {
      var e := Escaped(s, verbatim);
      assert e == EscapeChar(s[0], verbatim) + Escaped(s[1..], verbatim);
      assert e[0] in e;
      assert forall x :: x in Escaped(s[1..], verbatim) ==> x in e;
      EscapedPlain(s[1..], verbatim);
    }
  }

  lemma EscapedSentinel(s: string, verbatim: bool)
    requires s != NewLineName
    ensures Escaped(s, verbatim) != NewLineName
  {
    if Escaped(s, verbatim) == NewLineName {
      EscapedPlain(s, verbatim);
    }
  }

  /** Unescape(Escape(s, v), v) == s for every s other than the sentinel text, in both modes. */
  lemma UnescapeEscapeRoundTrip(nl: string, s: string, verbatim: bool)
    requires s != NewLineName
    ensures Unescaped(nl, Escaped(s, verbatim), verbatim) == s
  {
    EscapedSentinel(s, verbatim);
    if verbatim {
      ReplaceDoubledQuotesEscaped(s);
    } else {
      UnescapeScanEscaped(s);
    }
  }

  /** Parsing a quoted literal, with '@' when verbatim, gives back the unescaped body. */
  lemma ParseQuoted(nl: string, body: string, verbatim: bool)
    ensures ParseStringLiteral(nl, (if verbatim then "@" else "") + SurroundWithQuotes(body, "\""))
            == Ok(Unescaped(nl, body, verbatim))
  {
    var quoted := SurroundWithQuotes(body, "\"");
    var q := (if verbatim then "@" else "") + quoted;
    assert quoted[..1] == "\"" && quoted[|quoted| - 1..] == "\"";
    assert quoted[1..|quoted| - 1] == body;
    if verbatim {
      assert q[..1] == "@" && q[1..] == quoted;
    } else {
      assert q == quoted && q[..1] != "@";
    }
  }

  /**
   * ParseStringLiteral(EscapeAndQuote(s, v)) == s, including the newline
   * short-cuts, unless s is the sentinel text and not the platform newline.
   */
  lemma ParseEscapeAndQuoteRoundTrip(nl: string, s: string, verbatim: bool)
    requires s != NewLineName || s == nl
    ensures ParseStringLiteral(nl, EscapeAndQuote(nl, s, verbatim, "\"")) == Ok(s)
  {
    var q := EscapeAndQuote(nl, s, verbatim, "\"");
    if s == nl {
      assert q == NewLineName && q[..1] == "E";
    } else if s == "\n" {
      ParseQuoted(nl, "\\n", false);
      assert q == SurroundWithQuotes("\\n", "\"");
      assert UnescapeScan("\\n", false) == UnescapeScan("n", true) == "\n";
    } else {
      UnescapeEscapeRoundTrip(nl, s, verbatim);
      ParseQuoted(nl, Escaped(s, verbatim), verbatim);
    }
  }

  /** The one exception to the round trip: the sentinel text comes back as the platform newline. */
  lemma SentinelParsesToNewLine(nl: string, verbatim: bool)
    ensures ParseStringLiteral(nl, EscapeAndQuote(nl, NewLineName, verbatim, "\"")) == Ok(nl)
  {
    if NewLineName == nl {
      assert EscapeAndQuote(nl, NewLineName, verbatim, "\"") == NewLineName;
      assert NewLineName[..1] == "E";
    } else {
      EscapedPlainText(NewLineName, verbatim);
      ParseQuoted(nl, NewLineName, verbatim);
    }
  }

  /** A text with no '"' and no '\\' escapes to itself. */
  lemma {:induction false} EscapedPlainText(s: string, verbatim: bool)
    requires '"' !in s && '\\' !in s
    ensures Escaped(s, verbatim) == s
    decreases |s|
  {
    if s != [] {
      assert s[0] != '"' && s[0] != '\\';
      assert forall x :: x in s[1..] ==> x in s;
      EscapedPlainText(s[1..], verbatim);
    }
  }

  /** Backslash-b is not an escape the codec knows: it decodes to the letter b. */
  lemma BackslashBDecodesToB(nl: string)
    ensures Unescaped(nl, "\\b", false) == "b"
  {
    assert UnescapeScan("\\b", false) == UnescapeScan("b", true);
  }
}
