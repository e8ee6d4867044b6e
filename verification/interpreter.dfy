/**
 * The interpreter that Evaluate runs instead of compiling the generated code:
 * it walks a call tree, resolves each factory or instance method by name,
 * picks an overload by coercing the arguments, and invokes it.
 *
 * Everything reflection does at run time is a field of Host: the SyntaxKind
 * members, the factory methods by name, instance-method lookup, generic
 * instantiation, IsAssignableFrom, double.TryParse, NormalizeWhitespace and
 * MethodInfo.Invoke. A nested call-tree argument is interpreted by
 * Host.interpret, which stands for InterpretApiCall itself.
 */
module Interpreter {
  import opened Wrappers
  import opened Text
  import opened StringLiterals
  import opened CallModel
  import opened Printing
  import opened Reflection
  import Syntax
  import Quoting
  import Registry

  /** The run-time services the interpreter reaches through reflection. */
  datatype Host = Host(
    nl: string,                                                   // Environment.NewLine
    interpret: CallTree -> Result<Value>,                         // InterpretApiCall on a nested argument
    assignable: (TypeDesc, Value) -> bool,                        // type.IsAssignableFrom(value.GetType())
    parsesAsDouble: string -> bool,                               // double.TryParse succeeds
    syntaxKinds: set<string>,                                     // the names of the SyntaxKind members
    typeNamed: string -> Option<TypeDesc>,                        // GetType(name): the first Roslyn type so named
    instantiate: (FactoryMethod, TypeDesc) -> Option<FactoryMethod>,  // MakeGenericMethod on a generic definition
    factoryMethodsByName: map<string, seq<FactoryMethod>>,        // the static factory methods, by name
    instanceMethods: (Value, string) -> seq<FactoryMethod>,       // public instance methods of the value's type
    isCompilationUnit: Value -> bool,
    normalizeWhitespace: Value -> Value,
    invoke: (Value, FactoryMethod, seq<Value>) -> Result<Value>)  // MethodInfo.Invoke

  // ---------------------------------------------------------------------------
  // Names
  // ---------------------------------------------------------------------------

  const FactoryPrefix: string := "SyntaxFactory."

  /** The method name with the SyntaxFactory qualifier or the leading '.' of an instance call dropped. */
  function MethodName(name: string): (r: string)
    ensures StartsWith(name, FactoryPrefix) ==> name == FactoryPrefix + r
    ensures !StartsWith(name, FactoryPrefix) && StartsWith(name, ".") ==> name == "." + r
    ensures !StartsWith(name, FactoryPrefix) && !StartsWith(name, ".") ==> r == name
  {
    if StartsWith(name, FactoryPrefix) then name[|FactoryPrefix|..]
    else if StartsWith(name, ".") then name[1..]
    else name
  }

  /** `new []` and `new T[]`: an array creation rather than a method call. */
  predicate IsArrayCreation(name: string) {
    name == "new []" || (StartsWith(name, "new ") && EndsWith(name, "[]"))
  }

  /** The names the quoter prints resolve to the method they were printed for. */
  lemma QuotedNamesResolve(shorten: bool, text: string)
    requires !StartsWith(text, FactoryPrefix) && !StartsWith(text, ".")
    ensures MethodName(if shorten then text else FactoryPrefix + text) == text
    ensures MethodName("." + text) == text
  {
    assert StartsWith(FactoryPrefix + text, FactoryPrefix);
    assert StartsWith("." + text, ".");
    if !shorten {
      assert (FactoryPrefix + text)[|FactoryPrefix|..] == text;
    }
  }

  /**
   * TryGetGenericArgument: a name of the form `M<T>` (the first '<' past the
   * start, the first '>' at the very end) splits into M and T.
   */
  function TryGetGenericArgument(name: string): (r: (string, Option<string>))
    ensures r.1.None? ==> r.0 == name
    ensures r.1.Some? ==> name == r.0 + "<" + r.1.value + ">" && r.0 != []
                          && '<' !in r.0 && '>' !in r.0 && '>' !in r.1.value
  {
    var openAngle := IndexOf(name, '<');
    var closeAngle := IndexOf(name, '>');
    if openAngle > 0 && closeAngle >= openAngle && closeAngle == |name| - 1 then
      assert name == name[..openAngle] + "<" + name[openAngle + 1..closeAngle] + ">";
      assert '>' !in name[..closeAngle];
      assert name[..closeAngle] == name[..openAngle] + "<" + name[openAngle + 1..closeAngle];
      (name[..openAngle], Some(name[openAngle + 1..closeAngle]))
    else
      (name, None)
  }

  /** Every generic name the split accepts is recovered from its parts. */
  lemma GenericArgumentRoundTrip(baseName: string, argument: string)
    requires baseName != [] && '<' !in baseName && '>' !in baseName && '>' !in argument
    ensures TryGetGenericArgument(baseName + "<" + argument + ">") == (baseName, Some(argument))
  {
    var name := baseName + "<" + argument + ">";
    assert name[..|baseName|] == baseName;
    assert name[|baseName|] == '<';
    assert name[..|baseName| + 1 + |argument|] == baseName + "<" + argument;
    assert name[|baseName| + 1 + |argument|] == '>';
    assert name[|baseName| + 1..|baseName| + 1 + |argument|] == argument;
  }

  /** A name without a closing '>' at its end is not generic. */
  lemma NotGenericWithoutClosingAngle(name: string)
    requires !EndsWith(name, ">")
    ensures TryGetGenericArgument(name) == (name, None)
  {
  }

  // ---------------------------------------------------------------------------
  // InterpretMemberCall
  // ---------------------------------------------------------------------------

  /** The SyntaxTrivia properties of SyntaxFactory whose names do not contain "Elastic". */
  const TriviaPropertyNames: set<string> := {"CarriageReturn", "CarriageReturnLineFeed", "LineFeed", "Space", "Tab"}

  const KindPrefix: string := "SyntaxKind."

  /** InterpretMemberCall: a trivia property, a SyntaxKind member, or a boolean literal. */
  function InterpretMemberCall(syntaxKinds: set<string>, memberName: string): (r: Result<Value>)
    ensures r.Ok? ==> r.value.TriviaValue? || r.value.EnumValue? || r.value.BooleanValue?
    ensures r.Ok? && r.value.EnumValue? ==> r.value.kind in syntaxKinds
  {
    var name := if StartsWith(memberName, FactoryPrefix) then memberName[|FactoryPrefix|..] else memberName;
    if name in TriviaPropertyNames then Ok(TriviaValue(name))
    else if StartsWith(name, KindPrefix) then
      var kind := name[|KindPrefix|..];
      if kind in syntaxKinds then Ok(EnumValue(kind)) else Err(ArgumentError(kind))
    else if name == "true" then Ok(BooleanValue(true))
    else if name == "false" then Ok(BooleanValue(false))
    else Err(NotImplemented("The method or operation is not implemented."))
  }

  /** The `Kind` member access QuotePropertyValues adds reads back as that SyntaxKind member. */
  lemma KindMemberRoundTrip(syntaxKinds: set<string>, kind: string)
    requires kind in syntaxKinds
    ensures InterpretMemberCall(syntaxKinds, KindPrefix + kind) == Ok(EnumValue(kind))
  {
    var name := KindPrefix + kind;
    assert !StartsWith(name, FactoryPrefix) by { assert name[6] != FactoryPrefix[6]; }
    assert name !in TriviaPropertyNames by { assert name[0] == 'S'; assert |name| >= 11; }
    assert StartsWith(name, KindPrefix);
    assert name[|KindPrefix|..] == kind;
  }

  /** A ready-made trivia property, qualified or not, reads back as that property. */
  lemma TriviaMemberRoundTrip(syntaxKinds: set<string>, shorten: bool, property: string)
    requires property in TriviaPropertyNames
    ensures InterpretMemberCall(syntaxKinds, if shorten then property else FactoryPrefix + property)
            == Ok(TriviaValue(property))
  {
    if shorten {
      assert !StartsWith(property, FactoryPrefix) by { assert property[1] != FactoryPrefix[1]; }
    } else {
      assert StartsWith(FactoryPrefix + property, FactoryPrefix);
      assert (FactoryPrefix + property)[|FactoryPrefix|..] == property;
    }
  }

  // ---------------------------------------------------------------------------
  // int.TryParse and string.Trim
  // ---------------------------------------------------------------------------

  /** The characters NumberStyles.Integer allows around a number. */
  const NumberWhite: set<char> := {'\t', '\n', '\U{B}', '\U{C}', '\r', ' '}

  /** TrimStart(chars): the longest suffix that does not start with one of `chars`. */
  function TrimLeading(s: string, chars: set<char>): (r: string)
    ensures |r| <= |s| && r == s[|s| - |r|..]
    ensures r == [] || r[0] !in chars
    ensures forall i :: 0 <= i < |s| - |r| ==> s[i] in chars
    decreases |s|
  {
    if s != [] && s[0] in chars then TrimLeading(s[1..], chars) else s
  }

  /** TrimEnd(chars): the longest prefix that does not end with one of `chars`. */
  function TrimTrailing(s: string, chars: set<char>): (r: string)
    ensures |r| <= |s| && r == s[..|r|]
    ensures r == [] || r[|r| - 1] !in chars
    ensures forall i :: |r| <= i < |s| ==> s[i] in chars
    decreases |s|
  {
    if s != [] && s[|s| - 1] in chars then TrimTrailing(s[..|s| - 1], chars) else s
  }

  /** Trim(chars): both ends. */
  function Trim(s: string, chars: set<char>): string {
    TrimTrailing(TrimLeading(s, chars), chars)
  }

  predicate IsDigit(c: char) { '0' <= c <= '9' }

  predicate AllDigits(s: string) { forall i :: 0 <= i < |s| ==> IsDigit(s[i]) }

  /** The value of a run of decimal digits. */
  function DigitsValue(s: string): nat
    requires AllDigits(s)
    decreases |s|
  {
    if s == [] then 0 else DigitsValue(s[..|s| - 1]) * 10 + (s[|s| - 1] as int - '0' as int)
  }

  const Int32Min: int := -0x8000_0000
  const Int32Max: int := 0x7FFF_FFFF

  /** int.TryParse(s) with NumberStyles.Integer: optional blanks, an optional sign, digits, optional blanks. */
  function ParseInt32(s: string): (r: Option<int>)
    ensures r.Some? ==> Int32Min <= r.value <= Int32Max
  {
    var t := Trim(s, NumberWhite);
    if t == [] then None
    else
      var negative := t[0] == '-';
      var digits := if t[0] == '-' || t[0] == '+' then t[1..] else t;
      if digits == [] || !AllDigits(digits) then None
      else
        var magnitude: int := DigitsValue(digits);
        var v := if negative then -magnitude else magnitude;
        if Int32Min <= v <= Int32Max then Some(v) else None
  }

  /** The decimal digits of a natural number, without leading zeros. */
  function DecimalDigits(n: nat): (r: string)
    ensures r != [] && AllDigits(r)
    decreases n
  {
    if n < 10 then [('0' as int + n) as char] else DecimalDigits(n / 10) + [('0' as int + n % 10) as char]
  }

  /** Int32.ToString(). */
  function Int32Text(n: int): string {
    if n < 0 then "-" + DecimalDigits(-n) else DecimalDigits(n)
  }

  lemma {:induction false} DigitsRoundTrip(n: nat)
    ensures DigitsValue(DecimalDigits(n)) == n
    decreases n
  {
    if n >= 10 {
      DigitsRoundTrip(n / 10);
      var d := DecimalDigits(n);
      assert d[..|d| - 1] == DecimalDigits(n / 10);
    }
  }

  /** Every 32-bit integer parses back from its own text. */
  lemma ParseInt32RoundTrip(n: int)
    requires Int32Min <= n <= Int32Max
    ensures ParseInt32(Int32Text(n)) == Some(n)
  {
    var s := Int32Text(n);
    var digits := DecimalDigits(if n < 0 then -n else n);
    DigitsRoundTrip(if n < 0 then -n else n);
    assert s[0] !in NumberWhite;
    assert s[|s| - 1] !in NumberWhite by { assert s[|s| - 1] == digits[|digits| - 1]; assert IsDigit(digits[|digits| - 1]); }
    assert TrimLeading(s, NumberWhite) == s;
    assert Trim(s, NumberWhite) == s;
    if n < 0 {
      assert s[1..] == digits;
    } else {
      assert IsDigit(s[0]);
    }
  }

  // ---------------------------------------------------------------------------
  // GetArgument
  // ---------------------------------------------------------------------------

  /**
   * The element type an array produced by a nested call is copied into: that
   * of an array parameter, or T of an IEnumerable<T> parameter (the array's
   * own element type when T is a generic parameter).
   */
  function ArrayElementType(parameterType: TypeDesc, node: Value): Option<TypeDesc>
    requires node.ArrayValue?
  {
    if parameterType.ArrayOf? then Some(parameterType.element)
    else if parameterType.Named? && parameterType.name == "IEnumerable`1" && |parameterType.genericArguments| == 1 then
      var elementType := parameterType.genericArguments[0];
      Some(if elementType.GenericParameter? then node.elementType else elementType)
    else None
  }

  /** GetArgument for an interpreted nested call: the value, or no match. */
  function NestedArgument(host: Host, parameterType: TypeDesc, node: Value): (r: Option<Value>)
    ensures node == NullValue ==> r.None?
    ensures r.Some? && !node.ArrayValue? ==> r.value == node
  {
    if node == NullValue then None
    else if node.ArrayValue? && ArrayElementType(parameterType, node).Some? then
      Some(ArrayValue(ArrayElementType(parameterType, node).value, node.elements))
    else if host.assignable(parameterType, node) || parameterType.GenericParameter? then Some(node)
    else None
  }

  /** The char a char-typed literal argument stands for: the text between the quotes, if one character. */
  function CharLiteral(str: string): Option<char> {
    var inner := Trim(str, {'\''});
    if StartsWith(str, "'") && EndsWith(str, "'") && |inner| == 1 then Some(inner[0]) else None
  }

  /** GetArgument for a string argument (literal source text), by parameter type. */
  function LiteralArgument(host: Host, parameterType: TypeDesc, str: string): (r: Result<Option<Value>>)
    ensures r.Err? ==> parameterType == StringType
    ensures r.Ok? && r.value.Some? ==>
              (parameterType == StringType && r.value.value.TextValue?)
              || (parameterType == Int32Type && r.value.value.Int32Value? && ParseInt32(str) == Some(r.value.value.i))
              || (parameterType == DoubleType && r.value.value == DoubleValue(str))
              || (parameterType == CharType && r.value.value.CharValue? && CharLiteral(str) == Some(r.value.value.c))
              || (parameterType == BooleanType && (str == "true" || str == "false")
                  && r.value.value == BooleanValue(str == "true"))
  {
    if parameterType == StringType then
      var text :- ParseStringLiteral(host.nl, str);
      Ok(Some(TextValue(text)))
    else if parameterType == Int32Type && ParseInt32(str).Some? then Ok(Some(Int32Value(ParseInt32(str).value)))
    else if parameterType == DoubleType && host.parsesAsDouble(str) then Ok(Some(DoubleValue(str)))
    else if parameterType == CharType && CharLiteral(str).Some? then Ok(Some(CharValue(CharLiteral(str).value)))
    else if parameterType == BooleanType && str == "true" then Ok(Some(BooleanValue(true)))
    else if parameterType == BooleanType && str == "false" then Ok(Some(BooleanValue(false)))
    else Ok(None)
  }

  /**
   * GetArgument: the value to pass for `argument` at a parameter of this
   * type, None when it does not match; an exception from interpreting or
   * parsing it propagates.
   */
  function GetArgument(host: Host, parameterType: TypeDesc, argument: Arg): (r: Result<Option<Value>>)
    ensures argument.MemberArg? ==> r == Ok(None)
    ensures argument.KindArg? ==>
              r.Ok? && (r.value.Some? <==> host.assignable(parameterType, EnumValue(argument.kind)))
              && (r.value.Some? ==> r.value.value == EnumValue(argument.kind))
    ensures argument.Nested? && host.interpret(argument.call).Err? ==> r == Err(host.interpret(argument.call).error)
    ensures r.Err? ==> argument.Nested? || argument.Literal?
  {
    match argument
    case Nested(call) =>
      var node :- host.interpret(call);
      Ok(NestedArgument(host, parameterType, node))
    case Literal(str) => LiteralArgument(host, parameterType, str)
    case KindArg(kind) =>
      Ok(if host.assignable(parameterType, EnumValue(kind)) then Some(EnumValue(kind)) else None)
    case MemberArg(_) => Ok(None)
  }

  /** A string parameter takes the parsed literal: a quoted string is read back exactly. */
  lemma StringArgumentRoundTrip(host: Host, s: string, verbatim: bool)
    requires s != NewLineName || s == host.nl
    ensures GetArgument(host, StringType, Literal(EscapeAndQuote(host.nl, s, verbatim, "\""))) == Ok(Some(TextValue(s)))
  {
    ParseEscapeAndQuoteRoundTrip(host.nl, s, verbatim);
  }

  /** An int parameter takes the printed integer back. */
  lemma Int32ArgumentRoundTrip(host: Host, n: int)
    requires Int32Min <= n <= Int32Max
    ensures GetArgument(host, Int32Type, Literal(Int32Text(n))) == Ok(Some(Int32Value(n)))
  {
    ParseInt32RoundTrip(n);
  }

  /** A char parameter takes the one character between single quotes (no escapes are decoded). */
  lemma CharArgumentRoundTrip(host: Host, c: char)
    requires c != '\''
    ensures GetArgument(host, CharType, Literal(['\'', c, '\''])) == Ok(Some(CharValue(c)))
  {
    CharLiteralOfQuoted(c);
    assert LiteralArgument(host, CharType, ['\'', c, '\'']) == Ok(Some(CharValue(c)));
  }

  lemma CharLiteralOfQuoted(c: char)
    requires c != '\''
    ensures CharLiteral(['\'', c, '\'']) == Some(c)
  {
    var s := ['\'', c, '\''];
    var lead := TrimLeading(s, {'\''});
    assert s[1] !in {'\''};
    assert lead == [c, '\''];
    var inner := TrimTrailing(lead, {'\''});
    assert inner == [c];
  }

  /** A boolean parameter takes exactly "true" and "false". */
  lemma BooleanArgument(host: Host, str: string)
    ensures GetArgument(host, BooleanType, Literal(str)).Ok?
    ensures GetArgument(host, BooleanType, Literal(str)).value.Some? <==> str == "true" || str == "false"
  {
  }

  // ---------------------------------------------------------------------------
  // PickCandidateMethod
  // ---------------------------------------------------------------------------

  /** The chosen overload and the values to call it with. */
  datatype Pick = Pick(candidate: FactoryMethod, arguments: seq<Value>)

  /** How the loop over a candidate's parameters ended: an early return, or the end of the loop (break or not). */
  datatype Built = Returned(values: seq<Value>) | Finished(values: seq<Value>)

  /** A `params T[]` parameter (C# puts the attribute on array parameters only). */
  predicate IsParamArray(p: Parameter) {
    p.isParamArray && p.parameterType.ArrayOf?
  }

  /** The element type of the candidate's trailing params array, if it has one. */
  function ParamArrayElement(parameters: seq<Parameter>): (r: Option<TypeDesc>)
    ensures r.Some? <==> |parameters| > 0 && IsParamArray(parameters[|parameters| - 1])
  {
    if |parameters| > 0 && IsParamArray(parameters[|parameters| - 1]) then
      Some(parameters[|parameters| - 1].parameterType.element)
    else None
  }

  /** MakeGenericMethod when a generic argument type was named and the candidate is a generic definition. */
  function Instantiated(host: Host, candidate: FactoryMethod, genericArgumentType: Option<TypeDesc>): FactoryMethod {
    if genericArgumentType.Some? && host.instantiate(candidate, genericArgumentType.value).Some? then
      host.instantiate(candidate, genericArgumentType.value).value
    else candidate
  }

  /** The required-count loop from `count` down: trailing optional parameters past the arguments are not required. */
  function RequiredFrom(parameters: seq<Parameter>, argumentCount: nat, count: nat): (r: nat)
    requires count <= |parameters|
    ensures r <= count
    decreases count
  {
    if count > 0 && count > argumentCount && parameters[count - 1].isOptional then
      RequiredFrom(parameters, argumentCount, count - 1)
    else count
  }

  /**
   * The required count is where the loop stops: every parameter from there
   * on is optional and has no argument, and the one before it (if any) is
   * either required or has an argument.
   */
  lemma {:induction false} RequiredFromStops(parameters: seq<Parameter>, argumentCount: nat, count: nat)
    requires count <= |parameters|
    ensures var r := RequiredFrom(parameters, argumentCount, count);
            (forall k :: r <= k < count ==> parameters[k].isOptional)
            && (r < count ==> argumentCount <= r)
            && (r == 0 || r <= argumentCount || !parameters[r - 1].isOptional)
    decreases count
  {
    if count > 0 && count > argumentCount && parameters[count - 1].isOptional {
      RequiredFromStops(parameters, argumentCount, count - 1);
    }
  }

  function RequiredParameterCount(parameters: seq<Parameter>, argumentCount: nat): nat {
    RequiredFrom(parameters, argumentCount, |parameters|)
  }

  /** The argument at a position, if the call has that many. */
  function ArgumentAt(arguments: seq<Arg>, i: nat): Option<Arg> {
    if i < |arguments| then Some(arguments[i]) else None
  }

  /** Packing arguments[j..] into the params array: stops at the first that does not match the element type. */
  function PackFrom(host: Host, elementType: TypeDesc, arguments: seq<Arg>, j: nat, packed: seq<Value>)
    : (r: Result<Option<seq<Value>>>)
    ensures r.Ok? && r.value.Some? ==> |r.value.value| == |packed| + (if j <= |arguments| then |arguments| - j else 0)
    decreases |arguments| - j
  {
    if j >= |arguments| then Ok(Some(packed))
    else
      var a :- GetArgument(host, elementType, arguments[j]);
      if a.None? then Ok(None) else PackFrom(host, elementType, arguments, j + 1, packed + [a.value])
  }

  /**
   * A completed packing keeps what was packed before and adds, in order, what
   * GetArgument made of each remaining argument.
   */
  lemma {:induction false} PackFromContents(host: Host, elementType: TypeDesc, arguments: seq<Arg>, j: nat,
                                            packed: seq<Value>)
    ensures var r := PackFrom(host, elementType, arguments, j, packed);
            r.Ok? && r.value.Some? ==>
              r.value.value[..|packed|] == packed
              && forall m :: j <= m < |arguments| ==>
                   GetArgument(host, elementType, arguments[m]) == Ok(Some(r.value.value[|packed| + m - j]))
    decreases |arguments| - j
  {
    var r := PackFrom(host, elementType, arguments, j, packed);
    if j < |arguments| && r.Ok? && r.value.Some? {
      var a := GetArgument(host, elementType, arguments[j]);
      assert a.Ok? && a.value.Some?;
      var next := packed + [a.value.value];
      assert r == PackFrom(host, elementType, arguments, j + 1, next);
      PackFromContents(host, elementType, arguments, j + 1, next);
      var vs := r.value.value;
      assert vs[..|next|] == next;
      assert vs[..|packed|] == vs[..|next|][..|packed|];
      forall m | j <= m < |arguments|
        ensures GetArgument(host, elementType, arguments[m]) == Ok(Some(vs[|packed| + m - j]))
      {
        if m == j {
          assert vs[|packed|] == vs[..|next|][|packed|];
        } else {
          assert |next| + m - (j + 1) == |packed| + m - j;
        }
      }
    }
  }

  /** An unfinished packing met a trailing argument that does not match the element type. */
  lemma {:induction false} PackFromStops(host: Host, elementType: TypeDesc, arguments: seq<Arg>, j: nat,
                                         packed: seq<Value>)
    ensures var r := PackFrom(host, elementType, arguments, j, packed);
            r.Ok? && r.value.None? ==>
              exists m :: j <= m < |arguments| && GetArgument(host, elementType, arguments[m]) == Ok(None)
    decreases |arguments| - j
  {
    var r := PackFrom(host, elementType, arguments, j, packed);
    if j < |arguments| && r.Ok? && r.value.None? {
      var a := GetArgument(host, elementType, arguments[j]);
      if a.Ok? && a.value.Some? {
        PackFromStops(host, elementType, arguments, j + 1, packed + [a.value.value]);
      }
    }
  }

  /**
   * The params array built from the arguments at `from` and after: one element
   * per trailing argument, each what GetArgument made of it, and empty when no
   * argument is left.
   */
  predicate PacksTrailing(host: Host, elementType: TypeDesc, arguments: seq<Arg>, from: nat, v: Value) {
    v.ArrayValue? && v.elementType == elementType
    && |v.elements| == (if from <= |arguments| then |arguments| - from else 0)
    && forall m :: 0 <= m < |v.elements| ==> GetArgument(host, elementType, arguments[from + m]) == Ok(Some(v.elements[m]))
  }

  /**
   * The loop over a candidate's parameters from position i with the values
   * built so far; `paramArray` is the params element type currently in force.
   */
  function BuildFrom(host: Host, parameters: seq<Parameter>, arguments: seq<Arg>, paramArray: Option<TypeDesc>,
                     i: nat, built: seq<Value>): Result<Built>
    decreases |parameters| - i
  {
    if i >= |parameters| then Ok(Finished(built))
    else if paramArray.Some? && i == |parameters| - 1 && |arguments| < |parameters| then
      Ok(Returned(built + [ArrayValue(paramArray.value, [])]))
    else
      var packed :- if paramArray.Some? && i == |parameters| - 1
                    then PackFrom(host, paramArray.value, arguments, |parameters| - 1, [])
                    else Ok(None);
      if packed.Some? then Ok(Returned(built + [ArrayValue(paramArray.value, packed.value)]))
      else if i >= |arguments| then
        BuildFrom(host, parameters, arguments, paramArray, i + 1, built + [parameters[i].defaultValue])
      else
        var arg :- GetArgument(host, parameters[i].parameterType, arguments[i]);
        if arg.None? then Ok(Finished(built))
        else BuildFrom(host, parameters, arguments, paramArray, i + 1, built + [arg.value])
  }

  /** The arity test that skips a candidate before any argument is looked at. */
  predicate Admitted(parameters: seq<Parameter>, argumentCount: nat, paramArray: Option<TypeDesc>) {
    var required := RequiredParameterCount(parameters, argumentCount);
    !(argumentCount < required && (paramArray.None? || argumentCount < required - 1))
    && !(argumentCount > |parameters| && paramArray.None?)
  }

  /** One iteration of the candidate loop: the values to call it with, or None to go on. */
  function TryCandidate(host: Host, arguments: seq<Arg>, candidate: FactoryMethod, paramArray: Option<TypeDesc>)
    : Result<Option<seq<Value>>>
  {
    if !Admitted(candidate.parameters, |arguments|, paramArray) then Ok(None)
    else
      var built :- BuildFrom(host, candidate.parameters, arguments, paramArray, 0, []);
      match built
      case Returned(values) => Ok(Some(values))
      case Finished(values) => Ok(if |values| == |candidate.parameters| then Some(values) else None)
  }

  /**
   * PickCandidateMethod as written: `paramArray` and `paramArrayType` live
   * outside the candidate loop and are only ever set, so a params array seen
   * on one candidate stays in force for every later one.
   */
  function PickAsWritten(host: Host, arguments: seq<Arg>, candidates: seq<FactoryMethod>,
                         genericArgumentType: Option<TypeDesc>, paramArray: Option<TypeDesc>): Result<Option<Pick>>
    decreases |candidates|
  {
    if candidates == [] then Ok(None)
    else
      var candidate := Instantiated(host, candidates[0], genericArgumentType);
      var inForce := if ParamArrayElement(candidate.parameters).Some? then ParamArrayElement(candidate.parameters) else paramArray;
      var outcome :- TryCandidate(host, arguments, candidate, inForce);
      if outcome.Some? then Ok(Some(Pick(candidate, outcome.value)))
      else PickAsWritten(host, arguments, candidates[1..], genericArgumentType, inForce)
  }

  /** PickCandidateMethod with the params state taken from each candidate itself. */
  function PickCorrected(host: Host, arguments: seq<Arg>, candidates: seq<FactoryMethod>,
                         genericArgumentType: Option<TypeDesc>): Result<Option<Pick>>
    decreases |candidates|
  {
    if candidates == [] then Ok(None)
    else
      var candidate := Instantiated(host, candidates[0], genericArgumentType);
      var outcome :- TryCandidate(host, arguments, candidate, ParamArrayElement(candidate.parameters));
      if outcome.Some? then Ok(Some(Pick(candidate, outcome.value)))
      else PickCorrected(host, arguments, candidates[1..], genericArgumentType)
  }

  /** The inner loop packing the trailing arguments into the params array. */
  method PackParamArray(host: Host, elementType: TypeDesc, arguments: seq<Arg>, from: nat)
    returns (r: Result<Option<seq<Value>>>)
    requires from <= |arguments|
    ensures r == PackFrom(host, elementType, arguments, from, [])
  {
    var values: seq<Value> := [];
    var j := from;
    while j < |arguments|
      invariant from <= j <= |arguments|
      invariant PackFrom(host, elementType, arguments, from, []) == PackFrom(host, elementType, arguments, j, values)
      decreases |arguments| - j
    {
      var a := GetArgument(host, elementType, arguments[j]);
      if a.Err? {
        return Err(a.error);
      }
      if a.value.None? {
        return Ok(None);
      }
      values := values + [a.value.value];
      j := j + 1;
    }
    return Ok(Some(values));
  }

  /** The loop over one candidate's parameters. */
  /** One unfolding of `BuildFrom` past a parameter with no argument. */
  lemma BuildFromDefault(host: Host, parameters: seq<Parameter>, arguments: seq<Arg>, paramArray: Option<TypeDesc>,
                         i: nat, built: seq<Value>)
    requires |arguments| <= i < |parameters| && !(paramArray.Some? && i == |parameters| - 1)
    ensures BuildFrom(host, parameters, arguments, paramArray, i, built)
            == BuildFrom(host, parameters, arguments, paramArray, i + 1, built + [parameters[i].defaultValue])
  {
  }

  /** One unfolding of `BuildFrom` at a parameter that takes its argument through `GetArgument`. */
  lemma BuildFromArgument(host: Host, parameters: seq<Parameter>, arguments: seq<Arg>, paramArray: Option<TypeDesc>,
                          i: nat, built: seq<Value>)
    requires i < |parameters| && i < |arguments|
    requires paramArray.Some? && i == |parameters| - 1 ==>
               PackFrom(host, paramArray.value, arguments, |parameters| - 1, []) == Ok(None)
    ensures BuildFrom(host, parameters, arguments, paramArray, i, built)
            == match GetArgument(host, parameters[i].parameterType, arguments[i])
               case Err(e) => Err(e)
               case Ok(None) => Ok(Finished(built))
               case Ok(Some(v)) => BuildFrom(host, parameters, arguments, paramArray, i + 1, built + [v])
  {
  }

  method BuildArguments(host: Host, parameters: seq<Parameter>, arguments: seq<Arg>, paramArray: Option<TypeDesc>)
    returns (r: Result<Built>)
    ensures r == BuildFrom(host, parameters, arguments, paramArray, 0, [])
  {
    var args: seq<Value> := [];
    for i := 0 to |parameters|
      invariant BuildFrom(host, parameters, arguments, paramArray, 0, [])
                == BuildFrom(host, parameters, arguments, paramArray, i, args)
    {
      if paramArray.Some? && i == |parameters| - 1 {
        if |arguments| >= |parameters| {
          var packed := PackParamArray(host, paramArray.value, arguments, |parameters| - 1);
          if packed.Err? {
            return Err(packed.error);
          }
          if packed.value.Some? {
            return Ok(Returned(args + [ArrayValue(paramArray.value, packed.value.value)]));
          }
        } else {
          return Ok(Returned(args + [ArrayValue(paramArray.value, [])]));
        }
      }
      if i >= |arguments| {
        BuildFromDefault(host, parameters, arguments, paramArray, i, args);
        args := args + [parameters[i].defaultValue];
        continue;
      }
      BuildFromArgument(host, parameters, arguments, paramArray, i, args);
      var arg := GetArgument(host, parameters[i].parameterType, arguments[i]);
      if arg.Err? {
        return Err(arg.error);
      }
      if arg.value.None? {
        return Ok(Finished(args));
      }
      args := args + [arg.value.value];
    }
    return Ok(Finished(args));
  }

  /** The body of the candidate loop for one (instantiated) candidate. */
  method TryCandidateMethod(host: Host, arguments: seq<Arg>, candidate: FactoryMethod, paramArray: Option<TypeDesc>)
    returns (outcome: Result<Option<seq<Value>>>)
    ensures outcome == TryCandidate(host, arguments, candidate, paramArray)
  {
    var parameters := candidate.parameters;
    var requiredParameterCount := |parameters|;
    while requiredParameterCount > 0 && requiredParameterCount > |arguments|
          && parameters[requiredParameterCount - 1].isOptional
      invariant 0 <= requiredParameterCount <= |parameters|
      invariant RequiredFrom(parameters, |arguments|, requiredParameterCount)
                == RequiredParameterCount(parameters, |arguments|)
    {
      requiredParameterCount := requiredParameterCount - 1;
    }
    if |arguments| < requiredParameterCount {
      if paramArray.None? {
        return Ok(None);
      }
      if |arguments| < requiredParameterCount - 1 {
        return Ok(None);
      }
    }
    if |arguments| > |parameters| && paramArray.None? {
      return Ok(None);
    }
    var built := BuildArguments(host, parameters, arguments, paramArray);
    if built.Err? {
      return Err(built.error);
    }
    if built.value.Returned? || |built.value.values| == |parameters| {
      return Ok(Some(built.value.values));
    }
    return Ok(None);
  }

  /** PickCandidateMethod as written (the params state carries over between candidates). */
  method PickCandidateMethod(host: Host, arguments: ArgList, candidates: seq<FactoryMethod>,
                             genericArgumentType: Option<TypeDesc>)
    returns (r: Result<Option<Pick>>)
    ensures r == PickAsWritten(host, arguments.Items(), candidates, genericArgumentType, None)
  {
    var args := arguments.Items();
    var paramArray: Option<TypeDesc> := None;  // paramArray and paramArrayType together
    for k := 0 to |candidates|
      invariant PickAsWritten(host, args, candidates, genericArgumentType, None)
                == PickAsWritten(host, args, candidates[k..], genericArgumentType, paramArray)
    {
      assert candidates[k..][1..] == candidates[k + 1..];
      var candidateMethod := Instantiated(host, candidates[k], genericArgumentType);
      var element := ParamArrayElement(candidateMethod.parameters);
      if element.Some? {
        paramArray := element;
      }
      var outcome := TryCandidateMethod(host, args, candidateMethod, paramArray);
      if outcome.Err? {
        return Err(outcome.error);
      }
      if outcome.value.Some? {
        return Ok(Some(Pick(candidateMethod, outcome.value.value)));
      }
    }
    return Ok(None);
  }

  /** PickCandidateMethod with the params state reset for every candidate. */
  method PickCandidateMethodCorrected(host: Host, arguments: ArgList, candidates: seq<FactoryMethod>,
                                      genericArgumentType: Option<TypeDesc>)
    returns (r: Result<Option<Pick>>)
    ensures r == PickCorrected(host, arguments.Items(), candidates, genericArgumentType)
  {
    var args := arguments.Items();
    for k := 0 to |candidates|
      invariant PickCorrected(host, args, candidates, genericArgumentType)
                == PickCorrected(host, args, candidates[k..], genericArgumentType)
    {
      assert candidates[k..][1..] == candidates[k + 1..];
      var candidateMethod := Instantiated(host, candidates[k], genericArgumentType);
      var outcome := TryCandidateMethod(host, args, candidateMethod, ParamArrayElement(candidateMethod.parameters));
      if outcome.Err? {
        return Err(outcome.error);
      }
      if outcome.value.Some? {
        return Ok(Some(Pick(candidateMethod, outcome.value.value)));
      }
    }
    return Ok(None);
  }

  // ---------------------------------------------------------------------------
  // What a pick guarantees
  // ---------------------------------------------------------------------------

  /**
   * A value fits the parameter at position k when it is the parameter's default
   * for a missing argument, what GetArgument made of the argument at that
   * position, or, at a final params parameter, the array packed from the
   * arguments at k and after.
   */
  predicate Fits(host: Host, parameters: seq<Parameter>, arguments: seq<Arg>, k: nat, v: Value)
    requires k < |parameters|
  {
    var p := parameters[k];
    (k >= |arguments| && v == p.defaultValue)
    || (k < |arguments| && GetArgument(host, p.parameterType, arguments[k]) == Ok(Some(v)))
    || (k == |parameters| - 1 && IsParamArray(p) && PacksTrailing(host, p.parameterType.element, arguments, k, v))
  }

  predicate AllFit(host: Host, parameters: seq<Parameter>, arguments: seq<Arg>, values: seq<Value>)
    requires |values| <= |parameters|
  {
    forall k :: 0 <= k < |values| ==> Fits(host, parameters, arguments, k, values[k])
  }

  lemma AllFitSnoc(host: Host, parameters: seq<Parameter>, arguments: seq<Arg>, built: seq<Value>, v: Value)
    requires |built| < |parameters| && AllFit(host, parameters, arguments, built)
    requires Fits(host, parameters, arguments, |built|, v)
    ensures AllFit(host, parameters, arguments, built + [v])
  {
    var values := built + [v];
    forall k | 0 <= k < |values|
      ensures Fits(host, parameters, arguments, k, values[k])
    {
      if k < |built| {
        assert values[k] == built[k];
      }
    }
  }

  /** With the candidate's own params state, every value built fits its parameter. */
  lemma {:induction false} BuildFromFits(host: Host, parameters: seq<Parameter>, arguments: seq<Arg>,
                                         i: nat, built: seq<Value>)
    requires i <= |parameters| && |built| == i
    requires AllFit(host, parameters, arguments, built)
    ensures var b := BuildFrom(host, parameters, arguments, ParamArrayElement(parameters), i, built);
            b.Ok? ==> |b.value.values| <= |parameters|
                      && (b.value.Returned? ==> |b.value.values| == |parameters|)
                      && AllFit(host, parameters, arguments, b.value.values)
    decreases |parameters| - i
  {
    var paramArray := ParamArrayElement(parameters);
    if i < |parameters| {
      if paramArray.Some? && i == |parameters| - 1 && |arguments| < |parameters| {
        AllFitSnoc(host, parameters, arguments, built, ArrayValue(paramArray.value, []));
      } else {
        var packed := if paramArray.Some? && i == |parameters| - 1
                      then PackFrom(host, paramArray.value, arguments, |parameters| - 1, [])
                      else Ok(None);
        if packed.Ok? {
          if packed.value.Some? {
            PackedFits(host, parameters, arguments, packed.value.value);
            AllFitSnoc(host, parameters, arguments, built, ArrayValue(paramArray.value, packed.value.value));
          } else if i >= |arguments| {
            BuildFromDefault(host, parameters, arguments, paramArray, i, built);
            AllFitSnoc(host, parameters, arguments, built, parameters[i].defaultValue);
            BuildFromFits(host, parameters, arguments, i + 1, built + [parameters[i].defaultValue]);
          } else {
            BuildFromArgument(host, parameters, arguments, paramArray, i, built);
            var arg := GetArgument(host, parameters[i].parameterType, arguments[i]);
            if arg.Ok? && arg.value.Some? {
              AllFitSnoc(host, parameters, arguments, built, arg.value.value);
              BuildFromFits(host, parameters, arguments, i + 1, built + [arg.value.value]);
            }
          }
        }
      }
    }
  }

  /** A completed packing of the trailing arguments fits the final params parameter. */
  lemma PackedFits(host: Host, parameters: seq<Parameter>, arguments: seq<Arg>, vs: seq<Value>)
    requires ParamArrayElement(parameters).Some?
    requires PackFrom(host, ParamArrayElement(parameters).value, arguments, |parameters| - 1, []) == Ok(Some(vs))
    ensures Fits(host, parameters, arguments, |parameters| - 1, ArrayValue(ParamArrayElement(parameters).value, vs))
  {
    var e := ParamArrayElement(parameters).value;
    var k := |parameters| - 1;
    var none: seq<Value> := [];
    PackFromContents(host, e, arguments, k, none);
    assert |vs| == (if k <= |arguments| then |arguments| - k else 0);
    forall m | 0 <= m < |vs|
      ensures GetArgument(host, e, arguments[k + m]) == Ok(Some(vs[m]))
    {
      assert |none| + (k + m) - k == m;
    }
    assert PacksTrailing(host, e, arguments, k, ArrayValue(e, vs));
  }

  /**
   * The corrected pick calls one of the candidates (instantiated) with one
   * value per parameter, each fitting its parameter.
   */
  lemma {:induction false} PickCorrectedFits(host: Host, arguments: seq<Arg>, candidates: seq<FactoryMethod>,
                                             genericArgumentType: Option<TypeDesc>)
    ensures var r := PickCorrected(host, arguments, candidates, genericArgumentType);
            r.Ok? && r.value.Some? ==>
              (exists c :: c in candidates && r.value.value.candidate == Instantiated(host, c, genericArgumentType))
              && |r.value.value.arguments| == |r.value.value.candidate.parameters|
              && AllFit(host, r.value.value.candidate.parameters, arguments, r.value.value.arguments)
    decreases |candidates|
  {
    if candidates != [] {
      var candidate := Instantiated(host, candidates[0], genericArgumentType);
      var ps := candidate.parameters;
      if Admitted(ps, |arguments|, ParamArrayElement(ps)) {
        BuildFromFits(host, ps, arguments, 0, []);
      }
      PickCorrectedFits(host, arguments, candidates[1..], genericArgumentType);
      var rest := PickCorrected(host, arguments, candidates[1..], genericArgumentType);
      if rest.Ok? && rest.value.Some? {
        var c :| c in candidates[1..] && rest.value.value.candidate == Instantiated(host, c, genericArgumentType);
        assert c in candidates;
      }
    }
  }

  // ---------------------------------------------------------------------------
  // The sticky params array
  // ---------------------------------------------------------------------------

  /** A host for calls whose arguments are all literals: nothing nested is ever interpreted. */
  function LiteralOnlyHost(): Host {
    Host("\n", (t: CallTree) => Err(NullReference), (t: TypeDesc, v: Value) => false, (s: string) => false, {},
         (n: string) => None, (m: FactoryMethod, t: TypeDesc) => None, map[], (v: Value, n: string) => [],
         (v: Value) => false, (v: Value) => v, (v: Value, m: FactoryMethod, a: seq<Value>) => Ok(NullValue))
  }

  /** M(params int[] values). */
  const ParamsOverload: FactoryMethod :=
    FactoryMethod("M", "SyntaxFactory", "X", "X M(Int32[])", false,
                  [Parameter("values", ArrayOf(Int32Type), false, true, NullValue)])

  /** M(string s, int n), tried after the params overload. */
  const PairOverload: FactoryMethod :=
    FactoryMethod("M", "SyntaxFactory", "X", "X M(System.String, Int32)", false,
                  [Parameter("s", StringType, false, false, NullValue), Parameter("n", Int32Type, false, false, NullValue)])

  const PairArguments: seq<Arg> := [Literal("\"a\""), Literal("5")]

  lemma ParseFive()
    ensures ParseInt32("5") == Some(5)
  {
    assert TrimLeading("5", NumberWhite) == "5";
    assert TrimTrailing("5", NumberWhite) == "5";
    assert DigitsValue("5") == DigitsValue([]) * 10 + 5 by { assert "5"[..0] == []; }
  }

  lemma QuotedTextIsNotInt32()
    ensures ParseInt32("\"a\"") == None
  {
    var s := "\"a\"";
    assert s[0] !in NumberWhite;
    assert TrimLeading(s, NumberWhite) == s;
    assert s[2] !in NumberWhite;
    assert TrimTrailing(s, NumberWhite) == s;
    assert s[0] != '-' && s[0] != '+';
    assert !IsDigit(s[0]);
    assert !AllDigits(s);
  }

  lemma QuotedTextParses()
    ensures ParseStringLiteral("\n", "\"a\"") == Ok("a")
  {
    var s := "\"a\"";
    assert s[..1][0] != "@"[0];
    assert !StartsWith(s, "@");
    assert WithoutVerbatimPrefix(s) == s;
    assert StartsWith(s, "\"") && EndsWith(s, "\"");
    assert s[1..|s| - 1] == "a";
    assert "a" != NewLineName;
    assert UnescapeScan("a", false) == "a";
    assert Unescaped("\n", "a", false) == "a";
  }

  /** The arguments as GetArgument sees them at each parameter type involved. */
  lemma PairArgumentFacts()
    ensures GetArgument(LiteralOnlyHost(), Int32Type, Literal("\"a\"")) == Ok(None)
    ensures GetArgument(LiteralOnlyHost(), ArrayOf(Int32Type), Literal("\"a\"")) == Ok(None)
    ensures GetArgument(LiteralOnlyHost(), StringType, Literal("\"a\"")) == Ok(Some(TextValue("a")))
    ensures GetArgument(LiteralOnlyHost(), Int32Type, Literal("5")) == Ok(Some(Int32Value(5)))
  {
    ParseFive();
    QuotedTextIsNotInt32();
    QuotedTextParses();
  }

  /** M(params int[]) takes neither argument: "a" is no int, so packing stops and the plain match fails too. */
  lemma ParamsOverloadRejected()
    ensures TryCandidate(LiteralOnlyHost(), PairArguments, ParamsOverload, Some(Int32Type)) == Ok(None)
  {
    var host := LiteralOnlyHost();
    PairArgumentFacts();
    RequiredFromStops(ParamsOverload.parameters, 2, 1);
    assert PairArguments[0] == Literal("\"a\"");
    assert PackFrom(host, Int32Type, PairArguments, 0, []) == Ok(None);
    assert BuildFrom(host, ParamsOverload.parameters, PairArguments, Some(Int32Type), 0, []) == Ok(Finished([]));
  }

  lemma PairOverloadAdmitted(paramArray: Option<TypeDesc>)
    ensures Admitted(PairOverload.parameters, |PairArguments|, paramArray)
  {
    RequiredFromStops(PairOverload.parameters, 2, 2);
  }

  /** The stale params state packs "5" at the int parameter. */
  lemma PairLastWithStaleParamArray()
    ensures BuildFrom(LiteralOnlyHost(), PairOverload.parameters, PairArguments, Some(Int32Type), 1, [TextValue("a")])
            == Ok(Returned([TextValue("a"), ArrayValue(Int32Type, [Int32Value(5)])]))
  {
    var host := LiteralOnlyHost();
    var ps := PairOverload.parameters;
    PairArgumentFacts();
    assert PairArguments[1] == Literal("5");
    assert GetArgument(host, Int32Type, PairArguments[1]) == Ok(Some(Int32Value(5)));
    assert [] + [Int32Value(5)] == [Int32Value(5)];
    assert PackFrom(host, Int32Type, PairArguments, 2, [Int32Value(5)]) == Ok(Some([Int32Value(5)]));
    assert PackFrom(host, Int32Type, PairArguments, 1, []) == Ok(Some([Int32Value(5)]));
    assert [TextValue("a")] + [ArrayValue(Int32Type, [Int32Value(5)])]
           == [TextValue("a"), ArrayValue(Int32Type, [Int32Value(5)])];
  }

  lemma PairFirst(paramArray: Option<TypeDesc>)
    ensures BuildFrom(LiteralOnlyHost(), PairOverload.parameters, PairArguments, paramArray, 0, [])
            == BuildFrom(LiteralOnlyHost(), PairOverload.parameters, PairArguments, paramArray, 1, [TextValue("a")])
  {
    PairArgumentFacts();
    assert PairArguments[0] == Literal("\"a\"");
    assert [] + [TextValue("a")] == [TextValue("a")];
  }

  /** M(string, int) with the stale params state: "5" is packed into an int[]. */
  lemma PairOverloadWithStaleParamArray()
    ensures TryCandidate(LiteralOnlyHost(), PairArguments, PairOverload, Some(Int32Type))
            == Ok(Some([TextValue("a"), ArrayValue(Int32Type, [Int32Value(5)])]))
  {
    PairOverloadAdmitted(Some(Int32Type));
    PairFirst(Some(Int32Type));
    PairLastWithStaleParamArray();
  }

  lemma PairLast()
    ensures BuildFrom(LiteralOnlyHost(), PairOverload.parameters, PairArguments, None, 1, [TextValue("a")])
            == Ok(Finished([TextValue("a"), Int32Value(5)]))
  {
    var host := LiteralOnlyHost();
    var ps := PairOverload.parameters;
    PairArgumentFacts();
    assert PairArguments[1] == Literal("5");
    assert GetArgument(host, ps[1].parameterType, PairArguments[1]) == Ok(Some(Int32Value(5)));
    assert [TextValue("a")] + [Int32Value(5)] == [TextValue("a"), Int32Value(5)];
    assert BuildFrom(host, ps, PairArguments, None, 2, [TextValue("a"), Int32Value(5)])
           == Ok(Finished([TextValue("a"), Int32Value(5)]));
  }

  /** M(string, int) on its own terms: "a" and 5. */
  lemma PairOverloadBinds()
    ensures TryCandidate(LiteralOnlyHost(), PairArguments, PairOverload, None)
            == Ok(Some([TextValue("a"), Int32Value(5)]))
  {
    PairOverloadAdmitted(None);
    PairFirst(None);
    PairLast();
  }

  /**
   * As written, the params array of M(params int[]) stays in force for
   * M(string, int): the int argument is packed into an int[] and passed where
   * an int is expected.
   */
  lemma StickyParamArrayMisbinds()
    ensures PickAsWritten(LiteralOnlyHost(), PairArguments, [ParamsOverload, PairOverload], None, None)
            == Ok(Some(Pick(PairOverload, [TextValue("a"), ArrayValue(Int32Type, [Int32Value(5)])])))
    ensures !Fits(LiteralOnlyHost(), PairOverload.parameters, PairArguments, 1, ArrayValue(Int32Type, [Int32Value(5)]))
  {
    ParamsOverloadRejected();
    PairOverloadWithStaleParamArray();
    PairArgumentFacts();
    assert [ParamsOverload, PairOverload][1..] == [PairOverload];
  }

  /** Reset per candidate, the same call binds M(string, int) to ("a", 5). */
  lemma ResetParamArrayBinds()
    ensures PickCorrected(LiteralOnlyHost(), PairArguments, [ParamsOverload, PairOverload], None)
            == Ok(Some(Pick(PairOverload, [TextValue("a"), Int32Value(5)])))
  {
    ParamsOverloadRejected();
    PairOverloadBinds();
    assert [ParamsOverload, PairOverload][1..] == [PairOverload];
  }

  // ---------------------------------------------------------------------------
  // Dispatch
  // ---------------------------------------------------------------------------

  /** GetCandidates: the factory methods of that name, or the instance methods of the value's type. */
  function Candidates(host: Host, instance: Value, name: string): seq<FactoryMethod> {
    if instance == NullValue then
      if name in host.factoryMethodsByName then host.factoryMethodsByName[name] else []
    else host.instanceMethods(instance, name)
  }

  /** The host's table of static factory methods is the one derived from SyntaxFactory's methods. */
  predicate DerivesFactoryTable(host: Host, methods: seq<FactoryMethod>) {
    host.factoryMethodsByName == Registry.FactoryMethodsByName(methods)
  }

  /**
   * With the derived table, a static call only ever considers included
   * (not obsolete, not excluded) factory methods of exactly that name.
   */
  lemma StaticCandidatesIncluded(host: Host, methods: seq<FactoryMethod>, name: string)
    requires DerivesFactoryTable(host, methods)
    ensures forall m :: m in Candidates(host, NullValue, name)
                        <==> m in methods && Registry.IsIncluded(m) && m.name == name
  {
  }

  /** The elements of `new T[] { ... }`: each argument cast to ApiCall and interpreted, in order. */
  function InterpretElements(host: Host, arguments: seq<Arg>): (r: Result<seq<Value>>)
    ensures r.Ok? ==> |r.value| == |arguments|
    decreases |arguments|
  {
    if arguments == [] then Ok([])
    else
      var first :- if arguments[0].Nested? then host.interpret(arguments[0].call) else Err(InvalidCast);
      var rest :- InterpretElements(host, arguments[1..]);
      Ok([first] + rest)
  }

  /** InterpretMethodCall on values, with the overload picked by the corrected PickCandidateMethod. */
  function InterpretedMethodCall(host: Host, instance: Value, methodName: string, arguments: ArgList): Result<Value> {
    var name := MethodName(methodName);
    if IsArrayCreation(name) then
      if arguments.NoArguments? then Err(ArgumentNull)
      else
        var elements :- InterpretElements(host, arguments.items);
        Ok(ArrayValue(ObjectType, elements))
    else if instance != NullValue && host.isCompilationUnit(instance) && name == "NormalizeWhitespace" then
      Ok(host.normalizeWhitespace(instance))
    else
      InvokedOverload(host, instance, methodName, arguments)
  }

  /** The general case of InterpretMethodCall: find the overloads by name, pick one, invoke it. */
  function InvokedOverload(host: Host, instance: Value, methodName: string, arguments: ArgList): Result<Value> {
    var split := TryGetGenericArgument(MethodName(methodName));
    var genericArgumentType := if split.1.Some? then host.typeNamed(split.1.value) else None;
    var candidates := Candidates(host, instance, split.0);
    if candidates == [] then Err(Failure("Can't find factory method for " + methodName))
    else InvokedPick(host, instance, methodName, arguments, candidates, genericArgumentType)
  }

  /** Pick among the overloads found and invoke the one picked. */
  function InvokedPick(host: Host, instance: Value, methodName: string, arguments: ArgList,
                       candidates: seq<FactoryMethod>, genericArgumentType: Option<TypeDesc>): Result<Value>
  {
    var pick :- PickCorrected(host, arguments.Items(), candidates, genericArgumentType);
    if pick.None? then Err(Failure("Can't pick a method to call for " + methodName))
    else host.invoke(instance, pick.value.candidate, pick.value.arguments)
  }

  /** InterpretMethodCall: resolve the name, pick an overload, invoke it on the instance (null for a factory call). */
  method InterpretMethodCall(host: Host, instance: Value, methodName: string, arguments: ArgList)
    returns (r: Result<Value>)
    ensures r == InterpretedMethodCall(host, instance, methodName, arguments)
  {
    var name := MethodName(methodName);
    if IsArrayCreation(name) {
      if arguments.NoArguments? {
        return Err(ArgumentNull);
      }
      var elements := InterpretElements(host, arguments.items);
      if elements.Err? {
        return Err(elements.error);
      }
      return Ok(ArrayValue(ObjectType, elements.value));
    }
    if instance != NullValue && host.isCompilationUnit(instance) && name == "NormalizeWhitespace" {
      return Ok(host.normalizeWhitespace(instance));
    }
    r := InvokeOverload(host, instance, methodName, arguments);
  }

  method InvokeOverload(host: Host, instance: Value, methodName: string, arguments: ArgList)
    returns (r: Result<Value>)
    ensures r == InvokedOverload(host, instance, methodName, arguments)
  {
    var genericArgumentType: Option<TypeDesc> := None;
    var split := TryGetGenericArgument(MethodName(methodName));
    if split.1.Some? {
      genericArgumentType := host.typeNamed(split.1.value);
    }
    var candidates := Candidates(host, instance, split.0);
    if candidates == [] {
      return Err(Failure("Can't find factory method for " + methodName));
    }
    r := InvokePick(host, instance, methodName, arguments, candidates, genericArgumentType);
  }

  method InvokePick(host: Host, instance: Value, methodName: string, arguments: ArgList,
                    candidates: seq<FactoryMethod>, genericArgumentType: Option<TypeDesc>)
    returns (r: Result<Value>)
    ensures r == InvokedPick(host, instance, methodName, arguments, candidates, genericArgumentType)
  {
    var pick := PickCandidateMethodCorrected(host, arguments, candidates, genericArgumentType);
    if pick.Err? {
      return Err(pick.error);
    }
    if pick.value.None? {
      return Err(Failure("Can't pick a method to call for " + methodName));
    }
    r := host.invoke(instance, pick.value.value.candidate, pick.value.value.arguments);
  }

  /** An instance-call chain holds method calls only. */
  predicate AllMethodCalls(calls: seq<Invocation>) {
    forall i :: 0 <= i < |calls| ==> calls[i].MethodInvocation?
  }

  /** The instance calls from position i on, each applied to the previous result. */
  function InstanceCallsFrom(host: Host, node: Value, calls: seq<Invocation>, i: nat): Result<Value>
    requires AllMethodCalls(calls)
    decreases |calls| - i
  {
    if i >= |calls| then Ok(node)
    else
      var next :- InterpretedMethodCall(host, node, calls[i].name, calls[i].arguments);
      InstanceCallsFrom(host, next, calls, i + 1)
  }

  /** InterpretInstanceCalls on values: nothing happens to a null node or an empty chain. */
  function InterpretedInstanceCalls(host: Host, node: Value, calls: seq<Invocation>): Result<Value>
    requires AllMethodCalls(calls)
  {
    if node == NullValue || calls == [] then Ok(node) else InstanceCallsFrom(host, node, calls, 0)
  }

  /** InterpretInstanceCalls: apply each instance call in turn. */
  method InterpretInstanceCalls(host: Host, node: Value, calls: seq<Invocation>) returns (r: Result<Value>)
    requires AllMethodCalls(calls)
    ensures r == InterpretedInstanceCalls(host, node, calls)
  {
    if node == NullValue || calls == [] {
      return Ok(node);
    }
    var current := node;
    for i := 0 to |calls|
      invariant InstanceCallsFrom(host, node, calls, 0) == InstanceCallsFrom(host, current, calls, i)
    {
      var next := InterpretMethodCall(host, current, calls[i].name, calls[i].arguments);
      if next.Err? {
        return Err(next.error);
      }
      current := next.value;
    }
    return Ok(current);
  }

  /** InterpretApiCall on values. */
  function InterpretedApiCall(host: Host, t: CallTree): Result<Value>
    requires AllMethodCalls(t.modifiers.Calls())
  {
    match t.factory
    case Some(MethodInvocation(name, arguments)) =>
      var node :- InterpretedMethodCall(host, NullValue, name, arguments);
      InterpretedInstanceCalls(host, node, t.modifiers.Calls())
    case Some(MemberAccess(name)) => InterpretMemberCall(host.syntaxKinds, name)
    case None => Err(Failure("Unexpected " + RenderCall(t, 0, Layout(host.nl, false, false))))
  }

  /** InterpretApiCall: the factory call then its chain, a member access, or an error for a bare name. */
  method InterpretApiCall(host: Host, t: CallTree) returns (r: Result<Value>)
    requires AllMethodCalls(t.modifiers.Calls())
    ensures r == InterpretedApiCall(host, t)
  {
    match t.factory {
      case Some(MethodInvocation(name, arguments)) =>
        var node := InterpretMethodCall(host, NullValue, name, arguments);
        if node.Err? {
          return Err(node.error);
        }
        r := InterpretInstanceCalls(host, node.value, t.modifiers.Calls());
      case Some(MemberAccess(name)) =>
        r := InterpretMemberCall(host.syntaxKinds, name);
      case None =>
        var printed := PrintWithDefaultFormatting(t, host.nl);
        r := Err(Failure("Unexpected " + printed));
    }
  }

  // ---------------------------------------------------------------------------
  // What the interpreter does with what the quoter produced
  // ---------------------------------------------------------------------------

  /** The Kind member access of a kind-bearing node interprets to that SyntaxKind member. */
  lemma QuotedKindInterprets(host: Host, node: Syntax.Node)
    requires node.kind in host.syntaxKinds
    ensures InterpretedApiCall(host, Quoting.KindValue(node)) == Ok(EnumValue(node.kind))
  {
    KindMemberRoundTrip(host.syntaxKinds, node.kind);
  }

  /** A ready-made trivia quoted as a SyntaxFactory property interprets to that property. */
  lemma QuotedPresetTriviaInterprets(host: Host, cfg: Quoting.Config, t: Syntax.Trivia)
    requires !cfg.useDefaultFormatting && t.fullSpanLength > 0 && Quoting.IsPresetTrivia(t)
    ensures Quoting.QuoteTrivia(cfg, host.nl, t).Some?
    ensures InterpretedApiCall(host, Quoting.QuoteTrivia(cfg, host.nl, t).value)
            == Ok(TriviaValue(Quoting.TriviaPreset(t.text).value.0))
  {
    var property := Quoting.TriviaPreset(t.text).value.0;
    assert property in TriviaPropertyNames;
    TriviaMemberRoundTrip(host.syntaxKinds, cfg.shortenCodeWithUsingStatic, property);
  }

  /** The NormalizeWhitespace call the quoter appends to a compilation unit normalizes it. */
  lemma NormalizeWhitespaceInterprets(host: Host, unit: Value)
    requires unit != NullValue && host.isCompilationUnit(unit)
    ensures InterpretedMethodCall(host, unit, ".NormalizeWhitespace", NoArguments) == Ok(host.normalizeWhitespace(unit))
  {
    NormalizeWhitespaceName();
  }

  lemma NormalizeWhitespaceName()
    ensures MethodName(".NormalizeWhitespace") == "NormalizeWhitespace"
    ensures !IsArrayCreation("NormalizeWhitespace")
  {
    var name := "NormalizeWhitespace";
    assert name[0] != FactoryPrefix[0] && name[0] != '.';
    QuotedNamesResolve(false, name);
    DottedName();
    assert !StartsWith(name, "new ") by {
      assert name[0] != "new "[0];
    }
  }

  /** The two literals joined by `NormalizeWhitespace`'s call site, equated once for the proofs above. */
  lemma DottedName()
    ensures "." + "NormalizeWhitespace" == ".NormalizeWhitespace"
  {
  }

  /** A bare name (the parse-error message) cannot be interpreted. */
  lemma NameOnlyDoesNotInterpret(host: Host, text: string)
    ensures InterpretedApiCall(host, NameOnly(text)) == Err(Failure("Unexpected " + text))
  {
    NameOnlyPrintsName(NameOnly(text), 0, Layout(host.nl, false, false));
  }

  /** A name with no factory method of that name fails with "Can't find factory method". */
  lemma UnknownFactoryMethod(host: Host, methodName: string, arguments: ArgList)
    requires !IsArrayCreation(MethodName(methodName))
    requires TryGetGenericArgument(MethodName(methodName)).0 !in host.factoryMethodsByName
    ensures InterpretedMethodCall(host, NullValue, methodName, arguments)
            == Err(Failure("Can't find factory method for " + methodName))
  {
  }

  /** The values a factory is invoked with fit its parameters one for one. */
  lemma InvokedWithFittingArguments(host: Host, methodName: string, arguments: ArgList)
    requires !IsArrayCreation(MethodName(methodName))
    ensures var split := TryGetGenericArgument(MethodName(methodName));
            var genericArgumentType := if split.1.Some? then host.typeNamed(split.1.value) else None;
            var pick := PickCorrected(host, arguments.Items(), Candidates(host, NullValue, split.0), genericArgumentType);
            pick.Ok? && pick.value.Some? ==>
              |pick.value.value.arguments| == |pick.value.value.candidate.parameters|
              && AllFit(host, pick.value.value.candidate.parameters, arguments.Items(), pick.value.value.arguments)
  {
    var split := TryGetGenericArgument(MethodName(methodName));
    var genericArgumentType := if split.1.Some? then host.typeNamed(split.1.value) else None;
    PickCorrectedFits(host, arguments.Items(), Candidates(host, NullValue, split.0), genericArgumentType);
  }
}
