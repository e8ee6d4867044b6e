/**
 * Turning a node's quoted property values into a factory call: binding the
 * values to the chosen factory method's parameters, then turning whatever is
 * left into a chain of `.WithX(...)` modifying calls.
 *
 * The pool of quoted values is a list the quoter shrinks as values are used;
 * here it goes into each step and comes back out. Its values are distinct
 * objects in the quoter, so removing "that value" is removing it at its index.
 */
module Binding {
  import opened Wrappers
  import opened Text
  import opened CallModel
  import opened Syntax
  import opened Reflection
  import opened Quoting
  import opened Registry
  import Printing

  // ---------------------------------------------------------------------------
  // FindValue
  // ---------------------------------------------------------------------------

  /** The value's name equals the parameter name, ignoring case (a nameless value never matches). */
  predicate NameMatches(parameterName: string, v: CallTree) {
    v.name.Some? && EqualsIgnoreCase(parameterName, v.name.value)
  }

  /** FindValue: the position of the first value whose name matches, ignoring case. */
  function FindValue(parameterName: string, values: seq<CallTree>): (r: Option<nat>)
    ensures r.Some? ==> r.value < |values| && NameMatches(parameterName, values[r.value])
    ensures r.Some? ==> forall j :: 0 <= j < r.value ==> !NameMatches(parameterName, values[j])
    ensures r.None? <==> forall j :: 0 <= j < |values| ==> !NameMatches(parameterName, values[j])
  {
    if values == [] then None
    else if NameMatches(parameterName, values[0]) then Some(0)
    else
      var r := FindValue(parameterName, values[1..]);
      if r.Some? then Some(r.value + 1) else None
  }

  /** The position of the first value named exactly `name`. */
  function FindNamedExactly(values: seq<CallTree>, name: string): (r: Option<nat>)
    ensures r.Some? ==> r.value < |values| && values[r.value].name == Some(name)
    ensures r.Some? ==> forall j :: 0 <= j < r.value ==> values[j].name != Some(name)
    ensures r.None? <==> forall j :: 0 <= j < |values| ==> values[j].name != Some(name)
  {
    if values == [] then None
    else if values[0].name == Some(name) then Some(0)
    else
      var r := FindNamedExactly(values[1..], name);
      if r.Some? then Some(r.value + 1) else None
  }

  /** The pool without the value at `i`. */
  function RemoveAt(values: seq<CallTree>, i: nat): (r: seq<CallTree>)
    requires i < |values|
    ensures |r| == |values| - 1
    ensures multiset(r) + multiset{values[i]} == multiset(values)
  {
    assert values == values[..i] + [values[i]] + values[i + 1..];
    values[..i] + values[i + 1..]
  }

  // ---------------------------------------------------------------------------
  // GetPrintableTypeName
  // ---------------------------------------------------------------------------

  /** GetPrintableTypeName: C# spelling of a type, `List`1` with argument T becoming `List<T>`. */
  function PrintableTypeName(t: TypeDesc): (r: Result<string>)
    ensures !(t.Named? && t.genericArguments != []) ==> r == Ok(t.Name())
    ensures r.Err? ==> r.error == ArgumentOutOfRange
    decreases t, 1, 0
  {
    if t.Named? && t.genericArguments != [] then
      var tick := IndexOf(t.name, '`');
      if tick < 0 then Err(ArgumentOutOfRange)   // Substring(0, -1)
      else
        var arguments :- PrintableTypeArguments(t, 0);
        Ok(t.name[..tick] + "<" + arguments + ">")
    else Ok(t.Name())
  }

  /** The printable names of the generic arguments from index `i` on, joined by ", ". */
  function PrintableTypeArguments(t: TypeDesc, i: nat): (r: Result<string>)
    requires t.Named?
    ensures r.Err? ==> r.error == ArgumentOutOfRange
    decreases t, 0, |t.genericArguments| - i
  {
    if i >= |t.genericArguments| then Ok("")
    else
      var first :- PrintableTypeName(t.genericArguments[i]);
      var rest :- PrintableTypeArguments(t, i + 1);
      Ok(if i + 1 < |t.genericArguments| then first + ", " + rest else first)
  }

  /**
   * A generic type `Base`N` whose arguments print as `names` prints as
   * `Base<A, B, ...>`: the base name, then the argument names joined by ", "
   * between angle brackets.
   */
  lemma PrintableGenericName(t: TypeDesc, base: string, arity: string, names: seq<string>)
    requires t.Named? && t.name == base + "`" + arity && '`' !in base
    requires |t.genericArguments| == |names| > 0
    requires forall i :: 0 <= i < |names| ==> PrintableTypeName(t.genericArguments[i]) == Ok(names[i])
    ensures PrintableTypeName(t) == Ok(base + "<" + Printing.Join(names, ", ") + ">")
  {
    var tick := IndexOf(t.name, '`');
    assert t.name[|base|] == '`';
    assert tick == |base|;
    assert t.name[..tick] == base;
    PrintableArgumentsJoined(t, names, 0);
  }

  lemma {:induction false} PrintableArgumentsJoined(t: TypeDesc, names: seq<string>, i: nat)
    requires t.Named? && |t.genericArguments| == |names| && i < |names|
    requires forall j :: 0 <= j < |names| ==> PrintableTypeName(t.genericArguments[j]) == Ok(names[j])
    ensures PrintableTypeArguments(t, i) == Ok(Printing.Join(names[i..], ", "))
    decreases |names| - i
  {
    if i + 1 < |names| {
      PrintableArgumentsJoined(t, names, i + 1);
      assert names[i..][1..] == names[i + 1..];
    }
  }

  /** Every generic type's metadata name carries its arity suffix after a backtick. */
  predicate WellFormedType(t: TypeDesc)
    decreases t
  {
    match t
    case Named(n, args, _) =>
      (args != [] ==> '`' in n) && forall i :: 0 <= i < |args| ==> WellFormedType(args[i])
    case ArrayOf(e) => WellFormedType(e)
    case GenericParameter(_) => true
  }

  /** Well-formed types always have a printable name; a generic name without a backtick throws. */
  lemma {:induction false} PrintableTypeNameDefined(t: TypeDesc)
    ensures WellFormedType(t) ==> PrintableTypeName(t).Ok?
    ensures t.Named? && t.genericArguments != [] && '`' !in t.name ==> PrintableTypeName(t) == Err(ArgumentOutOfRange)
    decreases t, 1
  {
    if t.Named? && t.genericArguments != [] {
      if '`' in t.name {
        ContainsCharIff(t.name, '`');
        if WellFormedType(t) {
          PrintableTypeArgumentsDefined(t, 0);
        }
      } else {
        ContainsCharIff(t.name, '`');
      }
    }
  }

  lemma {:induction false} PrintableTypeArgumentsDefined(t: TypeDesc, i: nat)
    requires t.Named? && WellFormedType(t)
    ensures PrintableTypeArguments(t, i).Ok?
    decreases t, 0, |t.genericArguments| - i
  {
    if i < |t.genericArguments| {
      PrintableTypeNameDefined(t.genericArguments[i]);
      PrintableTypeArgumentsDefined(t, i + 1);
    }
  }

  // ---------------------------------------------------------------------------
  // AddFactoryMethodArguments
  // ---------------------------------------------------------------------------

  /** What binding one parameter does: append `added`, leave `pool`, and either go on or stop binding. */
  datatype Step = Continue(added: seq<Arg>, pool: seq<CallTree>) | Stop(added: seq<Arg>, pool: seq<CallTree>)

  /**
   * The elements of a `List(new T[] { ... })` value, for a sole params
   * parameter: None when the value does not have that shape, errors where the
   * quoter dereferences null.
   */
  function FlattenedElements(v: CallTree): Result<Option<seq<Arg>>> {
    if v.factory.None? || !v.factory.value.MethodInvocation? || !Contains(v.factory.value.name, "List") then Ok(None)
    else
      var list := v.factory.value;
      if list.arguments.NoArguments? then Err(NullReference)
      else if |list.arguments.items| != 1 then Ok(None)
      else
        var argument := list.arguments.items[0];
        if !argument.Nested? then Err(NullReference)   // `as ApiCall` yields null, then dereferenced
        else if argument.call.factory.None? || !argument.call.factory.value.MethodInvocation? then Ok(None)
        else
          var creation := argument.call.factory.value;
          if !(StartsWith(creation.name, "new ") && EndsWith(creation.name, "[]")) then Ok(None)
          else if creation.arguments.NoArguments? then Err(NullReference)
          else Ok(Some(creation.arguments.items))
  }

  /** The single argument of an `Identifier(...)` call value, when the value is such a call. */
  predicate IsIdentifierCall(cfg: Config, v: CallTree) {
    v.factory.Some? && v.factory.value.MethodInvocation?
    && v.factory.value.name == SyntaxFactoryMethod(cfg, "Identifier")
  }

  /** The message thrown when a factory method with a `string name` parameter cannot be satisfied. */
  function UnsupportedFactoryMessage(factory: FactoryMethod): string {
    "An unsupported factory method was chosen: " + factory.signature
    + "\r\nPlease add this method to the list of factoryMethodsToExclude."
  }

  /** The generic case: pass the found value, or fall back by parameter kind when there is none. */
  function BindPlain(p: Parameter, found: Option<nat>, pool: seq<CallTree>): (r: Result<Step>)
    requires found.Some? ==> found.value < |pool|
  {
    if found.Some? then Ok(Continue([Nested(pool[found.value])], RemoveAt(pool, found.value)))
    else if p.isOptional then Ok(Continue([], pool))
    else if p.parameterType.IsArray() then Ok(Continue([], pool))
    else if !p.parameterType.IsValueType() then Ok(Continue([Literal("null")], pool))
    else
      var typeName :- PrintableTypeName(p.parameterType);
      Ok(Continue([MemberArg(MethodInvocation("default", Arguments([Literal(typeName)])))], pool))
  }

  /** A `string name` parameter takes the argument of the value named exactly "Identifier". */
  function BindName(cfg: Config, factory: FactoryMethod, p: Parameter, pool: seq<CallTree>): Result<Step> {
    var j := FindNamedExactly(pool, "Identifier");
    if j.None? then Err(NotImplemented(UnsupportedFactoryMessage(factory)))
    else
      var v := pool[j.value];
      if IsIdentifierCall(cfg, v) then
        var arguments := v.factory.value.arguments;
        if arguments.NoArguments? then Err(NullReference)
        else Ok(Continue(if |arguments.items| == 1 then [arguments.items[0]] else [Nested(v)], RemoveAt(pool, j.value)))
      else BindPlain(p, j, pool)
  }

  /** A `string identifier` parameter takes the text of a one-argument Identifier(...) value. */
  function BindIdentifier(cfg: Config, p: Parameter, found: Option<nat>, pool: seq<CallTree>): Result<Step>
    requires found.Some? ==> found.value < |pool|
  {
    if found.None? then Err(NullReference)
    else
      var v := pool[found.value];
      if IsIdentifierCall(cfg, v) then
        var arguments := v.factory.value.arguments;
        if arguments.NoArguments? then Err(NullReference)
        else if |arguments.items| == 1 then Ok(Continue([arguments.items[0]], RemoveAt(pool, found.value)))
        else BindPlain(p, found, pool)
      else BindPlain(p, found, pool)
  }

  /** One iteration of AddFactoryMethodArguments' loop over the parameters. */
  function BindParameter(cfg: Config, factory: FactoryMethod, p: Parameter, pool: seq<CallTree>): Result<Step> {
    var found := FindValue(p.name, pool);
    var flatten :=
      if found.Some? && |factory.parameters| == 1 && p.isParamArray then FlattenedElements(pool[found.value])
      else Ok(None);
    if flatten.Err? then Err(flatten.error)
    else if flatten.value.Some? then Ok(Stop(flatten.value.value, RemoveAt(pool, found.value)))
    else if p.name == "name" && p.parameterType == StringType then BindName(cfg, factory, p, pool)
    else if p.name == "identifier" && p.parameterType == StringType then BindIdentifier(cfg, p, found, pool)
    else BindPlain(p, found, pool)
  }

  /** What binding the parameters from index `i` on appends, and the pool it leaves. */
  datatype Bound = Bound(added: seq<Arg>, pool: seq<CallTree>)

  /** Prepend arguments appended earlier to a binding outcome. */
  function After(added: seq<Arg>, r: Result<Bound>): Result<Bound> {
    if r.Err? then r else Ok(Bound(added + r.value.added, r.value.pool))
  }

  /** The parameters from `i` on, bound in declaration order. */
  function BindFrom(cfg: Config, factory: FactoryMethod, i: nat, pool: seq<CallTree>): Result<Bound>
    decreases |factory.parameters| - i
  {
    if i >= |factory.parameters| then Ok(Bound([], pool))
    else
      var step := BindParameter(cfg, factory, factory.parameters[i], pool);
      if step.Err? then Err(step.error)
      else if step.value.Stop? then Ok(Bound(step.value.added, step.value.pool))
      else After(step.value.added, BindFrom(cfg, factory, i + 1, step.value.pool))
  }

  lemma AfterNothing(r: Result<Bound>)
    ensures After([], r) == r
  {
    if r.Ok? {
      assert [] + r.value.added == r.value.added;
    }
  }

  lemma AfterAfter(xs: seq<Arg>, ys: seq<Arg>, r: Result<Bound>)
    ensures After(xs, After(ys, r)) == After(xs + ys, r)
  {
    if r.Ok? {
      assert xs + (ys + r.value.added) == xs + ys + r.value.added;
    }
  }

  /**
   * AddFactoryMethodArguments: bind every parameter in declaration order,
   * appending to the factory call in place and consuming the pool. On success
   * the call has gained exactly what BindFrom says and the pool is what is left.
   */
  method AddFactoryMethodArguments(cfg: Config, factory: FactoryMethod, factoryMethodCall: MethodCall,
                                   quotedValues: seq<CallTree>)
    returns (outcome: Result<seq<CallTree>>)
    modifies factoryMethodCall
    ensures factoryMethodCall.name == old(factoryMethodCall.name)
    ensures var spec := BindFrom(cfg, factory, 0, quotedValues);
            spec.Err? <==> outcome.Err?
    ensures var spec := BindFrom(cfg, factory, 0, quotedValues);
            outcome.Ok? ==> outcome.value == spec.value.pool
                            && factoryMethodCall.arguments == Appended(old(factoryMethodCall.arguments), spec.value.added)
    ensures outcome.Err? ==> outcome == Err(BindFrom(cfg, factory, 0, quotedValues).error)
  {
    var pool := quotedValues;
    ghost var done: seq<Arg> := [];
    var i := 0;
    AfterNothing(BindFrom(cfg, factory, 0, quotedValues));
    while i < |factory.parameters|
      invariant i <= |factory.parameters|
      invariant factoryMethodCall.name == old(factoryMethodCall.name)
      invariant factoryMethodCall.arguments == Appended(old(factoryMethodCall.arguments), done)
      invariant BindFrom(cfg, factory, 0, quotedValues) == After(done, BindFrom(cfg, factory, i, pool))
      decreases |factory.parameters| - i
    {
      var step := BindParameter(cfg, factory, factory.parameters[i], pool);
      if step.Err? {
        return Err(step.error);
      }
      AddArguments(factoryMethodCall, step.value.added);
      AppendedTwice(old(factoryMethodCall.arguments), done, step.value.added);
      if step.value.Stop? {
        assert step.value.added == step.value.added + [];
        return Ok(step.value.pool);
      }
      AfterAfter(done, step.value.added, BindFrom(cfg, factory, i + 1, step.value.pool));
      done := done + step.value.added;
      pool := step.value.pool;
      i := i + 1;
    }
    assert done + [] == done;
    return Ok(pool);
  }

  /** factoryMethodCall.AddArgument for each value in order. */
  method AddArguments(factoryMethodCall: MethodCall, values: seq<Arg>)
    modifies factoryMethodCall
    ensures factoryMethodCall.name == old(factoryMethodCall.name)
    ensures factoryMethodCall.arguments == Appended(old(factoryMethodCall.arguments), values)
  {
    for k := 0 to |values|
      invariant factoryMethodCall.name == old(factoryMethodCall.name)
      invariant factoryMethodCall.arguments == Appended(old(factoryMethodCall.arguments), values[..k])
    {
      factoryMethodCall.AddArgument(values[k]);
      AppendedTwice(old(factoryMethodCall.arguments), values[..k], [values[k]]);
      assert values[..k + 1] == values[..k] + [values[k]];
    }
    assert values[..|values|] == values;
  }

  // ---------------------------------------------------------------------------
  // Properties of the binding
  // ---------------------------------------------------------------------------

  /** Parameters that get no special treatment: not a string name/identifier, not a sole params array. */
  predicate IsPlainParameter(factory: FactoryMethod, p: Parameter) {
    !(p.name == "name" && p.parameterType == StringType)
    && !(p.name == "identifier" && p.parameterType == StringType)
    && !(|factory.parameters| == 1 && p.isParamArray)
  }

  /**
   * A plain parameter takes the first value whose name matches it ignoring
   * case, and that value leaves the pool.
   */
  lemma FirstMatchConsumed(cfg: Config, factory: FactoryMethod, p: Parameter, pool: seq<CallTree>, j: nat)
    requires IsPlainParameter(factory, p)
    requires j < |pool| && NameMatches(p.name, pool[j])
    requires forall k :: 0 <= k < j ==> !NameMatches(p.name, pool[k])
    ensures BindParameter(cfg, factory, p, pool) == Ok(Continue([Nested(pool[j])], RemoveAt(pool, j)))
  {
    assert FindValue(p.name, pool) == Some(j);
  }

  /**
   * A plain parameter with no matching value: nothing if optional or an
   * array, the literal null for a reference type, default(T) for a value type.
   */
  lemma UnmatchedParameter(cfg: Config, factory: FactoryMethod, p: Parameter, pool: seq<CallTree>)
    requires IsPlainParameter(factory, p)
    requires forall k :: 0 <= k < |pool| ==> !NameMatches(p.name, pool[k])
    requires WellFormedType(p.parameterType)
    ensures var r := BindParameter(cfg, factory, p, pool);
            r.Ok? && r.value.Continue? && r.value.pool == pool
            && (p.isOptional || p.parameterType.IsArray() ==> r.value.added == [])
            && (!p.isOptional && !p.parameterType.IsArray() && !p.parameterType.IsValueType()
                ==> r.value.added == [Literal("null")])
            && (!p.isOptional && p.parameterType.IsValueType()
                ==> r.value.added == [MemberArg(MethodInvocation("default",
                                        Arguments([Literal(PrintableTypeName(p.parameterType).value)])))])
  {
    PrintableTypeNameDefined(p.parameterType);
  }

  /** A `string name` parameter with no value named "Identifier" makes the quoter give up. */
  lemma NameWithoutIdentifierThrows(cfg: Config, factory: FactoryMethod, i: nat, pool: seq<CallTree>)
    requires i < |factory.parameters|
    requires factory.parameters[i].name == "name" && factory.parameters[i].parameterType == StringType
    requires !factory.parameters[i].isParamArray
    requires forall k :: 0 <= k < |pool| ==> pool[k].name != Some("Identifier")
    ensures BindParameter(cfg, factory, factory.parameters[i], pool)
            == Err(NotImplemented(UnsupportedFactoryMessage(factory)))
    ensures BindFrom(cfg, factory, i, pool) == Err(NotImplemented(UnsupportedFactoryMessage(factory)))
  {
  }

  /** What a consumed value may leave behind in the call: itself, its one Identifier argument, or its array elements. */
  predicate Emits(v: CallTree, added: seq<Arg>) {
    added == [Nested(v)]
    || (v.factory.Some? && v.factory.value.MethodInvocation? && v.factory.value.arguments.Arguments?
        && var items := v.factory.value.arguments.items;
           (added == items && |items| == 1)
           || (|items| == 1 && items[0].Nested? && items[0].call.factory.Some?
               && items[0].call.factory.value.MethodInvocation?
               && items[0].call.factory.value.arguments.Arguments?
               && added == items[0].call.factory.value.arguments.items))
  }

  /** One step either leaves the pool alone or removes one value that it emitted. */
  lemma StepConsumesOnlyEmitted(cfg: Config, factory: FactoryMethod, p: Parameter, pool: seq<CallTree>)
    ensures var r := BindParameter(cfg, factory, p, pool);
            r.Ok? ==> r.value.pool == pool
                      || exists j :: 0 <= j < |pool| && r.value.pool == RemoveAt(pool, j) && Emits(pool[j], r.value.added)
  {
    var found := FindValue(p.name, pool);
    var flatten :=
      if found.Some? && |factory.parameters| == 1 && p.isParamArray then FlattenedElements(pool[found.value])
      else Ok(None);
    if flatten.Ok? && flatten.value.Some? {
      FlattenedEmits(pool[found.value]);
    } else if flatten.Ok? && p.name == "name" && p.parameterType == StringType {
      NameConsumesOnlyEmitted(cfg, factory, p, pool);
    } else if flatten.Ok? && p.name == "identifier" && p.parameterType == StringType {
      IdentifierConsumesOnlyEmitted(cfg, p, found, pool);
    } else if flatten.Ok? {
      PlainConsumesOnlyEmitted(p, found, pool);
    }
  }

  lemma FlattenedEmits(v: CallTree)
    ensures var r := FlattenedElements(v);
            r.Ok? && r.value.Some? ==> Emits(v, r.value.value)
  {
    var r := FlattenedElements(v);
    if r.Ok? && r.value.Some? {
      var items := v.factory.value.arguments.items;
      assert |items| == 1 && items[0].Nested?;
      assert r.value.value == items[0].call.factory.value.arguments.items;
    }
  }

  lemma PlainConsumesOnlyEmitted(p: Parameter, found: Option<nat>, pool: seq<CallTree>)
    requires found.Some? ==> found.value < |pool|
    ensures var r := BindPlain(p, found, pool);
            r.Ok? ==> r.value.pool == pool
                      || (found.Some? && r.value.pool == RemoveAt(pool, found.value) && Emits(pool[found.value], r.value.added))
  {
  }

  lemma IdentifierConsumesOnlyEmitted(cfg: Config, p: Parameter, found: Option<nat>, pool: seq<CallTree>)
    requires found.Some? ==> found.value < |pool|
    ensures var r := BindIdentifier(cfg, p, found, pool);
            r.Ok? ==> r.value.pool == pool
                      || (found.Some? && r.value.pool == RemoveAt(pool, found.value) && Emits(pool[found.value], r.value.added))
  {
    PlainConsumesOnlyEmitted(p, found, pool);
  }

  lemma NameConsumesOnlyEmitted(cfg: Config, factory: FactoryMethod, p: Parameter, pool: seq<CallTree>)
    ensures var r := BindName(cfg, factory, p, pool);
            var j := FindNamedExactly(pool, "Identifier");
            r.Ok? ==> r.value.pool == pool
                      || (j.Some? && j.value < |pool| && r.value.pool == RemoveAt(pool, j.value) && Emits(pool[j.value], r.value.added))
  {
    var j := FindNamedExactly(pool, "Identifier");
    if j.Some? {
      var v := pool[j.value];
      if IsIdentifierCall(cfg, v) && v.factory.value.arguments.Arguments? {
        var items := v.factory.value.arguments.items;
        assert Emits(v, if |items| == 1 then [items[0]] else [Nested(v)]);
      } else {
        PlainConsumesOnlyEmitted(p, j, pool);
      }
    }
  }

  /** Binding never adds to the pool: what is left is a sub-multiset of what was there. */
  lemma {:induction false} BindingShrinksPool(cfg: Config, factory: FactoryMethod, i: nat, pool: seq<CallTree>)
    requires i <= |factory.parameters|
    ensures var r := BindFrom(cfg, factory, i, pool);
            r.Ok? ==> multiset(r.value.pool) <= multiset(pool) && |r.value.pool| + |factory.parameters| >= |pool| + i
    decreases |factory.parameters| - i
  {
    if i < |factory.parameters| {
      var step := BindParameter(cfg, factory, factory.parameters[i], pool);
      StepConsumesOnlyEmitted(cfg, factory, factory.parameters[i], pool);
      if step.Ok? {
        assert multiset(step.value.pool) <= multiset(pool) && |step.value.pool| + 1 >= |pool|;
        if step.value.Continue? {
          BindingShrinksPool(cfg, factory, i + 1, step.value.pool);
          var rest := BindFrom(cfg, factory, i + 1, step.value.pool);
          if rest.Ok? {
            assert BindFrom(cfg, factory, i, pool).value.pool == rest.value.pool;
          }
        }
      }
    }
  }

  // ---------------------------------------------------------------------------
  // ProperCase and the modifying calls
  // ---------------------------------------------------------------------------

  /** ProperCase: the first character upper-cased; an empty name has no first character. */
  function ProperCase(s: string): (r: Result<string>)
    ensures s == [] <==> r == Err(IndexOutOfRange)
    ensures r.Ok? ==> |r.value| == |s| && r.value[0] == ToUpperInvariant(s[0]) && r.value[1..] == s[1..]
  {
    if s == [] then Err(IndexOutOfRange) else Ok([ToUpperInvariant(s[0])] + s[1..])
  }

  lemma ToUpperIdempotent(c: char)
    ensures ToUpperInvariant(ToUpperInvariant(c)) == ToUpperInvariant(c)
  {
  }

  /** Proper-casing is idempotent and keeps the name equal to the original, ignoring case. */
  lemma ProperCaseProperties(s: string)
    requires s != []
    ensures EqualsIgnoreCase(ProperCase(s).value, s)
    ensures ProperCase(ProperCase(s).value) == ProperCase(s)
  {
    var r := ProperCase(s).value;
    ToUpperIdempotent(s[0]);
    assert r[1..] == s[1..];
    forall i | 0 <= i < |r| ensures ToUpperInvariant(r[i]) == ToUpperInvariant(s[i]) {
      if i > 0 {
        assert r[i] == s[i];
      }
    }
  }

  const BugMessage: string :=
    "Sorry, this is a bug in Quoter. Please file a bug at https://github.com/KirillOsenkov/RoslynQuoter/issues/new."

  /** The `.WithX(value)` call for a left-over value, if the node has a WithX method. */
  function ModifyingCall(instanceMethods: set<string>, v: CallTree): (r: Result<Invocation>)
    ensures r.Ok? ==> r.value.MethodInvocation? && r.value.arguments == Arguments([Nested(v)])
                      && |r.value.name| > 5 && r.value.name[..5] == ".With"
  {
    if v.name.None? then Err(NullReference)
    else
      var properCase :- ProperCase(v.name.value);
      var methodName := "With" + properCase;
      if methodName !in instanceMethods then Err(NotSupported(BugMessage))
      else Ok(MethodInvocation("." + methodName, Arguments([Nested(v)])))
  }

  /** The call tree with one more call at the end of its chain. */
  function WithCall(t: CallTree, call: Invocation): CallTree {
    t.(modifiers := Chain(t.modifiers.Calls() + [call]))
  }

  /**
   * AddModifyingCall on values: with elimination on, a call that does not
   * change the evaluated text is taken back off again (leaving an empty,
   * non-null chain behind).
   */
  function Extend(cfg: Config, render: (CallTree, bool) -> string, t: CallTree, call: Invocation): CallTree {
    var extended := WithCall(t, call);
    if cfg.removeRedundantModifyingCalls
       && render(t, cfg.useDefaultFormatting) == render(extended, cfg.useDefaultFormatting)
    then t.(modifiers := Chain(t.modifiers.Calls()))
    else extended
  }

  /** AddModifyingCall: add the call, and with elimination on remove it again if the rendering did not change. */
  method AddModifyingCall(cfg: Config, render: (CallTree, bool) -> string, apiCall: ApiCall, methodCall: MethodCall)
    requires methodCall !in apiCall.Calls()
    modifies apiCall
    ensures apiCall.Value() == Extend(cfg, render, old(apiCall.Value()), methodCall.Value())
  {
    ghost var v0 := apiCall.Value();
    ghost var w := methodCall.Value();
    ghost var calls := apiCall.Calls();
    if cfg.removeRedundantModifyingCalls {
      var before := render(apiCall.Value(), cfg.useDefaultFormatting);
      apiCall.Add(methodCall);
      ghost var added := apiCall.Value();
      assert added == WithCall(v0, w);
      var after := render(apiCall.Value(), cfg.useDefaultFormatting);
      if before == after {
        assert apiCall.Calls() == calls + [methodCall];
        RemoveFirstOfAppended(calls, methodCall);
        apiCall.Remove(methodCall);
        ghost var kept := WithoutAt(added.modifiers.Calls(), |calls|);
        assert apiCall.Value() == added.(modifiers := Chain(kept));
        assert kept == v0.modifiers.Calls();
        assert added.(modifiers := Chain(kept)) == v0.(modifiers := Chain(v0.modifiers.Calls()));
        assert Extend(cfg, render, v0, w) == v0.(modifiers := Chain(v0.modifiers.Calls()));
      } else {
        assert Extend(cfg, render, v0, w) == added;
      }
    } else {
      apiCall.Add(methodCall);
      assert Extend(cfg, render, v0, w) == WithCall(v0, w);
    }
    assert methodCall.Value() == w;
  }

  /** The call tree after the modifying calls for `values`, in pool order. */
  function ModifiedFrom(cfg: Config, render: (CallTree, bool) -> string, instanceMethods: set<string>,
                        t: CallTree, values: seq<CallTree>): Result<CallTree>
    decreases |values|
  {
    if values == [] then Ok(t)
    else
      var call :- ModifyingCall(instanceMethods, values[0]);
      ModifiedFrom(cfg, render, instanceMethods, Extend(cfg, render, t, call), values[1..])
  }

  /** AddModifyingCalls: one `.WithX(value)` per left-over value, in pool order. */
  method AddModifyingCalls(cfg: Config, render: (CallTree, bool) -> string, instanceMethods: set<string>,
                           apiCall: ApiCall, values: seq<CallTree>)
    returns (failure: Option<Exception>)
    modifies apiCall
    ensures var spec := ModifiedFrom(cfg, render, instanceMethods, old(apiCall.Value()), values);
            (failure.None? <==> spec.Ok?)
            && (failure.None? ==> apiCall.Value() == spec.value)
            && (failure.Some? ==> spec == Err(failure.value))
  {
    for i := 0 to |values|
      invariant ModifiedFrom(cfg, render, instanceMethods, old(apiCall.Value()), values)
                == ModifiedFrom(cfg, render, instanceMethods, apiCall.Value(), values[i..])
    {
      assert values[i..][1..] == values[i + 1..];
      var call := ModifyingCall(instanceMethods, values[i]);
      if call.Err? {
        return Some(call.error);
      }
      var methodCall := new MethodCall(call.value.name, call.value.arguments);
      AddModifyingCall(cfg, render, apiCall, methodCall);
    }
    return None;
  }

  /** The modifying calls for `values`, all resolved, or the first failure. */
  function ResolvedCalls(instanceMethods: set<string>, values: seq<CallTree>): Result<seq<Invocation>>
    decreases |values|
  {
    if values == [] then Ok([])
    else
      var call :- ModifyingCall(instanceMethods, values[0]);
      var rest :- ResolvedCalls(instanceMethods, values[1..]);
      Ok([call] + rest)
  }

  /** With elimination off, every left-over value's call is appended to the chain, in pool order. */
  lemma {:induction false} NoEliminationAppendsAll(cfg: Config, render: (CallTree, bool) -> string,
                                                   instanceMethods: set<string>, t: CallTree, values: seq<CallTree>)
    requires !cfg.removeRedundantModifyingCalls
    ensures var calls := ResolvedCalls(instanceMethods, values);
            var r := ModifiedFrom(cfg, render, instanceMethods, t, values);
            (r.Ok? <==> calls.Ok?)
            && (calls.Ok? && values != [] ==> r.value == t.(modifiers := Chain(t.modifiers.Calls() + calls.value)))
            && (calls.Err? ==> r == Err(calls.error))
            && (values == [] ==> r == Ok(t))
    decreases |values|
  {
    if values != [] {
      var call := ModifyingCall(instanceMethods, values[0]);
      if call.Ok? {
        var t' := WithCall(t, call.value);
        NoEliminationAppendsAll(cfg, render, instanceMethods, t', values[1..]);
        var rest := ResolvedCalls(instanceMethods, values[1..]);
        if rest.Ok? && values[1..] != [] {
          assert t.modifiers.Calls() + [call.value] + rest.value == t.modifiers.Calls() + ([call.value] + rest.value);
        } else if rest.Ok? {
          assert rest.value == [];
          assert [call.value] + rest.value == [call.value];
        }
      }
    }
  }

  /**
   * With elimination on, the chain keeps what it had as a prefix and grows by
   * at most one call per left-over value; the name, the factory call and the
   * bracket style never change.
   */
  lemma {:induction false} EliminationKeepsPrefix(cfg: Config, render: (CallTree, bool) -> string,
                                                  instanceMethods: set<string>, t: CallTree, values: seq<CallTree>)
    ensures var r := ModifiedFrom(cfg, render, instanceMethods, t, values);
            r.Ok? ==> r.value.name == t.name && r.value.factory == t.factory && r.value.useCurlies == t.useCurlies
                      && |t.modifiers.Calls()| <= |r.value.modifiers.Calls()| <= |t.modifiers.Calls()| + |values|
                      && r.value.modifiers.Calls()[..|t.modifiers.Calls()|] == t.modifiers.Calls()
    decreases |values|
  {
    if values != [] {
      var call := ModifyingCall(instanceMethods, values[0]);
      if call.Ok? {
        var t' := Extend(cfg, render, t, call.value);
        EliminationKeepsPrefix(cfg, render, instanceMethods, t', values[1..]);
        var r := ModifiedFrom(cfg, render, instanceMethods, t', values[1..]);
        if r.Ok? {
          var n := |t.modifiers.Calls()|;
          assert t'.modifiers.Calls()[..n] == t.modifiers.Calls();
          assert r.value.modifiers.Calls()[..n] == r.value.modifiers.Calls()[..|t'.modifiers.Calls()|][..n];
        }
      }
    }
  }

  /** A value whose WithX method does not exist stops the quoting with NotSupportedException. */
  lemma MissingWithMethodThrows(cfg: Config, render: (CallTree, bool) -> string, instanceMethods: set<string>,
                                t: CallTree, values: seq<CallTree>)
    requires values != [] && values[0].name.Some? && values[0].name.value != []
    requires "With" + ProperCase(values[0].name.value).value !in instanceMethods
    ensures ModifiedFrom(cfg, render, instanceMethods, t, values) == Err(NotSupported(BugMessage))
  {
  }

  // ---------------------------------------------------------------------------
  // QuoteNode and the entry points
  // ---------------------------------------------------------------------------

  /** The printed factory name: qualified by its declaring type unless `using static` shortening is on. */
  function FactoryMethodName(cfg: Config, factory: FactoryMethod): string {
    if cfg.shortenCodeWithUsingStatic then factory.name else factory.declaringType + "." + factory.name
  }

  /** The factory call of a node before its modifying calls. */
  function FactoryCall(cfg: Config, factory: FactoryMethod, name: Option<string>, bound: Bound): CallTree {
    CallTree(name, Some(MethodInvocation(FactoryMethodName(cfg, factory), Appended(NoArguments, bound.added))),
             NoChain, false)
  }

  /** QuoteNode on values: quote the properties, pick a factory, bind, then chain the rest. */
  function QuotedNode(cfg: Config, nl: string, render: (CallTree, bool) -> string,
                      buckets: map<string, seq<FactoryMethod>>, node: Node, name: Option<string>): Result<CallTree>
  {
    var values := QuotePropertyValues(cfg, nl, node);
    var factory :- PickFactoryMethodToCreateNode(buckets, node);
    var bound :- BindFrom(cfg, factory, 0, values);
    ModifiedFrom(cfg, render, node.instanceMethods, FactoryCall(cfg, factory, name, bound), bound.pool)
  }

  /** QuoteNode: build the ApiCall object for one node. */
  method QuoteNode(cfg: Config, nl: string, render: (CallTree, bool) -> string,
                   buckets: map<string, seq<FactoryMethod>>, node: Node, name: Option<string>)
    returns (r: Result<ApiCall>)
    ensures var spec := QuotedNode(cfg, nl, render, buckets, node, name);
            (r.Ok? <==> spec.Ok?) && (r.Ok? ==> fresh(r.value) && r.value.Value() == spec.value)
            && (r.Err? ==> spec == Err(r.error))
  {
    var quotedPropertyValues := QuotePropertyValues(cfg, nl, node);
    var factoryMethod := PickFactoryMethodToCreateNode(buckets, node);
    if factoryMethod.Err? {
      return Err(factoryMethod.error);
    }
    var factoryMethodCall := new MethodCall(FactoryMethodName(cfg, factoryMethod.value), NoArguments);
    var codeBlock := new ApiCall(name, factoryMethodCall);
    var bound := AddFactoryMethodArguments(cfg, factoryMethod.value, factoryMethodCall, quotedPropertyValues);
    if bound.Err? {
      return Err(bound.error);
    }
    ghost var spec := BindFrom(cfg, factoryMethod.value, 0, quotedPropertyValues);
    assert codeBlock.Value() == FactoryCall(cfg, factoryMethod.value, name, spec.value);
    var failure := AddModifyingCalls(cfg, render, node.instanceMethods, codeBlock, bound.value);
    if failure.Some? {
      return Err(failure.value);
    }
    return Ok(codeBlock);
  }

  /** The root call: the node's call, with `.NormalizeWhitespace()` chained when formatting by default. */
  function QuotedRoot(cfg: Config, nl: string, render: (CallTree, bool) -> string,
                      buckets: map<string, seq<FactoryMethod>>, node: Node): Result<CallTree>
  {
    var root :- QuotedNode(cfg, nl, render, buckets, node, None);
    Ok(if cfg.useDefaultFormatting then WithCall(root, MethodInvocation(".NormalizeWhitespace", NoArguments)) else root)
  }

  /** Quote(SyntaxNode). */
  method Quote(cfg: Config, nl: string, render: (CallTree, bool) -> string,
               buckets: map<string, seq<FactoryMethod>>, node: Node)
    returns (r: Result<ApiCall>)
    ensures var spec := QuotedRoot(cfg, nl, render, buckets, node);
            (r.Ok? <==> spec.Ok?) && (r.Ok? ==> fresh(r.value) && r.value.Value() == spec.value)
  {
    r := QuoteNode(cfg, nl, render, buckets, node, None);
    if r.Ok? && cfg.useDefaultFormatting {
      ghost var root := r.value.Value();
      var normalize := new MethodCall(".NormalizeWhitespace", NoArguments);
      assert r.value.Value() == root;
      r.value.Add(normalize);
      assert r.value.Value() == WithCall(root, normalize.Value());
    }
  }

  const ParseErrorMessage: string := "Parse error. Have you selected the right Parse As context?"

  /**
   * Quote(string, NodeKind): `parsed` is what the parser produced for the
   * text in the chosen context (None when it produced nothing).
   */
  method QuoteSource(cfg: Config, nl: string, render: (CallTree, bool) -> string,
                     buckets: map<string, seq<FactoryMethod>>, parsed: Option<Node>)
    returns (r: Result<ApiCall>)
    ensures parsed.None? ==> r.Ok? && fresh(r.value) && r.value.Value() == NameOnly(ParseErrorMessage)
    ensures parsed.Some? ==> var spec := QuotedRoot(cfg, nl, render, buckets, parsed.value);
            (r.Ok? <==> spec.Ok?) && (r.Ok? ==> fresh(r.value) && r.value.Value() == spec.value)
  {
    if parsed.None? {
      var message := new ApiCall.Named(ParseErrorMessage);
      return Ok(message);
    }
    r := Quote(cfg, nl, render, buckets, parsed.value);
  }

  /**
   * A quoted node keeps its name and the factory call binding produced; with
   * default formatting the root's chain ends in `.NormalizeWhitespace()`.
   */
  lemma QuotedRootShape(cfg: Config, nl: string, render: (CallTree, bool) -> string,
                        buckets: map<string, seq<FactoryMethod>>, node: Node)
    requires QuotedRoot(cfg, nl, render, buckets, node).Ok?
    ensures var r := QuotedRoot(cfg, nl, render, buckets, node).value;
            var factory := PickFactoryMethodToCreateNode(buckets, node).value;
            var bound := BindFrom(cfg, factory, 0, QuotePropertyValues(cfg, nl, node)).value;
            r.name.None?
            && r.factory == Some(MethodInvocation(FactoryMethodName(cfg, factory), Appended(NoArguments, bound.added)))
            && (cfg.useDefaultFormatting ==>
                  |r.modifiers.Calls()| > 0
                  && r.modifiers.Calls()[|r.modifiers.Calls()| - 1] == MethodInvocation(".NormalizeWhitespace", NoArguments))
  {
    var factory := PickFactoryMethodToCreateNode(buckets, node).value;
    var bound := BindFrom(cfg, factory, 0, QuotePropertyValues(cfg, nl, node)).value;
    EliminationKeepsPrefix(cfg, render, node.instanceMethods, FactoryCall(cfg, factory, None, bound), bound.pool);
  }
}
