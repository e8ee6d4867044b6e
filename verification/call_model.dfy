/**
 * The quoter's intermediate representation: a tree of factory calls, each
 * optionally followed by a chain of instance ("modifying") method calls.
 *
 * The values (CallTree, Invocation, Arg) are what the printer, the pool of
 * quoted property values and the interpreter consume. The two classes are the
 * objects the quoter builds and then mutates in place: a MethodCall whose
 * argument list is created lazily by AddArgument, and an ApiCall whose chain
 * of instance calls grows by Add and shrinks by Remove.
 */
module CallModel {
  import opened Wrappers

  /** One element of a method call's argument list. */
  datatype Arg =
    | Literal(text: string)          // a string: literal source text such as "\"C\"", "null" or "true"
    | KindArg(kind: string)          // a SyntaxKind value, printed as SyntaxKind.<kind>
    | Nested(call: CallTree)         // an ApiCall
    | MemberArg(member: Invocation)  // a MemberCall or MethodCall, such as default(SyntaxToken)

  /** A method call's argument list, which is null until the first argument is added. */
  datatype ArgList = NoArguments | Arguments(items: seq<Arg>)
  {
    function Items(): seq<Arg> {
      if Arguments? then items else []
    }
  }

  /** MemberCall (a bare name) and its subclass MethodCall (a name with an argument list). */
  datatype Invocation =
    | MemberAccess(name: string)
    | MethodInvocation(name: string, arguments: ArgList)

  /** An ApiCall's list of instance calls, which is null until the first one is added. */
  datatype CallChain = NoChain | Chain(calls: seq<Invocation>)
  {
    function Calls(): seq<Invocation> {
      if Chain? then calls else []
    }
  }

  /** The value of an ApiCall: property name, factory call, instance calls, brace style. */
  datatype CallTree = CallTree(
    name: Option<string>,
    factory: Option<Invocation>,
    modifiers: CallChain,
    useCurlies: bool)

  /** new ApiCall(text): a name and nothing else. */
  function NameOnly(text: string): CallTree {
    CallTree(Some(text), None, NoChain, false)
  }

  /** new ApiCall(parentPropertyName, factoryMethodName): a member access. */
  function MemberApiCall(parentPropertyName: Option<string>, factoryMethodName: string): CallTree {
    CallTree(parentPropertyName, Some(MemberAccess(factoryMethodName)), NoChain, false)
  }

  /** new ApiCall(parentPropertyName, factoryMethodName, arguments, useCurlies). */
  function MethodApiCall(parentPropertyName: Option<string>, factoryMethodName: string,
                         arguments: ArgList, useCurlies: bool): CallTree {
    CallTree(parentPropertyName, Some(MethodInvocation(factoryMethodName, arguments)), NoChain, useCurlies)
  }

  /** The argument list after appending `added` one AddArgument at a time. */
  function Appended(arguments: ArgList, added: seq<Arg>): (r: ArgList)
    ensures added == [] ==> r == arguments
    ensures added != [] ==> r == Arguments(arguments.Items() + added)
  {
    if added == [] then arguments else Arguments(arguments.Items() + added)
  }

  lemma AppendedTwice(arguments: ArgList, xs: seq<Arg>, ys: seq<Arg>)
    ensures Appended(Appended(arguments, xs), ys) == Appended(arguments, xs + ys)
  {
    if ys == [] {
      assert xs + ys == xs;
    } else if xs == [] {
      assert xs + ys == ys;
    } else {
      assert arguments.Items() + xs + ys == arguments.Items() + (xs + ys);
    }
  }

  /** A method call whose argument list the quoter fills in place. */
  class MethodCall {
    var name: string
    var arguments: ArgList

    constructor (name: string, arguments: ArgList)
      ensures this.name == name && this.arguments == arguments
    {
      this.name := name;
      this.arguments := arguments;
    }

    function Value(): Invocation
      reads this
    {
      MethodInvocation(name, arguments)
    }

    /** AddArgument: create the list on first use, then append. */
    method AddArgument(value: Arg)
      modifies this
      ensures name == old(name)
      ensures arguments == Arguments(old(arguments).Items() + [value])
      ensures arguments == Appended(old(arguments), [value])
    {
      if arguments.NoArguments? {
        arguments := Arguments([]);
      }
      arguments := Arguments(arguments.items + [value]);
    }
  }

  /** The values of a sequence of method-call objects, in order. */
  function ValuesOf(calls: seq<MethodCall>): (r: seq<Invocation>)
    reads set m | m in calls
    ensures |r| == |calls|
    ensures forall i :: 0 <= i < |calls| ==> r[i] == calls[i].Value()
  {
    if calls == [] then [] else [calls[0].Value()] + ValuesOf(calls[1..])
  }

  /** The position of the first occurrence of `m` (by reference), or -1. */
  function IndexOfCall(calls: seq<MethodCall>, m: MethodCall): (i: int)
    ensures -1 <= i < |calls|
    ensures 0 <= i ==> calls[i] == m && m !in calls[..i]
    ensures i < 0 <==> m !in calls
  {
    if calls == [] then -1
    else if calls[0] == m then 0
    else
      var j := IndexOfCall(calls[1..], m);
      assert 0 <= j ==> calls[..j + 1] == [calls[0]] + calls[1..][..j];
      if j < 0 then -1 else j + 1
  }

  /** The calls without the first occurrence of `m` (List.Remove by reference). */
  function RemoveFirst(calls: seq<MethodCall>, m: MethodCall): (r: seq<MethodCall>)
    ensures m !in calls ==> r == calls
    ensures m in calls ==> |r| == |calls| - 1 && multiset(r) + multiset{m} == multiset(calls)
  {
    var i := IndexOfCall(calls, m);
    if i < 0 then calls
    else
      assert calls == calls[..i] + [calls[i]] + calls[i + 1..];
      calls[..i] + calls[i + 1..]
  }

  lemma RemoveFirstOfAppended(calls: seq<MethodCall>, m: MethodCall)
    requires m !in calls
    ensures IndexOfCall(calls + [m], m) == |calls|
    ensures RemoveFirst(calls + [m], m) == calls
  {
    assert forall k :: 0 <= k < |calls| ==> (calls + [m])[k] == calls[k] != m;
    assert (calls + [m])[..|calls|] == calls;
  }

  /** Dropping position i (or nothing, for a negative i) from a sequence of call values. */
  function WithoutAt(values: seq<Invocation>, i: int): seq<Invocation>
    requires i < |values|
  {
    if i < 0 then values else values[..i] + values[i + 1..]
  }

  lemma ValuesOfRemoveFirst(calls: seq<MethodCall>, m: MethodCall)
    ensures ValuesOf(RemoveFirst(calls, m)) == WithoutAt(ValuesOf(calls), IndexOfCall(calls, m))
  {
    var i := IndexOfCall(calls, m);
    if 0 <= i {
      var r := RemoveFirst(calls, m);
      var values := ValuesOf(calls);
      var left := ValuesOf(r);
      var right := values[..i] + values[i + 1..];
      assert r == calls[..i] + calls[i + 1..];
      assert |left| == |right|;
      forall k | 0 <= k < |left|
        ensures left[k] == right[k]
      {
        if k < i {
          assert r[k] == calls[k];
        } else {
          assert r[k] == calls[k + 1];
        }
      }
      assert left == right;
    }
  }

  /** An ApiCall under construction: its factory call and its chain of instance calls. */
  class ApiCall {
    var name: Option<string>
    const factoryMethodCall: MethodCall?
    var instanceMethodCalls: Option<seq<MethodCall>>

    /** new ApiCall(text). */
    constructor Named(text: string)
      ensures name == Some(text) && factoryMethodCall == null && instanceMethodCalls == None
    {
      name := Some(text);
      factoryMethodCall := null;
      instanceMethodCalls := None;
    }

    /** new ApiCall(name, factoryMethodCall): the factory call object is shared, not copied. */
    constructor (name: Option<string>, factoryMethodCall: MethodCall)
      ensures this.name == name && this.factoryMethodCall == factoryMethodCall
      ensures instanceMethodCalls == None
    {
      this.name := name;
      this.factoryMethodCall := factoryMethodCall;
      instanceMethodCalls := None;
    }

    function Calls(): seq<MethodCall>
      reads this
    {
      instanceMethodCalls.GetOr([])
    }

    /** Every object the value of this ApiCall depends on. */
    function Repr(): set<object>
      reads this
    {
      {this} + (if factoryMethodCall != null then {factoryMethodCall} else {}) + (set m | m in Calls())
    }

    function Value(): CallTree
      reads Repr()
    {
      CallTree(
        name,
        if factoryMethodCall != null then Some(factoryMethodCall.Value()) else None,
        if instanceMethodCalls.Some? then Chain(ValuesOf(instanceMethodCalls.value)) else NoChain,
        false)
    }

    /** Add: create the chain on first use, then append the call. */
    method Add(methodCall: MethodCall)
      modifies this
      ensures name == old(name)
      ensures instanceMethodCalls == Some(old(Calls()) + [methodCall])
      ensures Value() == old(Value()).(modifiers := Chain(old(Value()).modifiers.Calls() + [methodCall.Value()]))
    {
      if instanceMethodCalls.None? {
        instanceMethodCalls := Some([]);
      }
      instanceMethodCalls := Some(instanceMethodCalls.value + [methodCall]);
      assert ValuesOf(instanceMethodCalls.value) == ValuesOf(old(Calls())) + [methodCall.Value()];
    }

    /** Remove: take the first occurrence of that very object out of the chain, if there is a chain. */
    method Remove(methodCall: MethodCall)
      modifies this
      ensures name == old(name)
      ensures old(instanceMethodCalls).None? ==> instanceMethodCalls == None
      ensures old(instanceMethodCalls).Some? ==>
                instanceMethodCalls == Some(RemoveFirst(old(instanceMethodCalls.value), methodCall))
      ensures old(instanceMethodCalls).Some? ==>
                Value() == old(Value()).(modifiers := Chain(WithoutAt(old(Value()).modifiers.Calls(),
                                                                      IndexOfCall(old(Calls()), methodCall))))
    {
      if instanceMethodCalls.None? {
        return;
      }
      var calls := instanceMethodCalls.value;
      ValuesOfRemoveFirst(calls, methodCall);
      ghost var remaining := ValuesOf(RemoveFirst(calls, methodCall));
      instanceMethodCalls := Some(RemoveFirst(calls, methodCall));
      assert ValuesOf(instanceMethodCalls.value) == remaining;
    }
  }
}
