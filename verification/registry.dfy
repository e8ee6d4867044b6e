/**
 * The factory-method registry: SyntaxFactory's methods bucketed by the
 * name of the node type they return, and the choice of one overload to
 * recreate a given node.
 */
module Registry {
  import opened Wrappers
  import opened Text
  import opened Syntax
  import opened Reflection

  // ---------------------------------------------------------------------------
  // Which methods are considered
  // ---------------------------------------------------------------------------

  /** Signature fragments of shortcut methods that do not map onto tree shapes. */
  const FactoryMethodsToExclude: seq<string> := [
    "DocumentationComment(",
    "XmlNewLine(",
    "XmlTextAttribute(System.String, Microsoft.CodeAnalysis.SyntaxToken[])",
    "XmlTextAttribute(System.String, System.String)",
    "XmlNameAttribute(System.String)",
    "XmlTextAttribute(Microsoft.CodeAnalysis.CSharp.Syntax.XmlNameSyntax, Microsoft.CodeAnalysis.CSharp.SyntaxKind, Microsoft.CodeAnalysis.SyntaxTokenList)"
  ]

  predicate IsExcluded(m: FactoryMethod) {
    exists i :: 0 <= i < |FactoryMethodsToExclude| && Contains(m.signature, FactoryMethodsToExclude[i])
  }

  /** Not obsolete and not excluded. */
  predicate IsIncluded(m: FactoryMethod) {
    !m.obsolete && !IsExcluded(m)
  }

  /** The included methods, in reflection order. */
  function Included(methods: seq<FactoryMethod>): (r: seq<FactoryMethod>)
    ensures forall m :: m in r <==> m in methods && IsIncluded(m)
  {
    if methods == [] then []
    else (if IsIncluded(methods[0]) then [methods[0]] else []) + Included(methods[1..])
  }

  // ---------------------------------------------------------------------------
  // Ordering by signature (ordinal)
  // ---------------------------------------------------------------------------

  /** Ordinal lexicographic order on strings. */
  predicate LexLe(a: string, b: string) {
    |a| == 0 || (|b| > 0 && (a[0] < b[0] || (a[0] == b[0] && LexLe(a[1..], b[1..]))))
  }

  lemma {:induction false} LexLeTotal(a: string, b: string)
    ensures LexLe(a, b) || LexLe(b, a)
    decreases |a|
  {
    if |a| > 0 && |b| > 0 && a[0] == b[0] {
      LexLeTotal(a[1..], b[1..]);
    }
  }

  lemma {:induction false} LexLeTransitive(a: string, b: string, c: string)
    requires LexLe(a, b) && LexLe(b, c)
    ensures LexLe(a, c)
    decreases |a|
  {
    if |a| > 0 && a[0] == b[0] && b[0] == c[0] {
      LexLeTransitive(a[1..], b[1..], c[1..]);
    }
  }

  lemma {:induction false} LexLeReflexive(a: string)
    ensures LexLe(a, a)
    decreases |a|
  {
    if |a| > 0 {
      LexLeReflexive(a[1..]);
    }
  }

  predicate SortedBySignature(s: seq<FactoryMethod>) {
    forall i, j :: 0 <= i < j < |s| ==> LexLe(s[i].signature, s[j].signature)
  }

  /** Insert before the first element whose signature is not smaller, so that `m` precedes its equals. */
  function Insert(m: FactoryMethod, s: seq<FactoryMethod>): (r: seq<FactoryMethod>)
    ensures multiset(r) == multiset(s) + multiset{m}
    ensures SortedBySignature(s) ==> SortedBySignature(r)
  {
    if s == [] then [m]
    else if LexLe(m.signature, s[0].signature) then
      InsertFrontSorted(m, s);
      [m] + s
    else
      var rest := Insert(m, s[1..]);
      assert s == [s[0]] + s[1..];
      LexLeTotal(m.signature, s[0].signature);
      InsertBehindSorted(m, s, rest);
      [s[0]] + rest
  }

  lemma InsertFrontSorted(m: FactoryMethod, s: seq<FactoryMethod>)
    requires s != [] && LexLe(m.signature, s[0].signature)
    ensures SortedBySignature(s) ==> SortedBySignature([m] + s)
  {
    if SortedBySignature(s) {
      forall j | 0 < j < |s| ensures LexLe(m.signature, s[j].signature) {
        LexLeTransitive(m.signature, s[0].signature, s[j].signature);
      }
    }
  }

  lemma InsertBehindSorted(m: FactoryMethod, s: seq<FactoryMethod>, rest: seq<FactoryMethod>)
    requires s != [] && LexLe(s[0].signature, m.signature)
    requires multiset(rest) == multiset(s[1..]) + multiset{m}
    requires SortedBySignature(s[1..]) ==> SortedBySignature(rest)
    ensures SortedBySignature(s) ==> SortedBySignature([s[0]] + rest)
  {
    if SortedBySignature(s) {
      assert SortedBySignature(s[1..]);
      forall j | 0 <= j < |rest| ensures LexLe(s[0].signature, rest[j].signature) {
        assert rest[j] in multiset(rest);
        if rest[j] != m {
          assert rest[j] in multiset(s[1..]);
          var k :| 0 <= k < |s[1..]| && s[1..][k] == rest[j];
          assert s[k + 1] == rest[j];
        }
      }
    }
  }

  /** OrderBy(m => m.ToString()): an insertion sort by signature, each element inserted in front of its equals. */
  function SortBySignature(s: seq<FactoryMethod>): (r: seq<FactoryMethod>)
    ensures multiset(r) == multiset(s)
    ensures SortedBySignature(r)
  {
    if s == [] then []
    else
      assert s == [s[0]] + s[1..];
      Insert(s[0], SortBySignature(s[1..]))
  }

  /** The methods of `s` with exactly that signature, in the order of `s`. */
  function WithSignature(s: seq<FactoryMethod>, signature: string): (r: seq<FactoryMethod>)
    ensures forall m :: m in r <==> m in s && m.signature == signature
  {
    if s == [] then []
    else (if s[0].signature == signature then [s[0]] else []) + WithSignature(s[1..], signature)
  }

  lemma WithSignatureCons(x: FactoryMethod, s: seq<FactoryMethod>, signature: string)
    ensures WithSignature([x] + s, signature) == (if x.signature == signature then [x] else []) + WithSignature(s, signature)
  {
    assert ([x] + s)[1..] == s;
  }

  lemma {:induction false} InsertWithSignature(m: FactoryMethod, s: seq<FactoryMethod>, signature: string)
    ensures WithSignature(Insert(m, s), signature)
            == (if m.signature == signature then [m] else []) + WithSignature(s, signature)
    decreases |s|
  {
    if s == [] || LexLe(m.signature, s[0].signature) {
      WithSignatureCons(m, s, signature);
    } else {
      LexLeReflexive(m.signature);
      var head := if s[0].signature == signature then [s[0]] else [];
      var mine := if m.signature == signature then [m] else [];
      var rest := WithSignature(s[1..], signature);
      calc {
        WithSignature(Insert(m, s), signature);
        WithSignature([s[0]] + Insert(m, s[1..]), signature);
        { WithSignatureCons(s[0], Insert(m, s[1..]), signature); }
        head + WithSignature(Insert(m, s[1..]), signature);
        { InsertWithSignature(m, s[1..], signature); }
        head + (mine + rest);
        { assert head == [] || mine == []; }
        mine + (head + rest);
        { WithSignatureCons(s[0], s[1..], signature); assert [s[0]] + s[1..] == s; }
        mine + WithSignature(s, signature);
      }
    }
  }

  /**
   * OrderBy is stable: the methods sharing a signature leave the sort in the
   * order they entered it.
   */
  lemma {:induction false} SortBySignatureStable(s: seq<FactoryMethod>, signature: string)
    ensures WithSignature(SortBySignature(s), signature) == WithSignature(s, signature)
    decreases |s|
  {
    if s != [] {
      SortBySignatureStable(s[1..], signature);
      InsertWithSignature(s[0], SortBySignature(s[1..]), signature);
    }
  }

  // ---------------------------------------------------------------------------
  // GetFactoryMethods
  // ---------------------------------------------------------------------------

  /** The methods of `s` returning `returnTypeName`, in the order of `s`. */
  function OfReturnType(s: seq<FactoryMethod>, returnTypeName: string): (r: seq<FactoryMethod>)
    ensures forall m :: m in r <==> m in s && m.returnTypeName == returnTypeName
  {
    if s == [] then []
    else OfReturnType(s[..|s| - 1], returnTypeName)
         + (if s[|s| - 1].returnTypeName == returnTypeName then [s[|s| - 1]] else [])
  }

  lemma {:induction false} OfReturnTypeCount(s: seq<FactoryMethod>, returnTypeName: string, m: FactoryMethod)
    ensures multiset(OfReturnType(s, returnTypeName))[m]
            == if m.returnTypeName == returnTypeName then multiset(s)[m] else 0
    decreases |s|
  {
    if s != [] {
      OfReturnTypeCount(s[..|s| - 1], returnTypeName, m);
      assert s == s[..|s| - 1] + [s[|s| - 1]];
    }
  }

  lemma {:induction false} OfReturnTypeSorted(s: seq<FactoryMethod>, returnTypeName: string)
    requires SortedBySignature(s)
    ensures SortedBySignature(OfReturnType(s, returnTypeName))
    decreases |s|
  {
    if s != [] {
      var init := s[..|s| - 1];
      assert SortedBySignature(init);
      OfReturnTypeSorted(init, returnTypeName);
      var r := OfReturnType(s, returnTypeName);
      var p := OfReturnType(init, returnTypeName);
      if s[|s| - 1].returnTypeName == returnTypeName {
        forall i, j | 0 <= i < j < |r| ensures LexLe(r[i].signature, r[j].signature) {
          if j == |r| - 1 {
            assert r[i] in p;
            var k :| 0 <= k < |init| && init[k] == r[i];
          }
        }
      }
    }
  }

  /** The sorted list of included methods the buckets are filled from. */
  function SortedIncluded(methods: seq<FactoryMethod>): seq<FactoryMethod> {
    SortBySignature(Included(methods))
  }

  /** The return-type names occurring in `s`. */
  function ReturnTypes(s: seq<FactoryMethod>): set<string> {
    set m | m in s :: m.returnTypeName
  }

  /** The dictionary GetFactoryMethods builds from a sorted method list. */
  predicate IsBucketing(buckets: map<string, seq<FactoryMethod>>, s: seq<FactoryMethod>) {
    buckets.Keys == ReturnTypes(s)
    && forall k :: k in buckets ==> buckets[k] == OfReturnType(s, k)
  }

  lemma NoBucketEmpty(s: seq<FactoryMethod>, returnTypeName: string)
    requires returnTypeName !in ReturnTypes(s)
    ensures OfReturnType(s, returnTypeName) == []
  {
  }

  /** The return types of a sequence grow by the return type of each method appended. */
  lemma ReturnTypesSnoc(prefix: seq<FactoryMethod>, m: FactoryMethod)
    ensures ReturnTypes(prefix + [m]) == ReturnTypes(prefix) + {m.returnTypeName}
  {
    var s := prefix + [m];
    forall k ensures k in ReturnTypes(s) <==> k in ReturnTypes(prefix) + {m.returnTypeName} {
      if k in ReturnTypes(s) {
        var x :| x in s && x.returnTypeName == k;
        if x != m { assert x in prefix; }
      }
      if k in ReturnTypes(prefix) {
        var x :| x in prefix && x.returnTypeName == k;
        assert x in s;
      }
    }
  }

  /** One iteration of the bucketing loop: append `m` to its bucket, creating it if needed. */
  lemma BucketStep(buckets: map<string, seq<FactoryMethod>>, prefix: seq<FactoryMethod>, m: FactoryMethod)
    requires IsBucketing(buckets, prefix)
    ensures var bucket := if m.returnTypeName in buckets then buckets[m.returnTypeName] else [];
            IsBucketing(buckets[m.returnTypeName := bucket + [m]], prefix + [m])
  {
    var s := prefix + [m];
    var rt := m.returnTypeName;
    var bucket := if rt in buckets then buckets[rt] else [];
    var nb := buckets[rt := bucket + [m]];
    assert s[..|s| - 1] == prefix;
    assert s[|s| - 1] == m;
    ReturnTypesSnoc(prefix, m);
    assert nb.Keys == ReturnTypes(s);
    forall k | k in nb ensures nb[k] == OfReturnType(s, k) {
      if k == rt && rt !in buckets {
        NoBucketEmpty(prefix, rt);
      }
    }
  }

  /** The keys of the bucketing of the sorted methods are exactly the return-type names of the included methods. */
  lemma BucketingKeys(buckets: map<string, seq<FactoryMethod>>, methods: seq<FactoryMethod>)
    requires IsBucketing(buckets, SortedIncluded(methods))
    ensures forall k :: k in buckets <==> exists m :: m in methods && IsIncluded(m) && m.returnTypeName == k
  {
    var sorted := SortedIncluded(methods);
    forall m ensures m in sorted <==> m in methods && IsIncluded(m) {
      assert m in sorted <==> m in multiset(sorted);
      assert m in Included(methods) <==> m in multiset(Included(methods));
    }
  }

  /** The foreach of GetFactoryMethods: append each method to the bucket of its return-type name. */
  method FillBuckets(sorted: seq<FactoryMethod>) returns (buckets: map<string, seq<FactoryMethod>>)
    ensures IsBucketing(buckets, sorted)
  {
    buckets := map[];
    ghost var done: seq<FactoryMethod> := [];
    assert ReturnTypes(done) == {};
    for i := 0 to |sorted|
      invariant done == sorted[..i]
      invariant IsBucketing(buckets, done)
    {
      var m := sorted[i];
      var bucket := if m.returnTypeName in buckets then buckets[m.returnTypeName] else [];
      BucketStep(buckets, done, m);
      buckets := buckets[m.returnTypeName := bucket + [m]];
      done := done + [m];
    }
    assert sorted[..|sorted|] == sorted;
  }

  /**
   * GetFactoryMethods: one bucket per return-type name of an included method,
   * holding that type's methods in signature order.
   */
  method GetFactoryMethods(methods: seq<FactoryMethod>) returns (buckets: map<string, seq<FactoryMethod>>)
    ensures forall k :: k in buckets <==> exists m :: m in methods && IsIncluded(m) && m.returnTypeName == k
    ensures forall k :: k in buckets ==> buckets[k] == OfReturnType(SortedIncluded(methods), k)
  {
    buckets := FillBuckets(SortedIncluded(methods));
    BucketingKeys(buckets, methods);
  }

  /**
   * Each bucket is in signature order and is a permutation of the included
   * methods with that return type.
   */
  lemma BucketsSortedPermutations(methods: seq<FactoryMethod>, returnTypeName: string)
    ensures SortedBySignature(OfReturnType(SortedIncluded(methods), returnTypeName))
    ensures multiset(OfReturnType(SortedIncluded(methods), returnTypeName))
            == multiset(OfReturnType(Included(methods), returnTypeName))
  {
    var sorted := SortedIncluded(methods);
    OfReturnTypeSorted(sorted, returnTypeName);
    forall m ensures multiset(OfReturnType(sorted, returnTypeName))[m]
                     == multiset(OfReturnType(Included(methods), returnTypeName))[m] {
      OfReturnTypeCount(sorted, returnTypeName, m);
      OfReturnTypeCount(Included(methods), returnTypeName, m);
    }
  }

  // ---------------------------------------------------------------------------
  // factoryMethodsByName
  // ---------------------------------------------------------------------------

  /** The dictionary's keys in the order the bucketing loop first adds them. */
  function KeyOrder(s: seq<FactoryMethod>): (r: seq<string>)
    ensures forall k :: k in r <==> k in ReturnTypes(s)
  {
    if s == [] then []
    else
      var prefix := s[..|s| - 1];
      var m := s[|s| - 1];
      assert s == prefix + [m];
      ReturnTypesSnoc(prefix, m);
      var keys := KeyOrder(prefix);
      if m.returnTypeName in keys then keys else keys + [m.returnTypeName]
  }

  /** The buckets of the given keys, one after another. */
  function BucketsOf(s: seq<FactoryMethod>, keys: seq<string>): (r: seq<FactoryMethod>)
    ensures forall m :: m in r <==> m in s && m.returnTypeName in keys
  {
    if keys == [] then []
    else OfReturnType(s, keys[0]) + BucketsOf(s, keys[1..])
  }

  /** factoryMethods.Values.SelectMany(g => g): every bucket, in key order. */
  function AllBucketed(methods: seq<FactoryMethod>): (r: seq<FactoryMethod>)
    ensures forall m :: m in r <==> m in methods && IsIncluded(m)
  {
    var sorted := SortedIncluded(methods);
    var r := BucketsOf(sorted, KeyOrder(sorted));
    assert forall m :: m in r <==> m in sorted by {
      forall m ensures m in r <==> m in sorted {
        if m in sorted { assert m.returnTypeName in ReturnTypes(sorted); }
      }
    }
    assert forall m :: m in sorted <==> m in methods && IsIncluded(m) by {
      forall m ensures m in sorted <==> m in methods && IsIncluded(m) {
        assert m in sorted <==> m in multiset(sorted);
        assert m in Included(methods) <==> m in multiset(Included(methods));
      }
    }
    r
  }

  /** The methods of `s` with that name, in the order of `s` (one GroupBy group). */
  function Named(s: seq<FactoryMethod>, name: string): (r: seq<FactoryMethod>)
    ensures forall m :: m in r <==> m in s && m.name == name
  {
    if s == [] then []
    else (if s[0].name == name then [s[0]] else []) + Named(s[1..], name)
  }

  /**
   * factoryMethodsByName: the bucketed methods grouped by method name. A name
   * has a group exactly when some included method bears it, and the group
   * holds exactly the included methods of that name.
   */
  function FactoryMethodsByName(methods: seq<FactoryMethod>): (r: map<string, seq<FactoryMethod>>)
    ensures forall name :: name in r <==> exists m :: m in methods && IsIncluded(m) && m.name == name
    ensures forall name, m :: name in r ==> (m in r[name] <==> m in methods && IsIncluded(m) && m.name == name)
  {
    var all := AllBucketed(methods);
    map name | name in (set m | m in all :: m.name) :: Named(all, name)
  }

  // ---------------------------------------------------------------------------
  // PickFactoryMethodToCreateNode
  // ---------------------------------------------------------------------------

  /** The overload that needs an alias; dropped for a using directive without one. */
  const UsingAliasSignature: string :=
    "Microsoft.CodeAnalysis.CSharp.Syntax.UsingDirectiveSyntax UsingDirective("
    + "Microsoft.CodeAnalysis.CSharp.Syntax.NameEqualsSyntax, Microsoft.CodeAnalysis.CSharp.Syntax.NameSyntax)"

  function WithoutSignature(s: seq<FactoryMethod>, signature: string): (r: seq<FactoryMethod>)
    ensures forall m :: m in r <==> m in s && m.signature != signature
  {
    if s == [] then []
    else (if s[0].signature != signature then [s[0]] else []) + WithoutSignature(s[1..], signature)
  }

  /** Filtering by signature distributes over concatenation, so the kept candidates stay in order. */
  lemma {:induction false} WithoutSignatureAppend(a: seq<FactoryMethod>, b: seq<FactoryMethod>, signature: string)
    ensures WithoutSignature(a + b, signature) == WithoutSignature(a, signature) + WithoutSignature(b, signature)
    decreases |a|
  {
    if a == [] {
      assert a + b == b;
    } else {
      assert (a + b)[0] == a[0];
      assert (a + b)[1..] == a[1..] + b;
      WithoutSignatureAppend(a[1..], b, signature);
      var head := if a[0].signature != signature then [a[0]] else [];
      var left, right := WithoutSignature(a[1..], signature), WithoutSignature(b, signature);
      assert head + (left + right) == head + left + right;
    }
  }

  /** A using directive without an alias cannot be built by the overload that takes one. */
  predicate DropsAliasOverload(node: Node) {
    Is(node, "UsingDirectiveSyntax") && !node.hasAlias
  }

  /** The candidates deliberated over: the bucket, without the alias overload for an alias-less using directive. */
  function CandidatesFor(bucket: seq<FactoryMethod>, node: Node): (r: seq<FactoryMethod>)
    ensures forall m :: m in r <==> m in bucket && !(DropsAliasOverload(node) && m.signature == UsingAliasSignature)
    ensures !DropsAliasOverload(node) ==> r == bucket
  {
    if DropsAliasOverload(node) then WithoutSignature(bucket, UsingAliasSignature)
    else bucket
  }

  function MinParameterCount(s: seq<FactoryMethod>): (r: nat)
    requires s != []
    ensures exists i :: 0 <= i < |s| && |s[i].parameters| == r
    ensures forall i :: 0 <= i < |s| ==> r <= |s[i].parameters|
  {
    if |s| == 1 then |s[0].parameters|
    else
      var rest := MinParameterCount(s[1..]);
      if |s[0].parameters| <= rest then |s[0].parameters| else rest
  }

  /** A literal other than true/false/null needs the two-parameter Literal overload. */
  predicate ForcesTwoParameters(node: Node) {
    Is(node, "LiteralExpressionSyntax")
    && node.kind != "TrueLiteralExpression" && node.kind != "FalseLiteralExpression"
    && node.kind != "NullLiteralExpression"
  }

  /** Type declarations and identifier names prefer the overload taking a string first. */
  predicate PrefersStringFirst(node: Node) {
    Is(node, "BaseTypeDeclarationSyntax") || Is(node, "IdentifierNameSyntax")
  }

  predicate StringFirst(m: FactoryMethod) {
    |m.parameters| > 0 && m.parameters[0].parameterType == StringType
  }

  /**
   * FirstOrDefault(m => m.GetParameters()[0].ParameterType == typeof(string)):
   * indexing the first parameter of a parameterless method throws.
   */
  function FirstStringFirst(s: seq<FactoryMethod>): (r: Result<Option<FactoryMethod>>)
    ensures r.Ok? && r.value.Some? ==> r.value.value in s && StringFirst(r.value.value)
    ensures r.Err? ==> r.error == IndexOutOfRange
  {
    if s == [] then Ok(None)
    else if |s[0].parameters| == 0 then Err(IndexOutOfRange)
    else if s[0].parameters[0].parameterType == StringType then Ok(Some(s[0]))
    else FirstStringFirst(s[1..])
  }

  function WithParameterCount(s: seq<FactoryMethod>, count: nat): (r: seq<FactoryMethod>)
    ensures forall m :: m in r <==> m in s && |m.parameters| == count
  {
    if s == [] then []
    else (if |s[0].parameters| == count then [s[0]] else []) + WithParameterCount(s[1..], count)
  }

  predicate ParamArrayFirst(m: FactoryMethod) {
    |m.parameters| > 0 && m.parameters[0].isParamArray
  }

  predicate OptionalFirst(m: FactoryMethod) {
    |m.parameters| > 0 && m.parameters[0].isOptional
  }

  /** FirstOrDefault over the params-first overloads: the first of them in the order of `s`. */
  function FirstParamArrayFirst(s: seq<FactoryMethod>): (r: Option<FactoryMethod>)
    ensures r.Some? <==> exists m :: m in s && ParamArrayFirst(m)
    ensures r.Some? ==> r.value in s && ParamArrayFirst(r.value)
    ensures r.Some? ==> exists i :: 0 <= i < |s| && s[i] == r.value
                                    && forall j :: 0 <= j < i ==> !ParamArrayFirst(s[j])
  {
    if s == [] then None
    else if ParamArrayFirst(s[0]) then Some(s[0])
    else
      var r := FirstParamArrayFirst(s[1..]);
      assert r.Some? ==> exists i :: 0 <= i < |s[1..]| && s[1..][i] == r.value
                                     && forall j :: 0 <= j < i ==> !ParamArrayFirst(s[1..][j]);
      assert r.Some? ==> exists i :: 1 <= i < |s| && s[i] == r.value
                                     && forall j :: 0 <= j < i ==> !ParamArrayFirst(s[j]) by {
        if r.Some? {
          var i :| 0 <= i < |s[1..]| && s[1..][i] == r.value
                   && forall j :: 0 <= j < i ==> !ParamArrayFirst(s[1..][j]);
          assert forall j :: 0 <= j < i + 1 ==> !ParamArrayFirst(s[j]) by {
            forall j | 0 <= j < i + 1 ensures !ParamArrayFirst(s[j]) {
              if j > 0 { assert s[j] == s[1..][j - 1]; }
            }
          }
        }
      }
      r
  }

  /** FirstOrDefault over the overloads whose first parameter is optional: the first of them in the order of `s`. */
  function FirstOptionalFirst(s: seq<FactoryMethod>): (r: Option<FactoryMethod>)
    ensures r.Some? <==> exists m :: m in s && OptionalFirst(m)
    ensures r.Some? ==> r.value in s && OptionalFirst(r.value)
    ensures r.Some? ==> exists i :: 0 <= i < |s| && s[i] == r.value
                                    && forall j :: 0 <= j < i ==> !OptionalFirst(s[j])
  {
    if s == [] then None
    else if OptionalFirst(s[0]) then Some(s[0])
    else
      var r := FirstOptionalFirst(s[1..]);
      assert r.Some? ==> exists i :: 1 <= i < |s| && s[i] == r.value
                                     && forall j :: 0 <= j < i ==> !OptionalFirst(s[j]) by {
        if r.Some? {
          var i :| 0 <= i < |s[1..]| && s[1..][i] == r.value
                   && forall j :: 0 <= j < i ==> !OptionalFirst(s[1..][j]);
          assert forall j :: 0 <= j < i + 1 ==> !OptionalFirst(s[j]) by {
            forall j | 0 <= j < i + 1 ensures !OptionalFirst(s[j]) {
              if j > 0 { assert s[j] == s[1..][j - 1]; }
            }
          }
        }
      }
      r
  }

  /** The overloads with exactly the chosen parameter count: params first, then optional first (for one parameter), else the first. */
  function PickByParameterCount(candidates: seq<FactoryMethod>, count: nat): (r: Result<FactoryMethod>)
    ensures r.Ok? ==> r.value in candidates && |r.value.parameters| == count
    ensures r.Err? <==> WithParameterCount(candidates, count) == []
    ensures count == 1 && |WithParameterCount(candidates, 1)| > 1
            && (exists m :: m in WithParameterCount(candidates, 1) && ParamArrayFirst(m))
            ==> r.Ok? && ParamArrayFirst(r.value)
    ensures count == 1 && |WithParameterCount(candidates, 1)| > 1
            && (exists m :: m in WithParameterCount(candidates, 1) && OptionalFirst(m))
            ==> r.Ok? && (ParamArrayFirst(r.value) || OptionalFirst(r.value))
  {
    var withCount := WithParameterCount(candidates, count);
    var paramArray := FirstParamArrayFirst(withCount);
    var optional := FirstOptionalFirst(withCount);
    if count == 1 && |withCount| > 1 && paramArray.Some? then Ok(paramArray.value)
    else if count == 1 && |withCount| > 1 && optional.Some? then Ok(optional.value)
    else if withCount == [] then Err(IndexOutOfRange)
    else Ok(withCount[0])
  }

  /** The deliberation among two or more overloads (or none left after the using-directive filter). */
  function PickAmong(candidates: seq<FactoryMethod>, node: Node): (r: Result<FactoryMethod>)
    ensures r.Ok? ==> r.value in candidates
    ensures r.Err? ==> r.error == InvalidOperation || r.error == IndexOutOfRange
  {
    if candidates == [] then Err(InvalidOperation)   // Min over an empty sequence
    else
      var count := if ForcesTwoParameters(node) then 2 else MinParameterCount(candidates);
      var preferred := if PrefersStringFirst(node) then FirstStringFirst(candidates) else Ok(None);
      if preferred.Err? then Err(preferred.error)
      else if preferred.value.Some? then Ok(preferred.value.value)
      else PickByParameterCount(candidates, count)
  }

  /** PickFactoryMethodToCreateNode over the buckets GetFactoryMethods built. */
  function PickFactoryMethodToCreateNode(buckets: map<string, seq<FactoryMethod>>, node: Node): (r: Result<FactoryMethod>)
    ensures r == Err(NotSupported(node.typeName + " is not supported")) <==> node.typeName !in buckets
    ensures r.Ok? ==> node.typeName in buckets && r.value in buckets[node.typeName]
    ensures node.typeName in buckets && |buckets[node.typeName]| == 1 ==> r == Ok(buckets[node.typeName][0])
  {
    if node.typeName !in buckets then Err(NotSupported(node.typeName + " is not supported"))
    else
      var bucket := buckets[node.typeName];
      if |bucket| == 1 then Ok(bucket[0])
      else PickAmong(CandidatesFor(bucket, node), node)
  }

  /**
   * Among several overloads, outside the literal and string-first special
   * cases, the pick has the fewest parameters of all candidates.
   */
  lemma PickHasMinimalArity(buckets: map<string, seq<FactoryMethod>>, node: Node)
    requires node.typeName in buckets && |buckets[node.typeName]| != 1
    requires !ForcesTwoParameters(node) && !PrefersStringFirst(node)
    requires CandidatesFor(buckets[node.typeName], node) != []
    ensures var r := PickFactoryMethodToCreateNode(buckets, node);
            r.Ok? && forall m :: m in CandidatesFor(buckets[node.typeName], node) ==>
                                   |r.value.parameters| <= |m.parameters|
  {
    PickedHasMinimalCount(buckets, node);
    MinimalCountBelowAll(CandidatesFor(buckets[node.typeName], node));
  }

  lemma PickedHasMinimalCount(buckets: map<string, seq<FactoryMethod>>, node: Node)
    requires node.typeName in buckets && |buckets[node.typeName]| != 1
    requires !ForcesTwoParameters(node) && !PrefersStringFirst(node)
    requires CandidatesFor(buckets[node.typeName], node) != []
    ensures var r := PickFactoryMethodToCreateNode(buckets, node);
            r.Ok? && |r.value.parameters| == MinParameterCount(CandidatesFor(buckets[node.typeName], node))
  {
    var candidates := CandidatesFor(buckets[node.typeName], node);
    assert PickFactoryMethodToCreateNode(buckets, node) == PickAmong(candidates, node);
    PickAmongMinimal(candidates, node);
  }

  /** Outside the special cases, the deliberation succeeds with the minimal parameter count. */
  lemma PickAmongMinimal(candidates: seq<FactoryMethod>, node: Node)
    requires candidates != []
    requires !ForcesTwoParameters(node) && !PrefersStringFirst(node)
    ensures PickAmong(candidates, node).Ok?
    ensures |PickAmong(candidates, node).value.parameters| == MinParameterCount(candidates)
  {
    var count := MinParameterCount(candidates);
    var i :| 0 <= i < |candidates| && |candidates[i].parameters| == count;
    assert candidates[i] in WithParameterCount(candidates, count);
    assert PickAmong(candidates, node) == PickByParameterCount(candidates, count);
  }

  lemma MinimalCountBelowAll(candidates: seq<FactoryMethod>)
    requires candidates != []
    ensures forall m :: m in candidates ==> MinParameterCount(candidates) <= |m.parameters|
  {
    forall m | m in candidates ensures MinParameterCount(candidates) <= |m.parameters| {
      var j :| 0 <= j < |candidates| && candidates[j] == m;
    }
  }

  lemma {:induction false} NoneWithParameterCount(s: seq<FactoryMethod>, count: nat)
    requires forall m :: m in s ==> |m.parameters| != count
    ensures WithParameterCount(s, count) == []
  {
    if s != [] {
      assert s[0] in s;
      NoneWithParameterCount(s[1..], count);
    }
  }

  /** A literal other than true/false/null gets a two-parameter overload, or IndexOutOfRange when there is none. */
  lemma LiteralPicksTwoParameters(buckets: map<string, seq<FactoryMethod>>, node: Node)
    requires node.typeName in buckets && |buckets[node.typeName]| != 1
    requires ForcesTwoParameters(node) && !PrefersStringFirst(node)
    requires CandidatesFor(buckets[node.typeName], node) != []
    ensures var r := PickFactoryMethodToCreateNode(buckets, node);
            (r.Ok? ==> |r.value.parameters| == 2)
            && (r == Err(IndexOutOfRange)
                <==> forall m :: m in CandidatesFor(buckets[node.typeName], node) ==> |m.parameters| != 2)
  {
    var candidates := CandidatesFor(buckets[node.typeName], node);
    if forall m :: m in candidates ==> |m.parameters| != 2 {
      NoneWithParameterCount(candidates, 2);
    }
  }

  /** With several one-parameter overloads, a params-array overload wins, and the first such in signature order. */
  lemma ParamArrayOverloadPreferred(buckets: map<string, seq<FactoryMethod>>, node: Node)
    requires node.typeName in buckets && |buckets[node.typeName]| != 1
    requires !ForcesTwoParameters(node) && !PrefersStringFirst(node)
    requires var candidates := CandidatesFor(buckets[node.typeName], node);
             candidates != [] && MinParameterCount(candidates) == 1
             && |WithParameterCount(candidates, 1)| > 1
             && exists m :: m in WithParameterCount(candidates, 1) && ParamArrayFirst(m)
    ensures PickFactoryMethodToCreateNode(buckets, node)
            == Ok(FirstParamArrayFirst(WithParameterCount(CandidatesFor(buckets[node.typeName], node), 1)).value)
  {
  }

  /**
   * With several one-parameter overloads and no params-array one, an
   * overload whose parameter is optional wins, and the first such.
   */
  lemma OptionalOverloadPreferred(buckets: map<string, seq<FactoryMethod>>, node: Node)
    requires node.typeName in buckets && |buckets[node.typeName]| != 1
    requires !ForcesTwoParameters(node) && !PrefersStringFirst(node)
    requires var candidates := CandidatesFor(buckets[node.typeName], node);
             candidates != [] && MinParameterCount(candidates) == 1
             && |WithParameterCount(candidates, 1)| > 1
             && (forall m :: m in WithParameterCount(candidates, 1) ==> !ParamArrayFirst(m))
             && exists m :: m in WithParameterCount(candidates, 1) && OptionalFirst(m)
    ensures PickFactoryMethodToCreateNode(buckets, node)
            == Ok(FirstOptionalFirst(WithParameterCount(CandidatesFor(buckets[node.typeName], node), 1)).value)
  {
    var candidates := CandidatesFor(buckets[node.typeName], node);
    assert FirstParamArrayFirst(WithParameterCount(candidates, 1)).None?;
  }

  /**
   * A type declaration or identifier name whose overloads all take
   * parameters gets the first overload taking a string first, if any.
   */
  lemma StringOverloadPreferred(buckets: map<string, seq<FactoryMethod>>, node: Node, i: nat)
    requires node.typeName in buckets && |buckets[node.typeName]| != 1 && PrefersStringFirst(node)
    requires var candidates := CandidatesFor(buckets[node.typeName], node);
             i < |candidates| && StringFirst(candidates[i])
             && forall j :: 0 <= j < i ==> |candidates[j].parameters| > 0 && !StringFirst(candidates[j])
    ensures PickFactoryMethodToCreateNode(buckets, node) == Ok(CandidatesFor(buckets[node.typeName], node)[i])
  {
    FirstStringFirstAt(CandidatesFor(buckets[node.typeName], node), i);
  }

  lemma {:induction false} FirstStringFirstAt(s: seq<FactoryMethod>, i: nat)
    requires i < |s| && StringFirst(s[i])
    requires forall j :: 0 <= j < i ==> |s[j].parameters| > 0 && !StringFirst(s[j])
    ensures FirstStringFirst(s) == Ok(Some(s[i]))
    decreases i
  {
    if i > 0 {
      FirstStringFirstAt(s[1..], i - 1);
    }
  }
}
