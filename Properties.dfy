/** What the generator's output is guaranteed to look like: the method
    classification, the argument block (through a decoder that reads it
    back), the classes emitted for the candidates and nothing else, the
    file layout, and how the query probe relates to generation. */
module GeneratorProperties {
  import opened Text
  import opened Syntax
  import opened BindingClassGenerator

  // ---------------------------------------------------------------------
  // Method bodies, one rendering per kind
  // ---------------------------------------------------------------------

  /** A forwarding body: one dispatch call returned inside try/catch-rethrow. */
  function ForwardingBody(operation: string, m: MethodDeclaration): string
  {
    Line(TryLine)
    + Line(ReturnPrefix + operation + "(" + GetCurrentMethod + ArgumentBlock(m) + ");")
    + Line(CatchLine)
  }

  /** The body each kind of method is meant to get. */
  function BodyOfKind(kind: MethodKind, m: MethodDeclaration): string
  {
    match kind
    case AsyncVoid => ForwardingBody("CallVoidMethodAsync", m)
    case AsyncValue(resultTypes) => ForwardingBody("CallMethodAsync<" + Join(", ", resultTypes) + ">", m)
    case SyncUnsupported => Line(NotSupportedLine)
  }

  /** The emitter's flag-driven branches produce the per-kind body: both
      async kinds forward inside try/catch-rethrow, to the void dispatch
      or to the dispatch typed by the result types; a synchronous method
      gets the single NotImplementedException line. */
  lemma MethodBodyByKind(m: MethodDeclaration)
    ensures MethodBody(m) == BodyOfKind(KindOf(m), m)
  {
    var async := IsAsyncMethod(m);
    if async.holds {
      var operation := if async.names.None? then "CallVoidMethodAsync"
                       else "CallMethodAsync<" + Join(", ", async.names.value) + ">";
      assert DispatchTarget(async.names) == operation + "(" + GetCurrentMethod;
      ForwardingRegrouped(operation, ArgumentBlock(m));
      assert MethodBody(m) == ForwardingBody(operation, m);
    }
  }

  lemma ForwardingRegrouped(operation: string, arguments: string)
    ensures Line(TryLine) + ReturnPrefix + (operation + "(" + GetCurrentMethod) + arguments + ");" + Line("") + Line(CatchLine)
            == Line(TryLine) + Line(ReturnPrefix + operation + "(" + GetCurrentMethod + arguments + ");") + Line(CatchLine)
  {
    var t := Line(TryLine);
    var p := ReturnPrefix;
    AppendAssociative(p, operation, "(");
    AppendAssociative(p, operation + "(", GetCurrentMethod);
    var target := operation + "(" + GetCurrentMethod;
    assert p + target == p + operation + "(" + GetCurrentMethod;
    AppendAssociative(t, p, target);
    AppendAssociative(t, p + target, arguments);
    AppendAssociative(t, p + target + arguments, ");");
    AppendAssociative(t, p + target + arguments + ");", Line(""));
    assert Line("") == NewLine;
  }

  /** A synchronous method's body is the one unsupported-method line, the
      same for every type-parameter list and parameter list. */
  lemma SyncStubForEveryShape(m: MethodDeclaration, typeParameters: Option<seq<string>>, parameters: seq<string>)
    requires KindOf(m).SyncUnsupported?
    ensures MethodBody(m) == Line(NotSupportedLine)
    ensures MethodText(m.(typeParameters := typeParameters, parameters := parameters)) == MethodText(m)
  {
  }

  /** The kind depends on the return type alone: two methods with the same
      return type have the same kind, whatever their type parameters,
      parameters and signatures. */
  lemma KindFromReturnType(m1: MethodDeclaration, m2: MethodDeclaration)
    requires m1.returnType == m2.returnType
    ensures KindOf(m1) == KindOf(m2)
  {
  }

  // ---------------------------------------------------------------------
  // The argument block, read back
  // ---------------------------------------------------------------------

  /** The arguments a dispatch call passes after the method handle. */
  datatype CallArguments = CallArguments(typeArguments: Option<seq<string>>, values: seq<string>)

  const TypeArrayOpen: string := "new Type[] { "
  const ObjectArrayOpen: string := "new object[] { "

  /** The first position of c in s, or |s|. */
  function IndexOfChar(s: string, c: char): (k: nat)
    ensures k <= |s|
    ensures k < |s| ==> s[k] == c
    ensures forall i :: 0 <= i < k ==> s[i] != c
  {
    if |s| == 0 then 0 else if s[0] == c then 0 else 1 + IndexOfChar(s[1..], c)
  }

  /** The entries of a comma-separated list, none when it is empty. */
  function ListEntries(inner: string): seq<string>
  {
    if inner == "" then [] else Fields(inner)
  }

  predicate IsTypeofEntry(e: string)
  {
    |e| >= 8 && e[..7] == "typeof(" && e[|e| - 1] == ')'
  }

  function DecodeTypeArray(inner: string): Option<seq<string>>
  {
    var entries := ListEntries(inner);
    if forall i :: 0 <= i < |entries| ==> IsTypeofEntry(entries[i]) then
      Some(seq(|entries|, i requires 0 <= i < |entries| && IsTypeofEntry(entries[i]) => entries[i][7..|entries[i]| - 1]))
    else None
  }

  function DecodeObjectArray(s: string): Option<seq<string>>
  {
    if |s| >= |ObjectArrayOpen| + 2 && s[..|ObjectArrayOpen|] == ObjectArrayOpen && s[|s| - 2..] == " }" then
      Some(ListEntries(s[|ObjectArrayOpen|..|s| - 2]))
    else None
  }

  /** Reads what follows `new Type[] { `: the type array's entries, then
      the object array. */
  function DecodeTypedArguments(u: string): Option<CallArguments>
  {
    var k := IndexOfChar(u, '}');
    if 1 <= k && k + 3 <= |u| && u[k - 1..k + 3] == " }, " then
      match (DecodeTypeArray(u[..k - 1]), DecodeObjectArray(u[k + 3..]))
      case (Some(ts), Some(vs)) => Some(CallArguments(Some(ts), vs))
      case _ => None
    else None
  }

  /** Reads an argument block back into type-parameter names (None when
      there is no type array) and parameter names. */
  function DecodeArgumentBlock(s: string): Option<CallArguments>
  {
    if s == "" then Some(CallArguments(None, []))
    else if |s| < 2 || s[..2] != ", " then None
    else
      var t := s[2..];
      if |t| >= |TypeArrayOpen| && t[..|TypeArrayOpen|] == TypeArrayOpen then
        DecodeTypedArguments(t[|TypeArrayOpen|..])
      else
        match DecodeObjectArray(t)
        case Some(vs) => Some(CallArguments(None, vs))
        case None => None
  }

  /** An identifier as it can appear in a type-parameter or parameter list. */
  predicate IsName(x: string)
  {
    |x| > 0 && ',' !in x && '}' !in x
  }

  predicate AreNames(xs: seq<string>)
  {
    forall i :: 0 <= i < |xs| ==> IsName(xs[i])
  }

  lemma ListEntriesOfJoin(xs: seq<string>)
    requires AreNames(xs)
    ensures ListEntries(Join(", ", xs)) == xs
  {
    if |xs| > 0 {
      assert Join(", ", xs) != "";
      FieldsOfJoin(xs);
    }
  }

  lemma TypeofEntriesAreNames(names: seq<string>)
    requires AreNames(names)
    ensures AreNames(TypeofEntries(names))
  {
  }

  lemma DecodeTypeArrayOfJoin(names: seq<string>)
    requires AreNames(names)
    ensures DecodeTypeArray(Join(", ", TypeofEntries(names))) == Some(names)
  {
    var entries := TypeofEntries(names);
    TypeofEntriesAreNames(names);
    ListEntriesOfJoin(entries);
    assert ListEntries(Join(", ", entries)) == entries;
    forall i | 0 <= i < |entries|
      ensures IsTypeofEntry(entries[i]) && entries[i][7..|entries[i]| - 1] == names[i]
    {
      assert entries[i] == "typeof(" + names[i] + ")";
    }
    var decoded := seq(|entries|, i requires 0 <= i < |entries| && IsTypeofEntry(entries[i]) => entries[i][7..|entries[i]| - 1]);
    assert decoded == names;
  }

  lemma DecodeObjectArrayOf(values: seq<string>)
    requires AreNames(values)
    ensures DecodeObjectArray(ObjectArrayOpen + Join(", ", values) + " }") == Some(values)
  {
    var j := Join(", ", values);
    var s := ObjectArrayOpen + j + " }";
    assert s[..|ObjectArrayOpen|] == ObjectArrayOpen;
    assert s[|s| - 2..] == " }";
    assert s[|ObjectArrayOpen|..|s| - 2] == j;
    ListEntriesOfJoin(values);
  }

  lemma {:induction false} IndexOfCharAfter(a: string, b: string, c: char)
    requires c !in a
    ensures IndexOfChar(a + b, c) == |a| + IndexOfChar(b, c)
  {
    if |a| > 0 {
      assert (a + b)[1..] == a[1..] + b;
      IndexOfCharAfter(a[1..], b, c);
    } else {
      assert a + b == b;
    }
  }

  lemma DecodeWithoutTypeArray(values: seq<string>)
    requires AreNames(values)
    ensures DecodeArgumentBlock(", " + (ObjectArrayOpen + Join(", ", values) + " }"))
            == Some(CallArguments(None, values))
  {
    var t := ObjectArrayOpen + Join(", ", values) + " }";
    var s := ", " + t;
    assert s[..2] == ", " && s[2..] == t;
    assert t[4] == 'o' && TypeArrayOpen[4] == 'T';
    DecodeObjectArrayOf(values);
  }

  lemma SplitAtClose(typeJoin: string, rest: string)
    requires '}' !in typeJoin
    ensures IndexOfChar(typeJoin + " }, " + rest, '}') == |typeJoin| + 1
    ensures (typeJoin + " }, " + rest)[|typeJoin|..|typeJoin| + 4] == " }, "
    ensures (typeJoin + " }, " + rest)[..|typeJoin|] == typeJoin
    ensures (typeJoin + " }, " + rest)[|typeJoin| + 4..] == rest
  {
    IndexOfCharAfter(typeJoin, " }, " + rest, '}');
    assert typeJoin + " }, " + rest == typeJoin + (" }, " + rest);
  }

  lemma DecodeTypedArgumentsOf(typeJoin: string, objects: string, names: seq<string>, values: seq<string>)
    requires '}' !in typeJoin
    requires DecodeTypeArray(typeJoin) == Some(names)
    requires DecodeObjectArray(objects) == Some(values)
    ensures DecodeTypedArguments(typeJoin + " }, " + objects) == Some(CallArguments(Some(names), values))
  {
    SplitAtClose(typeJoin, objects);
  }

  lemma DecodeAfterTypeArrayOpen(typeJoin: string, objects: string)
    ensures DecodeArgumentBlock(", " + (TypeArrayOpen + typeJoin + " }, ") + objects)
            == DecodeTypedArguments(typeJoin + " }, " + objects)
  {
    var s := ", " + (TypeArrayOpen + typeJoin + " }, ") + objects;
    var t := TypeArrayOpen + typeJoin + " }, " + objects;
    assert s[..2] == ", " && s[2..] == t;
    assert t[..|TypeArrayOpen|] == TypeArrayOpen;
    assert t[|TypeArrayOpen|..] == typeJoin + " }, " + objects;
  }

  lemma DecodeWithTypeArray(names: seq<string>, values: seq<string>)
    requires AreNames(names) && AreNames(values)
    ensures DecodeArgumentBlock(", " + (TypeArrayOpen + Join(", ", TypeofEntries(names)) + " }, ")
                                + (ObjectArrayOpen + Join(", ", values) + " }"))
            == Some(CallArguments(Some(names), values))
  {
    var typeJoin := Join(", ", TypeofEntries(names));
    var objects := ObjectArrayOpen + Join(", ", values) + " }";
    TypeofEntriesAreNames(names);
    assert '}' !in typeJoin;
    DecodeTypeArrayOfJoin(names);
    DecodeObjectArrayOf(values);
    DecodeTypedArgumentsOf(typeJoin, objects, names, values);
    DecodeAfterTypeArrayOpen(typeJoin, objects);
  }

  /** The argument block reads back as exactly the method's type-parameter
      names (in a type array of N typeof entries, present only with a
      type-parameter list) and its M parameter names, in order. */
  lemma ArgumentBlockRoundTrip(m: MethodDeclaration)
    requires m.typeParameters.Some? ==> AreNames(m.typeParameters.value)
    requires AreNames(m.parameters)
    ensures DecodeArgumentBlock(ArgumentBlock(m)) == Some(CallArguments(m.typeParameters, m.parameters))
  {
    var generic := HasGenericParameter(m);
    var params := GetParametersWithoutType(m);
    if generic.holds || params.holds {
      assert ObjectArrayValues(params) == Join(", ", m.parameters);
      var objects := ObjectArrayOpen + Join(", ", m.parameters) + " }";
      AppendAssociative(", " + TypeArrayPart(generic), ObjectArrayOpen, Join(", ", m.parameters));
      AppendAssociative(", " + TypeArrayPart(generic), ObjectArrayOpen + Join(", ", m.parameters), " }");
      assert ArgumentBlock(m) == ", " + TypeArrayPart(generic) + objects;
      if generic.holds {
        DecodeWithTypeArray(m.typeParameters.value, m.parameters);
      } else {
        DecodeWithoutTypeArray(m.parameters);
      }
    }
  }

  /** The argument block is left out exactly when there is neither a
      type-parameter list nor a parameter. */
  lemma ArgumentBlockOmitted(m: MethodDeclaration)
    ensures ArgumentBlock(m) == "" <==> m.typeParameters.None? && |m.parameters| == 0
  {
    var generic := HasGenericParameter(m);
    var params := GetParametersWithoutType(m);
    if generic.holds || params.holds {
      assert ArgumentBlock(m)[..2] == ", ";
    }
  }

  // ---------------------------------------------------------------------
  // Discovery
  // ---------------------------------------------------------------------

  /** The short attribute form counts only with the marker import; the
      fully qualified form counts either way. */
  lemma MarkerImportRule(member: MemberDeclaration)
    ensures IsProxyInterface(member, false) ==> IsProxyInterface(member, true)
    ensures IsProxyInterface(member, false) <==>
              member.InterfaceDeclaration? && PublicKeyword in member.modifiers
              && exists k :: 0 <= k < |member.attributeLists|
                             && EqualsIgnoreCase(member.attributeLists[k], AttributeToSearchFull)
    ensures member.InterfaceDeclaration? && (forall k :: 0 <= k < |member.attributeLists| ==>
              EqualsIgnoreCase(member.attributeLists[k], AttributeToSearch))
            ==> !IsProxyInterface(member, false)
  {
    if member.InterfaceDeclaration? && IsProxyInterface(member, false) {
      var k :| 0 <= k < |member.attributeLists| && IsMarkerAttribute(member.attributeLists[k], false);
      assert IsMarkerAttribute(member.attributeLists[k], true);
    }
  }

  /** The qualified namespaces listed are exactly the names of the top-level
      namespaces with a qualified name. */
  lemma {:induction false} QualifiedNamespacesMembers(members: seq<MemberDeclaration>, x: string)
    ensures x in QualifiedNamespaces(members) <==>
            exists k :: 0 <= k < |members| && IsQualifiedNamespace(members[k]) && members[k].name == x
  {
    if |members| > 0 {
      var init := members[..|members| - 1];
      QualifiedNamespacesMembers(init, x);
      if exists k :: 0 <= k < |init| && IsQualifiedNamespace(init[k]) && init[k].name == x {
        var k :| 0 <= k < |init| && IsQualifiedNamespace(init[k]) && init[k].name == x;
        assert members[k] == init[k];
      }
      if exists k :: 0 <= k < |members| && IsQualifiedNamespace(members[k]) && members[k].name == x {
        var k :| 0 <= k < |members| && IsQualifiedNamespace(members[k]) && members[k].name == x;
        if k < |init| {
          assert init[k] == members[k];
        }
      }
    }
  }

  /** An interface inside a namespace with a single-segment name is never
      found: such a namespace is neither searched nor a candidate itself,
      and all it contributes to the file is the blank line. */
  lemma SingleSegmentNamespacesHideInterfaces(member: MemberDeclaration, hasProxyInterfaceAttributeUsing: bool)
    requires member.NamespaceDeclaration? && !member.qualified
    ensures !FindsCandidate(member, hasProxyInterfaceAttributeUsing)
    ensures TopLevelBlock(member, hasProxyInterfaceAttributeUsing) == Line("")
  {
  }

  /** So such a namespace, wherever it stands among the top-level members,
      never changes the probe's answer. */
  lemma SingleSegmentNamespaceIgnored(before: seq<MemberDeclaration>, member: MemberDeclaration,
                                      after: seq<MemberDeclaration>, hasProxyInterfaceAttributeUsing: bool)
    requires member.NamespaceDeclaration? && !member.qualified
    ensures ContainsCandidate(before + [member] + after, hasProxyInterfaceAttributeUsing)
            <==> ContainsCandidate(before + after, hasProxyInterfaceAttributeUsing)
  {
    var h := hasProxyInterfaceAttributeUsing;
    var withIt := before + [member] + after;
    var without := before + after;
    SingleSegmentNamespacesHideInterfaces(member, h);
    if ContainsCandidate(withIt, h) {
      var k :| 0 <= k < |withIt| && FindsCandidate(withIt[k], h);
      if k < |before| {
        assert without[k] == withIt[k];
      } else {
        assert k != |before|;
        assert without[k - 1] == withIt[k];
      }
    }
    if ContainsCandidate(without, h) {
      var k :| 0 <= k < |without| && FindsCandidate(without[k], h);
      if k < |before| {
        assert withIt[k] == without[k];
      } else {
        assert withIt[k + 1] == without[k];
      }
    }
  }

  // ---------------------------------------------------------------------
  // The classes emitted for a list of members
  // ---------------------------------------------------------------------

  /** The candidate interfaces among members, in order. */
  function Candidates(members: seq<MemberDeclaration>, hasProxyInterfaceAttributeUsing: bool): (r: seq<MemberDeclaration>)
    ensures forall i :: 0 <= i < |r| ==> IsProxyInterface(r[i], hasProxyInterfaceAttributeUsing)
  {
    if |members| == 0 then []
    else
      var last := members[|members| - 1];
      Candidates(members[..|members| - 1], hasProxyInterfaceAttributeUsing)
      + (if IsProxyInterface(last, hasProxyInterfaceAttributeUsing) then [last] else [])
  }

  /** One class per interface, in order. */
  function ClassesText(interfaces: seq<MemberDeclaration>, namespaceName: string): string
    requires forall i :: 0 <= i < |interfaces| ==> interfaces[i].InterfaceDeclaration?
  {
    if |interfaces| == 0 then ""
    else ClassesText(interfaces[..|interfaces| - 1], namespaceName) + ClassText(interfaces[|interfaces| - 1], namespaceName)
  }

  lemma {:induction false} CandidatesMembers(members: seq<MemberDeclaration>, h: bool, x: MemberDeclaration)
    ensures x in Candidates(members, h) <==> x in members && IsProxyInterface(x, h)
  {
    if |members| > 0 {
      var init := members[..|members| - 1];
      CandidatesMembers(init, h, x);
      assert members == init + [members[|members| - 1]];
    }
  }

  lemma {:induction false} ClassesTextAppend(a: seq<MemberDeclaration>, b: seq<MemberDeclaration>, ns: string)
    requires forall i :: 0 <= i < |a| ==> a[i].InterfaceDeclaration?
    requires forall i :: 0 <= i < |b| ==> b[i].InterfaceDeclaration?
    ensures forall i :: 0 <= i < |a + b| ==> (a + b)[i].InterfaceDeclaration?
    ensures ClassesText(a + b, ns) == ClassesText(a, ns) + ClassesText(b, ns)
    decreases |b|
  {
    if |b| == 0 {
      assert a + b == a;
    } else {
      var b' := b[..|b| - 1];
      assert (a + b)[..|a + b| - 1] == a + b';
      ClassesTextAppend(a, b', ns);
      AppendAssociative(ClassesText(a, ns), ClassesText(b', ns), ClassText(b[|b| - 1], ns));
    }
  }

  /** GenerateProxyClass writes one class per candidate among the members,
      in their order, and nothing for any other member. */
  lemma {:induction false} ProxyClassesPerCandidate(members: seq<MemberDeclaration>, ns: string, h: bool)
    ensures ProxyClassesText(members, ns, h) == ClassesText(Candidates(members, h), ns)
  {
    if |members| > 0 {
      var init := members[..|members| - 1];
      var last := members[|members| - 1];
      ProxyClassesPerCandidate(init, ns, h);
      var tail := if IsProxyInterface(last, h) then [last] else [];
      ClassesTextAppend(Candidates(init, h), tail, ns);
      if IsProxyInterface(last, h) {
        assert ClassesText(tail, ns) == ClassesText([], ns) + ClassText(last, ns);
      }
    }
  }

  lemma ClassTextNonEmpty(iface: MemberDeclaration, ns: string)
    requires iface.InterfaceDeclaration?
    ensures |ClassText(iface, ns)| > 0
  {
  }

  /** The members yield no class text exactly when none is a candidate. */
  lemma {:induction false} NoCandidateNoClass(members: seq<MemberDeclaration>, ns: string, h: bool)
    ensures ProxyClassesText(members, ns, h) == "" <==> forall k :: 0 <= k < |members| ==> !IsProxyInterface(members[k], h)
  {
    if |members| > 0 {
      var init := members[..|members| - 1];
      var last := members[|members| - 1];
      NoCandidateNoClass(init, ns, h);
      if IsProxyInterface(last, h) {
        ClassTextNonEmpty(last, ns);
      }
      assert forall k :: 0 <= k < |init| ==> init[k] == members[k];
    }
  }

  /** A class is named after its interface with a Proxy suffix and
      implements the interface through global::, qualified by the
      namespace unless that is empty. */
  lemma ClassDeclaration(iface: MemberDeclaration, ns: string)
    requires iface.InterfaceDeclaration?
    ensures Line("\t" + EditorBrowsableStateNever) + Line("\t" + ObsoleteMessage)
            + Line("\tpublic class " + iface.identifier + "Proxy : " + BlazorMobileProxyClass + ", "
                   + (if ns == "" then "global::" + iface.identifier else "global::" + ns + "." + iface.identifier))
            <= ClassText(iface, ns)
  {
  }

  lemma {:induction false} MethodsTextSkips(a: seq<MemberDeclaration>, x: MemberDeclaration, b: seq<MemberDeclaration>)
    requires !x.MethodMember?
    ensures MethodsText(a + [x] + b) == MethodsText(a + b)
    decreases |b|
  {
    if |b| == 0 {
      assert a + [x] + b == a + [x];
      assert (a + [x])[..|a|] == a;
      assert a + b == a;
    } else {
      var b' := b[..|b| - 1];
      assert (a + [x] + b)[..|a + [x] + b| - 1] == a + [x] + b';
      assert (a + b)[..|a + b| - 1] == a + b';
      MethodsTextSkips(a, x, b');
    }
  }

  /** A member of an interface that is not a method leaves its class
      unchanged, wherever it stands. */
  lemma NonMethodMembersEmitNothing(modifiers: seq<SyntaxKind>, attributeLists: seq<string>, identifier: string,
                                    ns: string, a: seq<MemberDeclaration>, x: MemberDeclaration, b: seq<MemberDeclaration>)
    requires !x.MethodMember?
    ensures ClassText(InterfaceDeclaration(modifiers, attributeLists, identifier, a + [x] + b), ns)
            == ClassText(InterfaceDeclaration(modifiers, attributeLists, identifier, a + b), ns)
  {
    MethodsTextSkips(a, x, b);
  }

  // ---------------------------------------------------------------------
  // The generated file
  // ---------------------------------------------------------------------

  /** The file opens with the banner, then the using lines, then a blank line. */
  lemma BindingClassOpening(root: CompilationUnit)
    ensures Line(AutoGeneratedCodeMessage) + UsingLines(AllUsings(root)) + Line("") <= BindingClassText(root)
  {
  }

  /** The using lines are one `using X;` line per entry of the source
      usings, then the qualified namespaces, then the two fixed usings,
      without removing duplicates. */
  lemma {:induction false} UsingLinesOnePerEntry(usings: seq<string>)
    requires forall i :: 0 <= i < |usings| ==> '\n' !in usings[i]
    ensures Count(UsingLines(usings), '\n') == |usings|
  {
    if |usings| > 0 {
      var init := usings[..|usings| - 1];
      UsingLinesOnePerEntry(init);
      var entry := "using " + usings[|usings| - 1] + ";";
      assert '\n' !in entry;
      CountAppend(UsingLines(init), Line(entry), '\n');
      CountAppend(entry, NewLine, '\n');
      CountAbsent(entry, '\n');
    }
  }

  lemma AllUsingsContents(root: CompilationUnit, x: string)
    ensures |AllUsings(root)| == |root.usings| + |QualifiedNamespaces(root.members)| + 2
    ensures AllUsings(root)[..|root.usings|] == root.usings
    ensures AllUsings(root)[|AllUsings(root)| - 2..] == FixedUsings
    ensures x in AllUsings(root) <==>
              x in root.usings || x in FixedUsings
              || exists k :: 0 <= k < |root.members| && IsQualifiedNamespace(root.members[k]) && root.members[k].name == x
  {
    QualifiedNamespacesMembers(root.members, x);
  }

  /** Every qualified namespace gets its `<ns>.ProxyGenerated` block,
      holding the classes of its candidates (none at all if it has none). */
  lemma QualifiedNamespaceBlock(member: MemberDeclaration, h: bool)
    requires IsQualifiedNamespace(member)
    ensures TopLevelBlock(member, h)
            == NamespaceBlock(member.name + ".ProxyGenerated", ClassesText(Candidates(member.members, h), member.name))
               + Line("")
    ensures (forall k :: 0 <= k < |member.members| ==> !IsProxyInterface(member.members[k], h))
            ==> TopLevelBlock(member, h)
                == Line("namespace " + member.name + ".ProxyGenerated") + Line("{") + Line("}") + Line("")
  {
    ProxyClassesPerCandidate(member.members, member.name, h);
    NoCandidateNoClass(member.members, member.name, h);
  }

  /** A candidate interface at top level gets a block of its own in the
      fallback namespace; any other top-level member only a blank line. */
  lemma TopLevelInterfaceBlock(member: MemberDeclaration, h: bool)
    requires !IsQualifiedNamespace(member)
    ensures IsProxyInterface(member, h) ==>
              TopLevelBlock(member, h)
              == NamespaceBlock(BlazorMobileProxyNamespace + ".ProxyGenerated", ClassText(member, "")) + Line("")
    ensures !IsProxyInterface(member, h) ==> TopLevelBlock(member, h) == Line("")
  {
    if IsProxyInterface(member, h) {
      assert [member][..0] == [];
      assert ProxyClassesText([member], "", h) == "" + ClassText(member, "");
    }
  }

  // ---------------------------------------------------------------------
  // The query probe and generation
  // ---------------------------------------------------------------------

  /** The class text one top-level member contributes to the file. */
  function EmittedClasses(member: MemberDeclaration, h: bool): string
  {
    if IsQualifiedNamespace(member) then ProxyClassesText(member.members, member.name, h)
    else if IsProxyInterface(member, h) then ProxyClassesText([member], "", h)
    else ""
  }

  /** That class text is what the member's block in the file wraps. */
  lemma EmittedClassesInBlock(member: MemberDeclaration, h: bool)
    ensures TopLevelBlock(member, h)
            == (if IsQualifiedNamespace(member) then
                  NamespaceBlock(member.name + ".ProxyGenerated", EmittedClasses(member, h))
                else if IsProxyInterface(member, h) then
                  NamespaceBlock(BlazorMobileProxyNamespace + ".ProxyGenerated", EmittedClasses(member, h))
                else "")
               + Line("")
  {
  }

  /** For a given import flag, discovery finds a candidate through a
      top-level member exactly when generation emits a class for it. */
  lemma FindsCandidateIffEmits(member: MemberDeclaration, h: bool)
    ensures FindsCandidate(member, h) <==> EmittedClasses(member, h) != ""
  {
    if IsQualifiedNamespace(member) {
      NoCandidateNoClass(member.members, member.name, h);
    } else {
      NoCandidateNoClass([member], "", h);
    }
  }

  /** Importing the marker's namespace can only add candidates to what
      discovery finds through a top-level member. */
  lemma FindsCandidateMonotone(member: MemberDeclaration)
    ensures FindsCandidate(member, false) ==> FindsCandidate(member, true)
  {
    if IsQualifiedNamespace(member) {
      if FindsCandidate(member, false) {
        var j :| 0 <= j < |member.members| && IsProxyInterface(member.members[j], false);
        MarkerImportRule(member.members[j]);
      }
    } else {
      MarkerImportRule(member);
    }
  }

  /** The probe never answers yes for a file from which generation emits no
      class: the source usings are part of the extended list generation
      decides on, so generation sees the import whenever the probe does. */
  lemma ProbeImpliesGeneration(root: CompilationUnit)
    ensures ContainsCandidate(root.members, UsesMarkerNamespace(root.usings)) ==>
            exists k :: 0 <= k < |root.members| && EmittedClasses(root.members[k], UsesMarkerNamespace(AllUsings(root))) != ""
  {
    AllUsingsContents(root, ProxyInterfaceAttributeUsing);
    if ContainsCandidate(root.members, UsesMarkerNamespace(root.usings)) {
      var k :| 0 <= k < |root.members| && FindsCandidate(root.members[k], UsesMarkerNamespace(root.usings));
      FindsCandidateMonotone(root.members[k]);
      FindsCandidateIffEmits(root.members[k], UsesMarkerNamespace(AllUsings(root)));
    }
  }

  /** When the file declares no qualified namespace named after the marker's
      namespace, the probe and generation agree on the import flag, so the
      probe answers true exactly when generation emits some class. */
  lemma QueryAgreesWithGeneration(root: CompilationUnit)
    requires forall k :: 0 <= k < |root.members| && IsQualifiedNamespace(root.members[k])
                         ==> root.members[k].name != ProxyInterfaceAttributeUsing
    ensures UsesMarkerNamespace(root.usings) == UsesMarkerNamespace(AllUsings(root))
    ensures ContainsCandidate(root.members, UsesMarkerNamespace(root.usings)) <==>
            exists k :: 0 <= k < |root.members| && EmittedClasses(root.members[k], UsesMarkerNamespace(AllUsings(root))) != ""
  {
    AllUsingsContents(root, ProxyInterfaceAttributeUsing);
    var h := UsesMarkerNamespace(AllUsings(root));
    forall k | 0 <= k < |root.members|
      ensures FindsCandidate(root.members[k], h) <==> EmittedClasses(root.members[k], h) != ""
    {
      FindsCandidateIffEmits(root.members[k], h);
    }
  }

  /** A file that declares `namespace BlazorMobile.Common.Attributes` and
      uses the short attribute form without the using: the probe finds
      nothing, yet generation emits the proxy class. */
  lemma QueryDisagreesWhenMarkerNamespaceDeclared()
    ensures var iface := InterfaceDeclaration([PublicKeyword], ["ProxyInterface"], "IFoo", []);
            var root := CompilationUnit([], [NamespaceDeclaration(true, ProxyInterfaceAttributeUsing, [iface])]);
            !ContainsCandidate(root.members, UsesMarkerNamespace(root.usings))
            && EmittedClasses(root.members[0], UsesMarkerNamespace(AllUsings(root)))
               == ClassText(iface, ProxyInterfaceAttributeUsing)
  {
    var iface := InterfaceDeclaration([PublicKeyword], ["ProxyInterface"], "IFoo", []);
    var ns := NamespaceDeclaration(true, ProxyInterfaceAttributeUsing, [iface]);
    var root := CompilationUnit([], [ns]);
    assert QualifiedNamespaces([ns]) == [ProxyInterfaceAttributeUsing];
    assert AllUsings(root)[0] == ProxyInterfaceAttributeUsing;
    assert UsesMarkerNamespace(AllUsings(root));
    assert IsMarkerAttribute("ProxyInterface", true);
    assert IsProxyInterface(iface, true);
    assert !IsMarkerAttribute("ProxyInterface", false);
    assert !IsProxyInterface(iface, false);
    assert [iface][..0] == [];
  }
}

/** A worked file: an interface with a value-returning, a void and a
    synchronous method in a qualified namespace. */
module GeneratorScenario {
  import opened Text
  import opened Syntax
  import opened BindingClassGenerator
  import opened GeneratorProperties

  const GetAsync: MethodDeclaration :=
    MethodDeclaration(GenericName("Task", ["int"]), None, ["key"], "Task<int> GetAsync(string key);")
  const PingAsync: MethodDeclaration :=
    MethodDeclaration(IdentifierName("Task"), None, [], "Task PingAsync();")
  const Sync: MethodDeclaration :=
    MethodDeclaration(OtherType("void"), None, [], "void Sync();")
  const Foo: MemberDeclaration :=
    InterfaceDeclaration([PublicKeyword], ["ProxyInterface"], "IFoo",
                         [MethodMember(GetAsync), MethodMember(PingAsync), MethodMember(Sync)])
  const Services: MemberDeclaration := NamespaceDeclaration(true, "App.Services", [Foo])
  const Root: CompilationUnit := CompilationUnit([ProxyInterfaceAttributeUsing], [Services])

  /** GetAsync is forwarded to CallMethodAsync<int> with the value of key. */
  lemma GetAsyncForwardsWithKey()
    ensures KindOf(GetAsync) == AsyncValue(["int"])
    ensures ArgumentBlock(GetAsync) == ", new object[] { key }"
  {
    assert IsTaskIdentifier("Task");
    assert Join(", ", ["key"]) == "key";
  }

  /** Its whole body is that forwarding call inside try/catch-rethrow. */
  lemma GetAsyncBody()
    ensures MethodBody(GetAsync) == ForwardingBody("CallMethodAsync<int>", GetAsync)
  {
    GetAsyncForwardsWithKey();
    MethodBodyByKind(GetAsync);
    assert Join(", ", ["int"]) == "int";
    assert "CallMethodAsync<" + "int" + ">" == "CallMethodAsync<int>";
  }

  /** PingAsync is forwarded to CallVoidMethodAsync with no argument block. */
  lemma PingAsyncForwardsBare()
    ensures KindOf(PingAsync) == AsyncVoid
    ensures ArgumentBlock(PingAsync) == ""
  {
    assert IsTaskIdentifier("Task");
  }

  /** Its whole body is the void forwarding call inside try/catch-rethrow. */
  lemma PingAsyncBody()
    ensures MethodBody(PingAsync) == ForwardingBody("CallVoidMethodAsync", PingAsync)
  {
    PingAsyncForwardsBare();
    MethodBodyByKind(PingAsync);
  }

  /** Sync throws the unsupported-method exception. */
  lemma SyncThrows()
    ensures KindOf(Sync) == SyncUnsupported
    ensures MethodBody(Sync) == Line(NotSupportedLine)
  {
  }

  /** IFoo is the one proxy class of the namespace App.Services. */
  lemma ScenarioClasses()
    ensures IsProxyInterface(Foo, true)
    ensures ProxyClassesText(Services.members, "App.Services", true) == ClassText(Foo, "App.Services")
  {
    assert IsMarkerAttribute("ProxyInterface", true);
    assert [Foo][..0] == [];
  }

  /** Generation sees the marker import. */
  lemma ScenarioImport()
    ensures UsesMarkerNamespace(AllUsings(Root))
  {
    assert AllUsings(Root)[0] == ProxyInterfaceAttributeUsing;
  }

  /** With it, App.Services gets the block App.Services.ProxyGenerated
      holding exactly IFooProxy. */
  lemma ScenarioBlock()
    ensures TopLevelBlock(Services, true)
            == NamespaceBlock("App.Services.ProxyGenerated", ClassText(Foo, "App.Services")) + Line("")
  {
    ScenarioClasses();
    BlockOfNamespace(Services, true, "App.Services.ProxyGenerated", ClassText(Foo, "App.Services"));
  }

  /** A qualified namespace's block, once its name and class text are known. */
  lemma BlockOfNamespace(member: MemberDeclaration, h: bool, blockName: string, classes: string)
    requires IsQualifiedNamespace(member)
    requires member.name + ".ProxyGenerated" == blockName
    requires ProxyClassesText(member.members, member.name, h) == classes
    ensures TopLevelBlock(member, h) == NamespaceBlock(blockName, classes) + Line("")
  {
  }

  /** The probe finds IFoo. */
  lemma ScenarioProbe()
    ensures ContainsCandidate(Root.members, UsesMarkerNamespace(Root.usings))
  {
    ScenarioClasses();
    assert IsProxyInterface(Services.members[0], true);
    assert FindsCandidate(Root.members[0], true);
  }
}
