/** The proxy-class generator: finds the public interfaces marked with the
    ProxyInterface attribute in a parsed source file and writes, for each,
    a class that forwards every method to the method dispatcher. */
module BindingClassGenerator {
  import opened Text
  import opened Syntax

  const ProxyInterfaceAttributeUsing: string := "BlazorMobile.Common.Attributes"
  const AttributeToSearch: string := "ProxyInterface"
  const AttributeToSearchFull: string := ProxyInterfaceAttributeUsing + "." + AttributeToSearch
  const BlazorMobileProxyNamespace: string := "BlazorMobile.Proxy"
  const BlazorMobileInteropNamespace: string := BlazorMobileProxyNamespace + ".Interop"
  const BlazorMobileProxyClass: string := "global::" + BlazorMobileInteropNamespace + ".Abstract.BlazorMobileProxyClass"
  const MethodNotSupported: string := "BlazorMobile.Proxy.Resource.NonAsyncMethodNotSupported"
  const MethodDispatcherFullQualifiedPath: string := "global::BlazorMobile.Common.Services.MethodDispatcher"
  const GetCurrentMethod: string := "global::System.Reflection.MethodBase.GetCurrentMethod()"
  const EditorBrowsableStateNever: string := "[EditorBrowsable(EditorBrowsableState.Never)]"
  const ObsoleteMessage: string := "[Obsolete(BlazorMobile.Proxy.Resource.ObsoleteMessage, true)]"
  const AutoGeneratedCodeMessage: string :=
    "//------------------------------------------------------------------------------\n" +
    "// <auto-generated>\n" +
    "//     This code was generated by BlazorMobile.Build\n" +
    "//     Version:4.0.30319.296\n" +
    "//\n" +
    "//     Changes to this file may cause incorrect behavior and will be lost if\n" +
    "//     the code is regenerated.\n" +
    "// </auto-generated>\n" +
    "//------------------------------------------------------------------------------\n"

  /** The two usings every generated file adds for its call sites. */
  const FixedUsings: seq<string> := ["BlazorMobile.Common.Services", "System.ComponentModel"]

  // ---------------------------------------------------------------------
  // Classification of a method declaration
  // ---------------------------------------------------------------------

  /** A `bool TryX(..., out string[] names)` answer: `names` is None where
      the source leaves the array null. */
  datatype Probe = Probe(holds: bool, names: Option<seq<string>>)

  predicate IsTaskIdentifier(identifier: string)
  {
    EqualsIgnoreCase(identifier, "Task")
  }

  /** Async iff the return type is `Task` or `Task<...>` (any casing); the
      result types are the type arguments of the generic form only. */
  function IsAsyncMethod(m: MethodDeclaration): (r: Probe)
    ensures r.holds <==> (m.returnType.IdentifierName? || m.returnType.GenericName?)
                         && IsTaskIdentifier(m.returnType.identifier)
    ensures r.names.Some? <==> m.returnType.GenericName? && IsTaskIdentifier(m.returnType.identifier)
    ensures r.names.Some? ==> r.holds && r.names.value == m.returnType.typeArguments
  {
    match m.returnType
    case IdentifierName(id) => Probe(IsTaskIdentifier(id), None)
    case GenericName(id, args) => if IsTaskIdentifier(id) then Probe(true, Some(args)) else Probe(false, None)
    case OtherType(_) => Probe(false, None)
  }

  function HasGenericParameter(m: MethodDeclaration): (r: Probe)
    ensures r.holds <==> m.typeParameters.Some?
    ensures r.names == m.typeParameters
  {
    if m.typeParameters.None? then Probe(false, None)
    else Probe(true, Some(m.typeParameters.value))
  }

  function GetParametersWithoutType(m: MethodDeclaration): (r: Probe)
    ensures r.holds <==> |m.parameters| > 0
    ensures r.names.Some? <==> r.holds
    ensures r.holds ==> r.names.value == m.parameters
  {
    if |m.parameters| <= 0 then Probe(false, None)
    else Probe(true, Some(m.parameters))
  }

  /** The three shapes a method of a proxy interface is emitted in. */
  datatype MethodKind = AsyncVoid | AsyncValue(resultTypes: seq<string>) | SyncUnsupported

  /** The kind the emitter's branches select, read off IsAsyncMethod. */
  function KindOf(m: MethodDeclaration): (k: MethodKind)
    ensures k.AsyncVoid? <==> m.returnType.IdentifierName? && IsTaskIdentifier(m.returnType.identifier)
    ensures k.AsyncValue? <==> m.returnType.GenericName? && IsTaskIdentifier(m.returnType.identifier)
    ensures k.AsyncValue? ==> k.resultTypes == m.returnType.typeArguments
  {
    var a := IsAsyncMethod(m);
    if !a.holds then SyncUnsupported
    else if a.names.None? then AsyncVoid
    else AsyncValue(a.names.value)
  }

  // ---------------------------------------------------------------------
  // Discovery
  // ---------------------------------------------------------------------

  /** One attribute list's text names the marker: the short name counts
      only when the marker's namespace is imported. */
  predicate IsMarkerAttribute(text: string, hasProxyInterfaceAttributeUsing: bool)
  {
    (EqualsIgnoreCase(text, AttributeToSearch) && hasProxyInterfaceAttributeUsing)
    || EqualsIgnoreCase(text, AttributeToSearchFull)
  }

  /** AttributeLists.Any(IsMarkerAttribute). */
  function AnyMarkerAttribute(lists: seq<string>, hasProxyInterfaceAttributeUsing: bool): (r: bool)
    ensures r <==> exists k :: 0 <= k < |lists| && IsMarkerAttribute(lists[k], hasProxyInterfaceAttributeUsing)
  {
    if |lists| == 0 then false
    else IsMarkerAttribute(lists[0], hasProxyInterfaceAttributeUsing)
         || AnyMarkerAttribute(lists[1..], hasProxyInterfaceAttributeUsing)
  }

  function IsProxyInterface(member: MemberDeclaration, hasProxyInterfaceAttributeUsing: bool): (r: bool)
    ensures r <==> member.InterfaceDeclaration? && PublicKeyword in member.modifiers
                   && exists k :: 0 <= k < |member.attributeLists|
                                  && IsMarkerAttribute(member.attributeLists[k], hasProxyInterfaceAttributeUsing)
  {
    member.InterfaceDeclaration? && PublicKeyword in member.modifiers
    && AnyMarkerAttribute(member.attributeLists, hasProxyInterfaceAttributeUsing)
  }

  /** allUsings.Contains(ProxyInterfaceAttributeUsing), an ordinal test. */
  predicate UsesMarkerNamespace(usings: seq<string>)
  {
    ProxyInterfaceAttributeUsing in usings
  }

  predicate IsQualifiedNamespace(member: MemberDeclaration)
  {
    member.NamespaceDeclaration? && member.qualified
  }

  /** The names of the top-level namespaces with a qualified name, in order. */
  function QualifiedNamespaces(members: seq<MemberDeclaration>): seq<string>
  {
    if |members| == 0 then []
    else
      var last := members[|members| - 1];
      QualifiedNamespaces(members[..|members| - 1])
      + (if IsQualifiedNamespace(last) then [last.name] else [])
  }

  method GetAllNamespaces(root: CompilationUnit) returns (namespaces: seq<string>)
    ensures namespaces == QualifiedNamespaces(root.members)
  {
    namespaces := [];
    for i := 0 to |root.members|
      invariant namespaces == QualifiedNamespaces(root.members[..i])
    {
      var member := root.members[i];
      assert root.members[..i + 1][..i] == root.members[..i];
      if IsQualifiedNamespace(member) {
        namespaces := namespaces + [member.name];
      }
    }
    assert root.members[..|root.members|] == root.members;
  }

  /** Where discovery looks for a candidate from one top-level member: the
      direct members of a qualified namespace, or the member itself. */
  predicate FindsCandidate(member: MemberDeclaration, hasProxyInterfaceAttributeUsing: bool)
  {
    if IsQualifiedNamespace(member) then
      exists j :: 0 <= j < |member.members| && IsProxyInterface(member.members[j], hasProxyInterfaceAttributeUsing)
    else
      IsProxyInterface(member, hasProxyInterfaceAttributeUsing)
  }

  predicate ContainsCandidate(members: seq<MemberDeclaration>, hasProxyInterfaceAttributeUsing: bool)
  {
    exists k :: 0 <= k < |members| && FindsCandidate(members[k], hasProxyInterfaceAttributeUsing)
  }

  /** The query probe: decides the marker import from the source usings alone. */
  method HasProxyInterfaces(root: CompilationUnit) returns (found: bool)
    ensures found <==> ContainsCandidate(root.members, UsesMarkerNamespace(root.usings))
  {
    var allUsings := root.usings;
    var hasProxyInterfaceAttributeUsing := ProxyInterfaceAttributeUsing in allUsings;
    for i := 0 to |root.members|
      invariant forall k :: 0 <= k < i ==> !FindsCandidate(root.members[k], hasProxyInterfaceAttributeUsing)
    {
      var member := root.members[i];
      if IsQualifiedNamespace(member) {
        for j := 0 to |member.members|
          invariant forall l :: 0 <= l < j ==> !IsProxyInterface(member.members[l], hasProxyInterfaceAttributeUsing)
        {
          if IsProxyInterface(member.members[j], hasProxyInterfaceAttributeUsing) {
            found := true;
            return;
          }
        }
      } else if IsProxyInterface(member, hasProxyInterfaceAttributeUsing) {
        found := true;
        return;
      }
    }
    found := false;
  }

  // ---------------------------------------------------------------------
  // Emission: the text each part of the output consists of
  // ---------------------------------------------------------------------

  function TypeofEntries(names: seq<string>): (r: seq<string>)
    ensures |r| == |names|
    ensures forall i :: 0 <= i < |names| ==> r[i] == "typeof(" + names[i] + ")"
  {
    seq(|names|, i requires 0 <= i < |names| => "typeof(" + names[i] + ")")
  }

  /** The `new Type[] { ... }, ` part of the argument block. */
  function TypeArrayPart(generic: Probe): string
    requires generic.holds ==> generic.names.Some?
  {
    if generic.holds then "new Type[] { " + Join(", ", TypeofEntries(generic.names.value)) + " }, " else ""
  }

  /** The names inside `new object[] { ... }`. */
  function ObjectArrayValues(params: Probe): string
    requires params.holds ==> params.names.Some?
  {
    if params.holds then Join(", ", params.names.value) else ""
  }

  /** The arguments after GetCurrentMethod() in the dispatch call. */
  function ArgumentBlock(m: MethodDeclaration): string
  {
    var generic := HasGenericParameter(m);
    var params := GetParametersWithoutType(m);
    if generic.holds || params.holds then
      ", " + TypeArrayPart(generic) + "new object[] { " + ObjectArrayValues(params) + " }"
    else ""
  }

  const TryLine: string := "\t\t\ttry {"
  const ReturnPrefix: string := "\t\t\t\treturn " + MethodDispatcherFullQualifiedPath + "."
  const CatchLine: string := "\t\t\t} catch (Exception) { throw; }"
  const NotSupportedLine: string := "\t\t\tthrow new NotImplementedException(" + MethodNotSupported + ");"

  /** The dispatcher operation called, up to and including its first argument. */
  function DispatchTarget(baseType: Option<seq<string>>): string
  {
    if baseType.None? then "CallVoidMethodAsync(" + GetCurrentMethod
    else "CallMethodAsync<" + Join(", ", baseType.value) + ">(" + GetCurrentMethod
  }

  /** The body lines emitted between a method's braces. */
  function MethodBody(m: MethodDeclaration): string
  {
    var async := IsAsyncMethod(m);
    if async.holds then
      Line(TryLine) + ReturnPrefix + DispatchTarget(async.names) + ArgumentBlock(m) + ");" + Line("") + Line(CatchLine)
    else
      Line(NotSupportedLine)
  }

  function MethodHeader(m: MethodDeclaration): string
  {
    Line("\t\t" + EditorBrowsableStateNever)
    + Line("\t\t" + ObsoleteMessage)
    + Line("\t\tpublic " + TrimEndSemicolons(m.signature))
    + Line("\t\t{")
  }

  function MethodText(m: MethodDeclaration): string
  {
    MethodHeader(m) + MethodBody(m) + Line("\t\t}")
  }

  /** The text for an interface's members: methods only, in order. */
  function MethodsText(members: seq<MemberDeclaration>): string
  {
    if |members| == 0 then ""
    else
      var last := members[|members| - 1];
      MethodsText(members[..|members| - 1]) + (if last.MethodMember? then MethodText(last.decl) else "")
  }

  /** The interface a proxy implements, rooted at global::. */
  function InterfaceReference(namespaceName: string, interfaceName: string): string
  {
    if namespaceName == "" then "global::" + interfaceName else "global::" + namespaceName + "." + interfaceName
  }

  function ClassHeader(interfaceName: string, namespaceName: string): string
  {
    Line("\t" + EditorBrowsableStateNever)
    + Line("\t" + ObsoleteMessage)
    + Line("\tpublic class " + interfaceName + "Proxy : " + BlazorMobileProxyClass + ", "
           + InterfaceReference(namespaceName, interfaceName))
    + Line("\t{")
  }

  function ClassText(iface: MemberDeclaration, namespaceName: string): string
    requires iface.InterfaceDeclaration?
  {
    ClassHeader(iface.identifier, namespaceName) + MethodsText(iface.members) + Line("\t}")
  }

  /** What GenerateProxyClass appends for a list of members. */
  function ProxyClassesText(members: seq<MemberDeclaration>, namespaceName: string,
                            hasProxyInterfaceAttributeUsing: bool): string
  {
    if |members| == 0 then ""
    else
      var last := members[|members| - 1];
      ProxyClassesText(members[..|members| - 1], namespaceName, hasProxyInterfaceAttributeUsing)
      + (if IsProxyInterface(last, hasProxyInterfaceAttributeUsing) then ClassText(last, namespaceName) else "")
  }

  method GenerateProxyClass(sb: StringBuilder, members: seq<MemberDeclaration>, currentNamespaceName: string,
                            hasProxyInterfaceAttributeUsing: bool)
    modifies sb
    ensures sb.text == old(sb.text) + ProxyClassesText(members, currentNamespaceName, hasProxyInterfaceAttributeUsing)
  {
    ghost var start := sb.text;
    for i := 0 to |members|
      invariant sb.text == start + ProxyClassesText(members[..i], currentNamespaceName, hasProxyInterfaceAttributeUsing)
    {
      var interfaceMember := members[i];
      assert members[..i + 1][..i] == members[..i];
      if IsProxyInterface(interfaceMember, hasProxyInterfaceAttributeUsing) {
        AppendProxyClass(sb, interfaceMember, currentNamespaceName);
        AppendAssociative(start, ProxyClassesText(members[..i], currentNamespaceName, hasProxyInterfaceAttributeUsing),
                          ClassText(interfaceMember, currentNamespaceName));
      }
    }
    assert members[..|members|] == members;
  }

  /** The outer loop body of GenerateProxyClass for one candidate interface. */
  method AppendProxyClass(sb: StringBuilder, currentInterface: MemberDeclaration, currentNamespaceName: string)
    requires currentInterface.InterfaceDeclaration?
    modifies sb
    ensures sb.text == old(sb.text) + ClassText(currentInterface, currentNamespaceName)
  {
    ghost var start := sb.text;
    var currentInterfaceName := currentInterface.identifier;
    var interfaceNamespace := InterfaceReference(currentNamespaceName, currentInterfaceName);
    sb.AppendLine("\t" + EditorBrowsableStateNever);
    sb.AppendLine("\t" + ObsoleteMessage);
    AppendAssociative(start, Line("\t" + EditorBrowsableStateNever), Line("\t" + ObsoleteMessage));
    ghost var header := Line("\t" + EditorBrowsableStateNever) + Line("\t" + ObsoleteMessage);
    var declaration := "\tpublic class " + currentInterfaceName + "Proxy : " + BlazorMobileProxyClass + ", " + interfaceNamespace;
    sb.AppendLine(declaration);
    AppendAssociative(start, header, Line(declaration));
    header := header + Line(declaration);
    sb.AppendLine("\t{");
    AppendAssociative(start, header, Line("\t{"));
    header := header + Line("\t{");
    assert header == ClassHeader(currentInterfaceName, currentNamespaceName);

    ghost var classStart := sb.text;
    for j := 0 to |currentInterface.members|
      invariant sb.text == classStart + MethodsText(currentInterface.members[..j])
    {
      var methodMember := currentInterface.members[j];
      assert currentInterface.members[..j + 1][..j] == currentInterface.members[..j];
      if methodMember.MethodMember? {
        AppendMethod(sb, methodMember.decl);
        AppendAssociative(classStart, MethodsText(currentInterface.members[..j]), MethodText(methodMember.decl));
      }
    }
    assert currentInterface.members[..|currentInterface.members|] == currentInterface.members;
    sb.AppendLine("\t}");
    AppendAssociative(start, header, MethodsText(currentInterface.members));
    AppendAssociative(start, header + MethodsText(currentInterface.members), Line("\t}"));
  }

  /** The inner loop body of GenerateProxyClass for one method. */
  method AppendMethod(sb: StringBuilder, methodDeclaration: MethodDeclaration)
    modifies sb
    ensures sb.text == old(sb.text) + MethodText(methodDeclaration)
  {
    ghost var start := sb.text;
    var methodSignature := methodDeclaration.signature;
    sb.AppendLine("\t\t" + EditorBrowsableStateNever);
    sb.AppendLine("\t\t" + ObsoleteMessage);
    AppendAssociative(start, Line("\t\t" + EditorBrowsableStateNever), Line("\t\t" + ObsoleteMessage));
    ghost var header := Line("\t\t" + EditorBrowsableStateNever) + Line("\t\t" + ObsoleteMessage);
    sb.AppendLine("\t\tpublic " + TrimEndSemicolons(methodSignature));
    AppendAssociative(start, header, Line("\t\tpublic " + TrimEndSemicolons(methodSignature)));
    header := header + Line("\t\tpublic " + TrimEndSemicolons(methodSignature));
    sb.AppendLine("\t\t{");
    AppendAssociative(start, header, Line("\t\t{"));
    header := header + Line("\t\t{");
    assert header == MethodHeader(methodDeclaration);
    ghost var bodyStart := sb.text;

    var asyncProbe := IsAsyncMethod(methodDeclaration);
    var methodIsAsync, baseType := asyncProbe.holds, asyncProbe.names;

    if methodIsAsync {
      sb.AppendLine(TryLine);
      sb.Append(ReturnPrefix);
      AppendAssociative(bodyStart, Line(TryLine), ReturnPrefix);
      ghost var body := Line(TryLine) + ReturnPrefix;
      if baseType.None? {
        sb.Append("CallVoidMethodAsync(" + GetCurrentMethod);
      } else {
        sb.Append("CallMethodAsync<" + Join(", ", baseType.value) + ">(" + GetCurrentMethod);
      }
      AppendAssociative(bodyStart, body, DispatchTarget(baseType));
      body := body + DispatchTarget(baseType);
      ghost var argumentStart := sb.text;
      AppendArgumentBlock(sb, methodDeclaration);
      assert sb.text == argumentStart + ArgumentBlock(methodDeclaration);
      AppendAssociative(bodyStart, body, ArgumentBlock(methodDeclaration));
      body := body + ArgumentBlock(methodDeclaration);
      sb.Append(");");
      AppendAssociative(bodyStart, body, ");");
      body := body + ");";
      sb.AppendLine("");
      AppendAssociative(bodyStart, body, Line(""));
      body := body + Line("");
      sb.AppendLine(CatchLine);
      AppendAssociative(bodyStart, body, Line(CatchLine));
      body := body + Line(CatchLine);
      assert body == MethodBody(methodDeclaration);
    } else {
      sb.AppendLine(NotSupportedLine);
    }
    assert sb.text == bodyStart + MethodBody(methodDeclaration);
    sb.AppendLine("\t\t}");
    AppendAssociative(start, MethodHeader(methodDeclaration), MethodBody(methodDeclaration));
    AppendAssociative(start, MethodHeader(methodDeclaration) + MethodBody(methodDeclaration), Line("\t\t}"));
  }

  /** The trailing argument block of the dispatch call, lines 210-231. */
  method AppendArgumentBlock(sb: StringBuilder, methodDeclaration: MethodDeclaration)
    modifies sb
    ensures sb.text == old(sb.text) + ArgumentBlock(methodDeclaration)
  {
    ghost var argumentStart := sb.text;
    var genericProbe := HasGenericParameter(methodDeclaration);
    var parameterProbe := GetParametersWithoutType(methodDeclaration);
    var methodHasGenericParameters, genericParameters := genericProbe.holds, genericProbe.names;
    var methodHasParameters, methodParameters := parameterProbe.holds, parameterProbe.names;
    if methodHasGenericParameters || methodHasParameters {
      sb.Append(", ");
      ghost var arguments := ", ";
      if methodHasGenericParameters {
        sb.Append("new Type[] { ");
        sb.Append(Join(", ", TypeofEntries(genericParameters.value)));
        sb.Append(" }, ");
      }
      assert sb.text == argumentStart + ", " + TypeArrayPart(genericProbe);
      AppendAssociative(argumentStart, ", ", TypeArrayPart(genericProbe));
      arguments := arguments + TypeArrayPart(genericProbe);
      sb.Append("new object[] { ");
      arguments := arguments + "new object[] { ";
      if methodHasParameters {
        sb.Append(Join(", ", methodParameters.value));
      }
      arguments := arguments + ObjectArrayValues(parameterProbe);
      sb.Append(" }");
      arguments := arguments + " }";
      assert arguments == ArgumentBlock(methodDeclaration);
    }
  }

  // ---------------------------------------------------------------------
  // The whole generated file
  // ---------------------------------------------------------------------

  /** Source usings, then the qualified namespaces, then the fixed two. */
  function AllUsings(root: CompilationUnit): seq<string>
  {
    root.usings + QualifiedNamespaces(root.members) + FixedUsings
  }

  function UsingLines(usings: seq<string>): string
  {
    if |usings| == 0 then ""
    else UsingLines(usings[..|usings| - 1]) + Line("using " + usings[|usings| - 1] + ";")
  }

  function NamespaceBlock(name: string, body: string): string
  {
    Line("namespace " + name) + Line("{") + body + Line("}")
  }

  /** What one top-level member contributes, blank line included. */
  function TopLevelBlock(member: MemberDeclaration, hasProxyInterfaceAttributeUsing: bool): string
  {
    (if IsQualifiedNamespace(member) then
       NamespaceBlock(member.name + ".ProxyGenerated",
                      ProxyClassesText(member.members, member.name, hasProxyInterfaceAttributeUsing))
     else if IsProxyInterface(member, hasProxyInterfaceAttributeUsing) then
       NamespaceBlock(BlazorMobileProxyNamespace + ".ProxyGenerated",
                      ProxyClassesText([member], "", hasProxyInterfaceAttributeUsing))
     else "")
    + Line("")
  }

  function MembersText(members: seq<MemberDeclaration>, hasProxyInterfaceAttributeUsing: bool): string
  {
    if |members| == 0 then ""
    else
      MembersText(members[..|members| - 1], hasProxyInterfaceAttributeUsing)
      + TopLevelBlock(members[|members| - 1], hasProxyInterfaceAttributeUsing)
  }

  /** The generated file's text. The marker import is decided on AllUsings. */
  function BindingClassText(root: CompilationUnit): string
  {
    Line(AutoGeneratedCodeMessage)
    + UsingLines(AllUsings(root))
    + Line("")
    + MembersText(root.members, UsesMarkerNamespace(AllUsings(root)))
  }

  method GenerateBindingClass(root: CompilationUnit) returns (output: string)
    ensures output == BindingClassText(root)
  {
    var sb := new StringBuilder();
    sb.AppendLine(AutoGeneratedCodeMessage);

    var allUsings := root.usings;
    var namespaces := GetAllNamespaces(root);
    allUsings := allUsings + namespaces;
    allUsings := allUsings + ["BlazorMobile.Common.Services"];
    allUsings := allUsings + ["System.ComponentModel"];
    assert allUsings == AllUsings(root);

    ghost var banner := Line(AutoGeneratedCodeMessage);
    for i := 0 to |allUsings|
      invariant sb.text == banner + UsingLines(allUsings[..i])
    {
      assert allUsings[..i + 1][..i] == allUsings[..i];
      sb.AppendLine("using " + allUsings[i] + ";");
      AppendAssociative(banner, UsingLines(allUsings[..i]), Line("using " + allUsings[i] + ";"));
    }
    assert allUsings[..|allUsings|] == allUsings;
    sb.AppendLine("");

    var hasProxyInterfaceAttributeUsing := ProxyInterfaceAttributeUsing in allUsings;
    ghost var membersStart := sb.text;

    for i := 0 to |root.members|
      invariant sb.text == membersStart + MembersText(root.members[..i], hasProxyInterfaceAttributeUsing)
    {
      var member := root.members[i];
      assert root.members[..i + 1][..i] == root.members[..i];
      AppendTopLevelBlock(sb, member, hasProxyInterfaceAttributeUsing);
      AppendAssociative(membersStart, MembersText(root.members[..i], hasProxyInterfaceAttributeUsing),
                        TopLevelBlock(member, hasProxyInterfaceAttributeUsing));
    }
    assert root.members[..|root.members|] == root.members;
    output := sb.text;
  }

  /** The loop body of GenerateBindingClass for one top-level member. */
  method AppendTopLevelBlock(sb: StringBuilder, member: MemberDeclaration, hasProxyInterfaceAttributeUsing: bool)
    modifies sb
    ensures sb.text == old(sb.text) + TopLevelBlock(member, hasProxyInterfaceAttributeUsing)
  {
    ghost var start := sb.text;
    if IsQualifiedNamespace(member) {
      var currentNamespaceName := member.name;
      AppendNamespaceOpening(sb, currentNamespaceName + ".ProxyGenerated");
      GenerateProxyClass(sb, member.members, currentNamespaceName, hasProxyInterfaceAttributeUsing);
      sb.AppendLine("}");
      ClosedBlock(start, currentNamespaceName + ".ProxyGenerated",
                  ProxyClassesText(member.members, currentNamespaceName, hasProxyInterfaceAttributeUsing));
    } else if IsProxyInterface(member, hasProxyInterfaceAttributeUsing) {
      AppendNamespaceOpening(sb, BlazorMobileProxyNamespace + ".ProxyGenerated");
      GenerateProxyClass(sb, [member], "", hasProxyInterfaceAttributeUsing);
      sb.AppendLine("}");
      ClosedBlock(start, BlazorMobileProxyNamespace + ".ProxyGenerated",
                  ProxyClassesText([member], "", hasProxyInterfaceAttributeUsing));
    }
    sb.AppendLine("");
  }

  /** Regroups a namespace block appended line by line. */
  lemma ClosedBlock(start: string, name: string, body: string)
    ensures start + Line("namespace " + name) + Line("{") + body + Line("}") == start + NamespaceBlock(name, body)
  {
  }

  method AppendNamespaceOpening(sb: StringBuilder, name: string)
    modifies sb
    ensures sb.text == old(sb.text) + Line("namespace " + name) + Line("{")
  {
    sb.AppendLine("namespace " + name);
    sb.AppendLine("{");
  }
}
