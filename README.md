# BlazorMobile binding-class generator, modelled in Dafny

BlazorMobile's build task reads a C# source file and looks for public
interfaces marked with the `ProxyInterface` attribute, at top level or
directly inside a namespace with a dotted name (interfaces in a namespace
with a single-segment name, or nested deeper, are not reached). For each
such interface it writes a C# class `<I>Proxy`. Every method of that class
forwards the call to `MethodDispatcher`:

- an async-void method (returns `Task`) goes to `CallVoidMethodAsync`;
- an async-value method (returns `Task<...>`) goes to `CallMethodAsync<...>`;
- any other method throws `NotImplementedException`.

The dispatch call passes the current method's handle. An argument block
follows it unless the method has neither a type-parameter list nor a
parameter. The block holds a `new Type[] { typeof(..) }` array for the
type parameters, present only when there is a type-parameter list, then a
`new object[] { .. }` array of the parameter names.
The generated file opens with a banner and a list of using lines. The
classes are grouped in `<ns>.ProxyGenerated` namespaces, and a top-level
interface goes into `BlazorMobile.Proxy.ProxyGenerated`.

The project works on a syntax tree that has already been parsed:

- `Syntax.dfy` holds the tree as datatypes: compilation unit, namespace,
  interface, method, return-type shape.
- `Text.dfy` models the .NET string operations the generator uses:
  - `string.Join`;
  - `TrimEnd(';')`;
  - case-insensitive equality;
  - an append-only `StringBuilder` class.

  It also defines two aids for the proofs, which the generator does not
  use: `Fields`, which splits a string at `", "` and so reads a join back,
  and `Count`, which counts the occurrences of a character.
- `Generator.dfy` (module `BindingClassGenerator`) holds the generator
  itself:
  - the constants;
  - the pure classifiers, as functions;
  - the loops as methods: `GetAllNamespaces`, `HasProxyInterfaces`,
    `GenerateProxyClass` and `GenerateBindingClass`. `GetAllNamespaces`
    and the two emitters are proved against a specification function of
    the list or text they build; `HasProxyInterfaces` is proved to answer
    the predicate `ContainsCandidate`.
- `Properties.dfy` proves what the output looks like in terms of those
  specification functions. A decoder reads the argument block back.
  Module `GeneratorScenario` works one concrete file through: the kind,
  argument block and body of each method of one interface, the interface's
  proxy class, the namespace block it lands in, and the probe's answer.

## Model

| member | source | states |
|---|---|---|
| BindingClassGenerator.IsAsyncMethod | src/BlazorMobile.Build/Core/NativeBindings/BindingClassGenerator.cs:60-86 | async iff the return type is a simple or generic name whose identifier is `Task` in any casing; result types present only for the generic form, and then exactly its type arguments in order |
| BindingClassGenerator.HasGenericParameter | src/BlazorMobile.Build/Core/NativeBindings/BindingClassGenerator.cs:88-104 | true iff a type-parameter list exists; the names are that list in order, absent otherwise |
| BindingClassGenerator.GetParametersWithoutType | src/BlazorMobile.Build/Core/NativeBindings/BindingClassGenerator.cs:106-122 | true iff there is at least one parameter; the names are the parameter identifiers in order, absent otherwise |
| BindingClassGenerator.KindOf | src/BlazorMobile.Build/Core/NativeBindings/BindingClassGenerator.cs:188-208 | the emitter's branch choice: async-void iff a `Task` simple name, async-value iff a `Task<..>` generic name (carrying its type arguments), otherwise sync-unsupported |
| BindingClassGenerator.AnyMarkerAttribute | src/BlazorMobile.Build/Core/NativeBindings/BindingClassGenerator.cs:259-261 | true iff some attribute list's text is the marker: the short name with the import, or the full name |
| BindingClassGenerator.IsProxyInterface | src/BlazorMobile.Build/Core/NativeBindings/BindingClassGenerator.cs:254-262 | true iff the member is an interface, has a `public` modifier, and some attribute list's text is the marker |
| BindingClassGenerator.GetAllNamespaces | src/BlazorMobile.Build/Core/NativeBindings/BindingClassGenerator.cs:124-139 | the loop returns the names of the top-level namespaces with a qualified name, in order |
| BindingClassGenerator.HasProxyInterfaces | src/BlazorMobile.Build/Core/NativeBindings/BindingClassGenerator.cs:264-293 | true iff a candidate is found at top level or directly inside a qualified namespace, with the import flag taken from the source usings alone |
| BindingClassGenerator.GenerateProxyClass | src/BlazorMobile.Build/Core/NativeBindings/BindingClassGenerator.cs:155-252 | appends exactly the per-candidate class text for the members and changes nothing else |
| BindingClassGenerator.AppendProxyClass | src/BlazorMobile.Build/Core/NativeBindings/BindingClassGenerator.cs:163-250 | appends one interface's class: header, then its methods' text, then the closing brace |
| BindingClassGenerator.AppendMethod | src/BlazorMobile.Build/Core/NativeBindings/BindingClassGenerator.cs:180-247 | appends one method's header, body and closing brace |
| BindingClassGenerator.AppendArgumentBlock | src/BlazorMobile.Build/Core/NativeBindings/BindingClassGenerator.cs:210-231 | appends exactly the argument block of the method |
| BindingClassGenerator.ArgumentBlock | src/BlazorMobile.Build/Core/NativeBindings/BindingClassGenerator.cs:210-231 | defines the argument block appended after the method handle; `ArgumentBlockRoundTrip` and `ArgumentBlockOmitted` state what it holds |
| BindingClassGenerator.MethodBody | src/BlazorMobile.Build/Core/NativeBindings/BindingClassGenerator.cs:194-245 | defines the body emitted between a method's braces; `MethodBodyByKind` states it per kind |
| BindingClassGenerator.TopLevelBlock | src/BlazorMobile.Build/Core/NativeBindings/BindingClassGenerator.cs:320-346 | defines what one top-level member adds to the file, the closing blank line included; `QualifiedNamespaceBlock`, `TopLevelInterfaceBlock` and `SingleSegmentNamespacesHideInterfaces` state it per case |
| BindingClassGenerator.BindingClassText | src/BlazorMobile.Build/Core/NativeBindings/BindingClassGenerator.cs:302-346 | defines the whole generated text; `BindingClassOpening`, `UsingLinesOnePerEntry` and `AllUsingsContents` state its layout |
| BindingClassGenerator.AppendTopLevelBlock | src/BlazorMobile.Build/Core/NativeBindings/BindingClassGenerator.cs:320-346 | appends exactly one top-level member's block: a qualified namespace's `<ns>.ProxyGenerated` block, a top-level candidate's fallback block, or nothing, then the blank line |
| BindingClassGenerator.AppendNamespaceOpening | src/BlazorMobile.Build/Core/NativeBindings/BindingClassGenerator.cs:328-329 | appends the `namespace <name>` line and the opening brace, as at lines 328-329 and 338-339 |
| BindingClassGenerator.GenerateBindingClass | src/BlazorMobile.Build/Core/NativeBindings/BindingClassGenerator.cs:299-347 | returns the banner, the using lines for source usings + qualified namespaces + the two fixed usings, a blank line, then one block per top-level member, with the import flag taken from that extended list |
| Text.Join | src/BlazorMobile.Build/Core/NativeBindings/BindingClassGenerator.cs:207-227 | `string.Join` as used at lines 207, 218 and 227: empty for no strings, otherwise it starts with the first string, and every character comes from a string or the separator; `Text.FieldsOfJoin` reads it back |
| Text.EqualsIgnoreCase | src/BlazorMobile.Build/Core/NativeBindings/BindingClassGenerator.cs:68-77 | the case-insensitive comparison of lines 68, 77 and 260-261: true iff both strings are equal once lower-cased, so equal strings always match |
| Text.StringBuilder.constructor | src/BlazorMobile.Build/Core/NativeBindings/BindingClassGenerator.cs:299 | a new builder holds the empty text |
| Text.StringBuilder.Append | src/BlazorMobile.Build/Core/NativeBindings/BindingClassGenerator.cs:198-233 | `Append(s)` adds exactly `s` at the end and leaves the earlier text alone |
| Text.StringBuilder.AppendLine | src/BlazorMobile.Build/Core/NativeBindings/BindingClassGenerator.cs:169-172 | `AppendLine(s)` adds exactly `s` and one line end at the end |
| Text.TrimEndSemicolons | src/BlazorMobile.Build/Core/NativeBindings/BindingClassGenerator.cs:185 | the result is a prefix of the signature that does not end in `;`, and only `;` characters were removed |
| Text.TrimEndSemicolonsUnique | src/BlazorMobile.Build/Core/NativeBindings/BindingClassGenerator.cs:185 | those three properties determine the trimmed signature uniquely |
| Text.FieldsOfJoin | src/BlazorMobile.Build/Core/NativeBindings/BindingClassGenerator.cs:218-227 | joining a non-empty list of comma-free strings with `", "` loses nothing: splitting at `", "` gives the list back |
| GeneratorProperties.MethodBodyByKind | src/BlazorMobile.Build/Core/NativeBindings/BindingClassGenerator.cs:194-245 | an async-void method forwards to `CallVoidMethodAsync`; an async-value method forwards to `CallMethodAsync<` + result types joined by `", "` + `>`; both go inside `try {` … `} catch (Exception) { throw; }`; a sync method gets the single NotImplementedException line |
| GeneratorProperties.SyncStubForEveryShape | src/BlazorMobile.Build/Core/NativeBindings/BindingClassGenerator.cs:238-245 | a sync method's body is that one line, and its text is the same whatever its type parameters and parameters |
| GeneratorProperties.KindFromReturnType | src/BlazorMobile.Build/Core/NativeBindings/BindingClassGenerator.cs:188-192 | two methods with the same return type have the same kind, whatever their type parameters, parameters and signatures |
| GeneratorProperties.ArgumentBlockRoundTrip | src/BlazorMobile.Build/Core/NativeBindings/BindingClassGenerator.cs:210-231 | decoding the argument block gives back exactly the type-parameter names (a `new Type[]` array with one `typeof` entry each, present only if there is a type-parameter list) and the parameter names in order (`new object[]` always present, with empty braces when there are no parameters) |
| GeneratorProperties.ArgumentBlockOmitted | src/BlazorMobile.Build/Core/NativeBindings/BindingClassGenerator.cs:210 | the block is empty iff there is no type-parameter list and no parameter |
| GeneratorProperties.MarkerImportRule | src/BlazorMobile.Build/Core/NativeBindings/BindingClassGenerator.cs:258-261 | without the import only the full attribute name counts, so the short form alone is rejected; the import can only add candidates |
| GeneratorProperties.QualifiedNamespacesMembers | src/BlazorMobile.Build/Core/NativeBindings/BindingClassGenerator.cs:128-136 | a name is listed iff it is the name of a qualified top-level namespace |
| GeneratorProperties.SingleSegmentNamespacesHideInterfaces | src/BlazorMobile.Build/Core/NativeBindings/BindingClassGenerator.cs:272-292 | a top-level namespace with a single-segment name, wherever it stands, is never searched and is no candidate itself, and it adds only a blank line to the output |
| GeneratorProperties.SingleSegmentNamespaceIgnored | src/BlazorMobile.Build/Core/NativeBindings/BindingClassGenerator.cs:272-292 | inserting such a namespace anywhere among the top-level members never changes the probe's answer |
| GeneratorProperties.Candidates | src/BlazorMobile.Build/Core/NativeBindings/BindingClassGenerator.cs:158-161 | every interface selected is a proxy interface |
| GeneratorProperties.CandidatesMembers | src/BlazorMobile.Build/Core/NativeBindings/BindingClassGenerator.cs:158-161 | a member is selected iff it is among the members and a proxy interface |
| GeneratorProperties.ProxyClassesPerCandidate | src/BlazorMobile.Build/Core/NativeBindings/BindingClassGenerator.cs:155-252 | the generated text is exactly one class per candidate, in member order, and nothing for other members |
| GeneratorProperties.NoCandidateNoClass | src/BlazorMobile.Build/Core/NativeBindings/BindingClassGenerator.cs:158-161 | the text is empty iff no member is a candidate |
| GeneratorProperties.ClassDeclaration | src/BlazorMobile.Build/Core/NativeBindings/BindingClassGenerator.cs:164-172 | a class opens with the two attributes and `public class <I>Proxy : <proxy base>, global::<ns>.<I>`, or `global::<I>` when the namespace is empty |
| GeneratorProperties.NonMethodMembersEmitNothing | src/BlazorMobile.Build/Core/NativeBindings/BindingClassGenerator.cs:175-178 | an interface member that is not a method, wherever it stands, leaves the class text unchanged |
| GeneratorProperties.BindingClassOpening | src/BlazorMobile.Build/Core/NativeBindings/BindingClassGenerator.cs:302-314 | the file starts with the banner line, then the using lines, then a blank line |
| GeneratorProperties.UsingLinesOnePerEntry | src/BlazorMobile.Build/Core/NativeBindings/BindingClassGenerator.cs:313 | the using section has exactly one line per entry, duplicates included |
| GeneratorProperties.AllUsingsContents | src/BlazorMobile.Build/Core/NativeBindings/BindingClassGenerator.cs:308-311 | the using list is the source usings, then the qualified namespaces, then `BlazorMobile.Common.Services` and `System.ComponentModel`; it holds a name iff that name is a source using, a fixed using, or a qualified namespace |
| GeneratorProperties.QualifiedNamespaceBlock | src/BlazorMobile.Build/Core/NativeBindings/BindingClassGenerator.cs:321-334 | every qualified namespace gets a `<ns>.ProxyGenerated` block with its candidates' classes, followed by a blank line; the block is still there, empty, when it has no candidate |
| GeneratorProperties.TopLevelInterfaceBlock | src/BlazorMobile.Build/Core/NativeBindings/BindingClassGenerator.cs:335-346 | a top-level candidate gets its own `BlazorMobile.Proxy.ProxyGenerated` block (empty namespace in its class), any other member just the blank line |
| GeneratorProperties.EmittedClassesInBlock | src/BlazorMobile.Build/Core/NativeBindings/BindingClassGenerator.cs:320-346 | a member's block in the file is its namespace block wrapped around exactly the class text `EmittedClasses` names, or nothing, then the blank line |
| GeneratorProperties.FindsCandidateIffEmits | src/BlazorMobile.Build/Core/NativeBindings/BindingClassGenerator.cs:272-289 | for a fixed import flag, discovery finds a candidate through a member iff generation emits a class for it |
| GeneratorProperties.FindsCandidateMonotone | src/BlazorMobile.Build/Core/NativeBindings/BindingClassGenerator.cs:272-289 | importing the marker namespace can only add candidates found through a top-level member |
| GeneratorProperties.ProbeImpliesGeneration | src/BlazorMobile.Build/Core/NativeBindings/BindingClassGenerator.cs:268-316 | on every file, a yes from the probe means generation emits some class: the probe has no false positives, whatever the file's namespaces are named |
| GeneratorProperties.QueryAgreesWithGeneration | src/BlazorMobile.Build/Core/NativeBindings/BindingClassGenerator.cs:268-270 | when no qualified namespace is named `BlazorMobile.Common.Attributes`, both decide the import the same way, so the probe is true iff generation emits some class |
| GeneratorProperties.QueryDisagreesWhenMarkerNamespaceDeclared | src/BlazorMobile.Build/Core/NativeBindings/BindingClassGenerator.cs:308-316 | a file that declares that namespace and uses the short attribute form: the probe finds nothing, yet generation emits the class |
| GeneratorScenario.GetAsyncForwardsWithKey | src/BlazorMobile.Build/Core/NativeBindings/BindingClassGenerator.cs:198-231 | `Task<int> GetAsync(string key)` is async-value with result type `int` and argument block `, new object[] { key }` |
| GeneratorScenario.GetAsyncBody | src/BlazorMobile.Build/Core/NativeBindings/BindingClassGenerator.cs:194-237 | GetAsync's whole body is `return ...CallMethodAsync<int>(GetCurrentMethod(), new object[] { key });` inside try/catch-rethrow |
| GeneratorScenario.PingAsyncBody | src/BlazorMobile.Build/Core/NativeBindings/BindingClassGenerator.cs:194-237 | PingAsync's whole body is `return ...CallVoidMethodAsync(GetCurrentMethod());` inside try/catch-rethrow |
| GeneratorScenario.PingAsyncForwardsBare | src/BlazorMobile.Build/Core/NativeBindings/BindingClassGenerator.cs:198-210 | `Task PingAsync()` is async-void with no argument block |
| GeneratorScenario.SyncThrows | src/BlazorMobile.Build/Core/NativeBindings/BindingClassGenerator.cs:244 | `void Sync()` is sync-unsupported and its body is the single throw line |
| GeneratorScenario.ScenarioClasses | src/BlazorMobile.Build/Core/NativeBindings/BindingClassGenerator.cs:158-161 | a public interface that carries `[ProxyInterface]` and has the import is a candidate, and its namespace emits exactly its class |
| GeneratorScenario.ScenarioImport | src/BlazorMobile.Build/Core/NativeBindings/BindingClassGenerator.cs:308-316 | generation sees the marker import in the scenario file's extended using list |
| GeneratorScenario.ScenarioBlock | src/BlazorMobile.Build/Core/NativeBindings/BindingClassGenerator.cs:321-334 | with the import, App.Services gets the block `App.Services.ProxyGenerated` holding exactly IFooProxy, then the blank line |
| GeneratorScenario.ScenarioProbe | src/BlazorMobile.Build/Core/NativeBindings/BindingClassGenerator.cs:272-284 | the probe finds that interface inside its qualified namespace |

## Left out

- File I/O is left out: `OpenMyInterfaceFile`, `WriteOutputfile`, directory creation and `Path.GetFileName` (lines 49-52, 141-153, 297). `GenerateBindingClass` returns the text it builds, not the path of the file it writes, and `HasProxyInterfaces` takes the parsed tree, not a file name.
- Roslyn parsing is left out (lines 266 and 304), and so is each node's `ToString()`. The tree is given as datatypes. The signature, type-argument and name texts are given strings, and so is the text of the attributes inside each attribute list, without its brackets (what line 260 compares).
- No model of the grammar: a namespace's name is qualified when its `qualified` flag is set, and the model does not tie that flag to the name's text.
- `GenericNameSyntax.Kind() == SyntaxKind.GenericName` (line 76) always holds for a generic name, so the model does not test it.
- Case-insensitive comparison is left out: `InvariantCultureIgnoreCase` and `OrdinalIgnoreCase` (lines 68, 77, 260-261) are modelled as one ASCII case folding. Non-ASCII letters compare exactly.
- `Environment.NewLine` is taken to be `"\n"`. The banner's verbatim string uses the same line end.
- The type array of the argument block appears when a type-parameter list is present, as line 210 tests. The model's `Option<seq<string>>` also admits a present but empty list, `Some([])`, which the parser never produces (it always gives a list with at least one parameter, a missing one if need be). For that input the model emits `new Type[] {  }, `. `ArgumentBlockRoundTrip` and `ArgumentBlockOmitted` cover it in the same terms.
- ArgumentBlockRoundTrip: stated only for names that are non-empty and free of `,` and `}`, which C# identifiers are. Other texts are not shown to decode.
- UsingLinesOnePerEntry: counts the lines of the using section, for names free of line breaks. The content of each line is fixed by the definition of `UsingLines`, and its order by `AllUsingsContents`.
- `AppendProxyClass`, `AppendMethod`, `AppendArgumentBlock`, `AppendTopLevelBlock` and `AppendNamespaceOpening` are the bodies of the source's `foreach` loops, pulled out as methods that append to the same `StringBuilder`. The text they append, and its order, is what the source appends.
- Whether the emitted C# compiles is not reasoned about. The constants matter only as fixed strings.
