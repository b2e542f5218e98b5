/** The part of the C# syntax tree the generator inspects. The parser
    (and the text every node renders to) is outside the model: the text
    fields below hold what the parser's ToString() would give. */
module Syntax {

  datatype Option<T> = None | Some(value: T)

  /** The modifier keywords an interface declaration may carry. */
  datatype SyntaxKind =
    | PublicKeyword
    | InternalKeyword
    | ProtectedKeyword
    | PrivateKeyword
    | PartialKeyword
    | UnsafeKeyword
    | NewKeyword

  /** The shape of a method's return type: a simple name (`Task`), a
      generic name with its type-argument texts (`Task<int>`) or any
      other type syntax (`void`, `System.Threading.Tasks.Task`, `int[]`). */
  datatype TypeSyntax =
    | IdentifierName(identifier: string)
    | GenericName(identifier: string, typeArguments: seq<string>)
    | OtherType(text: string)

  /** A method declaration: its return type, the names of its type
      parameters when it has a type-parameter list, the identifiers of its
      parameters, and its full text as written (ending in ';'). */
  datatype MethodDeclaration = MethodDeclaration(
    returnType: TypeSyntax,
    typeParameters: Option<seq<string>>,
    parameters: seq<string>,
    signature: string)

  /** A member declaration. A namespace records whether its name is a
      qualified (dotted) name; an interface records its modifiers and the
      text of the attributes inside each of its attribute lists, without
      the brackets. */
  datatype MemberDeclaration =
    | NamespaceDeclaration(qualified: bool, name: string, members: seq<MemberDeclaration>)
    | InterfaceDeclaration(modifiers: seq<SyntaxKind>, attributeLists: seq<string>,
                           identifier: string, members: seq<MemberDeclaration>)
    | MethodMember(decl: MethodDeclaration)
    | OtherMember(text: string)

  /** A parsed source file: the names of its using directives and its
      top-level members, in order. */
  datatype CompilationUnit = CompilationUnit(usings: seq<string>, members: seq<MemberDeclaration>)
}
