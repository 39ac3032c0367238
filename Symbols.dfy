/**
 * What the generator and the analyzer read from the compiler's symbols,
 * reduced to plain records: a marked type, its members in declaration order,
 * each property's accessibility, setter, type short name and the attributes
 * on that type.
 */
module Symbols {
  import opened Wrappers
  import Sequences

  /** Roslyn's `Accessibility`; only `Private` matters to the code modelled. */
  datatype Accessibility =
    | NotApplicable
    | Private
    | ProtectedAndInternal
    | Protected
    | Internal
    | ProtectedOrInternal
    | Public

  /** A source location a diagnostic can be reported at. */
  datatype Location = Location(path: string, position: nat)

  /** The value of an attribute's named argument, as `TypedConstant.Value` boxes it. */
  datatype ConstantValue = BoolValue(b: bool) | NullValue | OtherValue(typeName: string)

  datatype NamedArgument = NamedArgument(name: string, value: ConstantValue)

  /** An attribute's class: the names of its containing namespaces, outermost first, and its short name. */
  datatype AttributeClass = AttributeClass(namespacePath: seq<string>, name: string)

  /** An applied attribute: its class (absent when unresolved) and its named arguments. */
  datatype AttributeData = AttributeData(attributeClass: Option<AttributeClass>, namedArguments: seq<NamedArgument>)

  /** The namespace part of a metadata name: each segment followed by a dot. */
  function NamespacePrefix(path: seq<string>): string {
    if path == [] then "" else NamespacePrefix(path[..|path| - 1]) + path[|path| - 1] + "."
  }

  /** The full metadata name of a class, such as "OrmGenerator.OrmModelAttribute". */
  function MetadataName(c: AttributeClass): string {
    NamespacePrefix(c.namespacePath) + c.name
  }

  /** A class in a one-segment namespace `ns` has the metadata name `ns.name`. */
  lemma SingleSegmentMetadataName(ns: string, name: string)
    ensures MetadataName(AttributeClass([ns], name)) == ns + "." + name
  {
    var path: seq<string> := [ns];
    assert path[..0] == [];
    assert NamespacePrefix(path) == "" + ns + "." == ns + ".";
  }

  /** The generator's test: the attribute's class has exactly this full metadata name. */
  predicate HasMetadataName(a: AttributeData, metadataName: string) {
    a.attributeClass.Some? && MetadataName(a.attributeClass.value) == metadataName
  }

  /** A property's declared type: its short name (`Type.Name`) and the attributes on that type. */
  datatype TypeReference = TypeReference(name: string, attributes: seq<AttributeData>)

  datatype PropertySymbol = PropertySymbol(
    name: string,
    accessibility: Accessibility,
    hasSetter: bool,
    propertyType: TypeReference,
    location: Location)

  /** A member as `GetMembers()` yields it: a property or anything else (method, field, ...). */
  datatype Member = PropertyMember(property: PropertySymbol) | OtherMember(name: string)

  /**
   * A named type: its short name, the names of its containing namespaces from
   * outermost to innermost (empty for the global namespace), its attributes,
   * its members in declaration order and its location.
   */
  datatype NamedTypeSymbol = NamedTypeSymbol(
    name: string,
    namespacePath: seq<string>,
    attributes: seq<AttributeData>,
    members: seq<Member>,
    location: Location)

  /** `ContainingNamespace.Name`: only the innermost namespace's name; the global namespace's is "". */
  function ContainingNamespaceName(t: NamedTypeSymbol): (n: string)
    ensures t.namespacePath != [] ==> n == t.namespacePath[|t.namespacePath| - 1]
    ensures t.namespacePath == [] ==> n == ""
  {
    if t.namespacePath == [] then "" else t.namespacePath[|t.namespacePath| - 1]
  }

  predicate IsProperty(m: Member) {
    m.PropertyMember?
  }

  /** `GetMembers().OfType<IPropertySymbol>()`: the property members, in declaration order. */
  function Properties(t: NamedTypeSymbol): (ps: seq<PropertySymbol>)
    ensures |ps| == |Sequences.Filter(t.members, IsProperty)|
    ensures forall k :: 0 <= k < |ps| ==> Sequences.Filter(t.members, IsProperty)[k] == PropertyMember(ps[k])
  {
    var ms := Sequences.Filter(t.members, IsProperty);
    seq(|ms|, k requires 0 <= k < |ms| => ms[k].property)
  }

  /** The properties are exactly the property members, in declaration order. */
  lemma PropertiesInDeclarationOrder(t: NamedTypeSymbol) returns (idx: seq<nat>)
    ensures |idx| == |Properties(t)|
    ensures forall k :: 0 <= k < |idx| ==> idx[k] < |t.members| && t.members[idx[k]] == PropertyMember(Properties(t)[k])
    ensures forall k, l :: 0 <= k < l < |idx| ==> idx[k] < idx[l]
    ensures forall j :: 0 <= j < |t.members| ==> (IsProperty(t.members[j]) <==> j in idx)
  {
    idx := Sequences.FilterIndices(t.members, IsProperty);
  }

  /**
   * The analyzer's test, `Any(attr => attr.AttributeClass?.Name == className)`:
   * the class's short name only, in whatever namespace it is declared.
   */
  predicate HasAttribute(attributes: seq<AttributeData>, className: string) {
    exists i :: 0 <= i < |attributes| && attributes[i].attributeClass.Some? && attributes[i].attributeClass.value.name == className
  }
}
