/**
 * The two transform steps of the generator: from a marked type to its
 * `MetadataModel` (flat, `OrmModelAttribute`) or `NestableMetadataModel`
 * (`NestableOrmModelAttribute`). Both keep the non-private properties that
 * have a setter, in declaration order, and classify each property's type
 * short name by a case-insensitive parse against `DbDataType`.
 */
module Extraction {
  import opened Wrappers
  import opened DbDataTypes
  import opened Symbols
  import Sequences
  import opened MetadataModels
  import opened NestableMetadataModels

  /** The exception the `(bool)` unboxing in `GetToStringInfo` throws on a non-boolean value. */
  datatype TransformError = InvalidCast

  /** The short names of the two marker attributes, which the analyzer matches in any namespace. */
  const OrmModelAttributeName := "OrmModelAttribute"
  const NestableOrmModelAttributeName := "NestableOrmModelAttribute"

  /** The full metadata names the two pipelines register, `_baseMarker` and its nestable counterpart. */
  const MarkerNamespace := "OrmGenerator"
  const OrmModelMetadataName := MarkerNamespace + "." + OrmModelAttributeName
  const NestableOrmModelMetadataName := MarkerNamespace + "." + NestableOrmModelAttributeName

  /**
   * The attributes of `t` whose class has the full metadata name
   * `metadataName`: what the host passes as `context.Attributes`. It is empty
   * exactly when `t` carries no such attribute, and its first element is the
   * first such attribute in declaration order.
   */
  function MatchingAttributes(t: NamedTypeSymbol, metadataName: string): (r: seq<AttributeData>)
    ensures forall k :: 0 <= k < |r| ==> HasMetadataName(r[k], metadataName)
    ensures |r| > 0 <==> exists i :: 0 <= i < |t.attributes| && HasMetadataName(t.attributes[i], metadataName)
    ensures |r| > 0 ==> exists i ::
      && 0 <= i < |t.attributes|
      && r[0] == t.attributes[i]
      && HasMetadataName(t.attributes[i], metadataName)
      && forall j :: 0 <= j < i ==> !HasMetadataName(t.attributes[j], metadataName)
  {
    var keep := (a: AttributeData) => HasMetadataName(a, metadataName);
    Sequences.FilterFirst(t.attributes, keep);
    Sequences.Filter(t.attributes, keep)
  }

  /** Every attribute with the metadata name is passed on, each once, in declaration order. */
  lemma MatchingAttributesInOrder(t: NamedTypeSymbol, metadataName: string) returns (idx: seq<nat>)
    ensures |idx| == |MatchingAttributes(t, metadataName)|
    ensures forall k :: 0 <= k < |idx| ==>
      idx[k] < |t.attributes| && MatchingAttributes(t, metadataName)[k] == t.attributes[idx[k]]
    ensures forall k, l :: 0 <= k < l < |idx| ==> idx[k] < idx[l]
    ensures forall j :: 0 <= j < |t.attributes| ==> (HasMetadataName(t.attributes[j], metadataName) <==> j in idx)
  {
    idx := Sequences.FilterIndices(t.attributes, (a: AttributeData) => HasMetadataName(a, metadataName));
  }

  /**
   * `GetToStringInfo`: the value of the first named argument of the first
   * matching attribute, whatever that argument is called; false when there
   * is none (the default pair's value is null); a cast failure when the value
   * is not a boolean.
   */
  function GetToStringInfo(attributes: seq<AttributeData>): (r: Result<bool, TransformError>)
    requires |attributes| > 0
    ensures attributes[0].namedArguments == [] ==> r == Ok(false)
    ensures attributes[0].namedArguments != [] ==>
      match attributes[0].namedArguments[0].value
      case BoolValue(b) => r == Ok(b)
      case NullValue => r == Ok(false)
      case OtherValue(_) => r == Err(InvalidCast)
  {
    var args := attributes[0].namedArguments;
    var value := if args == [] then NullValue else args[0].value;
    match value
    case BoolValue(b) => Ok(b)
    case NullValue => Ok(false)
    case OtherValue(_) => Err(InvalidCast)
  }

  /** Only the first named argument of the first attribute is consulted; its name is not. */
  lemma ToStringInfoReadsFirstArgumentOnly(attributes: seq<AttributeData>, other: seq<AttributeData>, rename: string, more: seq<NamedArgument>)
    requires |attributes| > 0 && |attributes[0].namedArguments| > 0
    ensures
      var first := attributes[0].namedArguments[0];
      var changed := AttributeData(attributes[0].attributeClass, [NamedArgument(rename, first.value)] + more);
      GetToStringInfo([changed] + other) == GetToStringInfo(attributes)
  {
  }

  /** The generator's filter: declared accessibility other than private, and a setter (`SetMethod` not null). */
  predicate Eligible(p: PropertySymbol) {
    p.accessibility != Private && p.hasSetter
  }

  /** The properties the generator keeps, in declaration order. */
  function EligibleProperties(t: NamedTypeSymbol): seq<PropertySymbol> {
    Sequences.Filter(Properties(t), Eligible)
  }

  /** Flat classification: the parsed kind, or `Unknown` when the parse fails. */
  function ClassifyFlat(p: PropertySymbol): (r: ModelProperty)
    ensures r.name == p.name
    ensures r.dataType != Unknown ==> EqualIgnoringCase(p.propertyType.name, Name(r.dataType))
    ensures r.dataType == Unknown <==>
      EqualIgnoringCase(p.propertyType.name, "Unknown") || forall t :: !EqualIgnoringCase(p.propertyType.name, Name(t))
  {
    ModelProperty(p.name, TryParse(p.propertyType.name).GetOr(Unknown))
  }

  /**
   * Nestable classification: a parsed kind with no custom type, or `Unknown`
   * with the type's short name as the nested model's name.
   */
  function ClassifyNestable(p: PropertySymbol): (r: NestableProperty)
    ensures r.name == p.name
    ensures r.customType.None? <==> exists t :: EqualIgnoringCase(p.propertyType.name, Name(t))
    ensures r.customType.None? ==> EqualIgnoringCase(p.propertyType.name, Name(r.dataType))
    ensures r.customType.Some? ==> r.dataType == Unknown && r.customType.value == p.propertyType.name
  {
    match TryParse(p.propertyType.name)
    case Some(t) => NestableProperty(p.name, t, None)
    case None => NestableProperty(p.name, Unknown, Some(p.propertyType.name))
  }

  /** A type literally named "Unknown" (any case) is a scalar `Unknown` with no custom type, not a nested model. */
  lemma UnknownNamedTypeIsNotNested(p: PropertySymbol)
    requires EqualIgnoringCase(p.propertyType.name, "Unknown")
    ensures ClassifyNestable(p) == NestableProperty(p.name, Unknown, None)
    ensures ClassifyFlat(p) == ModelProperty(p.name, Unknown)
  {
    TryParseUnknown(p.propertyType.name);
  }

  function ExtractFlat(t: NamedTypeSymbol): (r: seq<ModelProperty>)
    ensures |r| == |EligibleProperties(t)|
    ensures forall k :: 0 <= k < |r| ==> r[k] == ClassifyFlat(EligibleProperties(t)[k])
  {
    var ps := EligibleProperties(t);
    seq(|ps|, k requires 0 <= k < |ps| => ClassifyFlat(ps[k]))
  }

  function ExtractNestable(t: NamedTypeSymbol): (r: seq<NestableProperty>)
    ensures |r| == |EligibleProperties(t)|
    ensures forall k :: 0 <= k < |r| ==> r[k] == ClassifyNestable(EligibleProperties(t)[k])
  {
    var ps := EligibleProperties(t);
    seq(|ps|, k requires 0 <= k < |ps| => ClassifyNestable(ps[k]))
  }

  /**
   * Extraction keeps exactly the eligible properties, once each, in
   * `GetMembers` order: entry `k` of both models comes from property
   * `idx[k]`, `idx` is strictly increasing, and every eligible property is hit.
   */
  lemma ExtractionKeepsEligibleInOrder(t: NamedTypeSymbol) returns (idx: seq<nat>)
    ensures |idx| == |ExtractFlat(t)| == |ExtractNestable(t)|
    ensures forall k :: 0 <= k < |idx| ==> idx[k] < |Properties(t)| && Eligible(Properties(t)[idx[k]])
    ensures forall k :: 0 <= k < |idx| ==>
      ExtractFlat(t)[k] == ClassifyFlat(Properties(t)[idx[k]]) &&
      ExtractNestable(t)[k] == ClassifyNestable(Properties(t)[idx[k]])
    ensures forall k, l :: 0 <= k < l < |idx| ==> idx[k] < idx[l]
    ensures forall j :: 0 <= j < |Properties(t)| ==> (Eligible(Properties(t)[j]) <==> j in idx)
  {
    idx := Sequences.FilterIndices(Properties(t), Eligible);
  }

  /** The flat transform; the host only calls it for a type carrying `OrmModelAttribute`. */
  function FlatTransform(t: NamedTypeSymbol): (r: Result<MetadataModel, TransformError>)
    requires |MatchingAttributes(t, OrmModelMetadataName)| > 0
    ensures r.Ok? <==> GetToStringInfo(MatchingAttributes(t, OrmModelMetadataName)).Ok?
    ensures r.Ok? ==>
      && r.value.name == t.name
      && r.value.namespace == ContainingNamespaceName(t)
      && r.value.properties == ExtractFlat(t)
      && r.value.generateToString == GetToStringInfo(MatchingAttributes(t, OrmModelMetadataName)).value
  {
    match GetToStringInfo(MatchingAttributes(t, OrmModelMetadataName))
    case Ok(generateToString) =>
      Ok(MetadataModel(t.name, ContainingNamespaceName(t), ExtractFlat(t), generateToString))
    case Err(e) => Err(e)
  }

  /** The nestable transform; the host only calls it for a type carrying `NestableOrmModelAttribute`. */
  function NestableTransform(t: NamedTypeSymbol): (r: Result<NestableMetadataModel, TransformError>)
    requires |MatchingAttributes(t, NestableOrmModelMetadataName)| > 0
    ensures r.Ok? <==> GetToStringInfo(MatchingAttributes(t, NestableOrmModelMetadataName)).Ok?
    ensures r.Ok? ==>
      && r.value.name == t.name
      && r.value.namespace == ContainingNamespaceName(t)
      && r.value.properties == ExtractNestable(t)
      && r.value.generateToString == GetToStringInfo(MatchingAttributes(t, NestableOrmModelMetadataName)).value
  {
    match GetToStringInfo(MatchingAttributes(t, NestableOrmModelMetadataName))
    case Ok(generateToString) =>
      Ok(NestableMetadataModel(t.name, ContainingNamespaceName(t), ExtractNestable(t), generateToString))
    case Err(e) => Err(e)
  }
}
