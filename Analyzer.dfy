/**
 * The analyzer's three rules. ORM001 runs on every property symbol: its type
 * must be a scalar (its short name is exactly a `DbDataType` member name) or
 * carry one of the two model attributes. ORM002 and ORM003 run on every named
 * type: a nestable model that nests nothing is told it need not be nestable,
 * and a flat model that nests something is told it must be nestable.
 *
 * Each symbol action pushes into the analysis context's diagnostic sink; the
 * sink is a class whose one field the actions extend, and each action is
 * proved against a function giving the diagnostics it reports.
 */
module Analyzer {
  import opened Wrappers
  import opened DbDataTypes
  import opened Symbols
  import Sequences
  import opened NestableMetadataModels
  import opened Extraction

  datatype Severity = Hidden | Info | Warning | Error

  datatype DiagnosticDescriptor = DiagnosticDescriptor(
    id: string,
    title: string,
    messageFormat: string,
    category: string,
    description: string,
    defaultSeverity: Severity,
    isEnabledByDefault: bool)

  const NotMarkedRule := DiagnosticDescriptor(
    "ORM001",
    "Model must be marked",
    "The type {0} of property {1} must be a marked model",
    "Syntax",
    "The property is neither a standard database type, nor a model marked with OrmModelAttribute or NestableOrmModelAttribute.",
    Error,
    true)

  const NonBasicRule := DiagnosticDescriptor(
    "ORM002",
    "Nestable not necessary",
    "The model of type {0} doesn't contain other models and shouldn't be nestable",
    "Syntax",
    "The type doesn't contain other models in it's definition. Consider changing the attribute from NestableOrmModelAttribute to OrmModelAttribute.",
    Info,
    true)

  const NonNestableRule := DiagnosticDescriptor(
    "ORM003",
    "Nestable required",
    "The model of type {0} isn't nestable and mustn't contain other models",
    "Syntax",
    "The type isn't nestable, yet it contains other models in it's definition. Change the attribute from OrmModelAttribute to NestableOrmModelAttribute or remove unsupported properties.",
    Error,
    true)

  const SupportedDiagnostics := [NotMarkedRule, NonBasicRule, NonNestableRule]

  /** A reported diagnostic: its rule, where it is located and the arguments of the message format. */
  datatype Diagnostic = Diagnostic(descriptor: DiagnosticDescriptor, location: Location, arguments: seq<string>)

  /** `new HashSet<string>(Enum.GetNames(typeof(DbDataType)))`: the member names, compared ordinally. */
  const ScalarNames: set<string> := set i | 0 <= i < |Names()| :: Names()[i]

  /** `s` is the declared name of some `DbDataType` member, exactly. */
  predicate IsMemberName(s: string) {
    exists t :: Name(t) == s
  }

  lemma ScalarNamesAreMemberNames(s: string)
    ensures s in ScalarNames <==> IsMemberName(s)
  {
    var names := Names();
    assert |names| == |Members|;
    if s in ScalarNames {
      var i :| 0 <= i < |names| && names[i] == s;
      assert Name(Members[i]) == s;
    }
    if t :| Name(t) == s {
      var i := Ordinal(t);
      assert names[i] == s;
      assert names[i] in ScalarNames;
    }
  }

  /**
   * The property action's test on the type: an attribute whose class is
   * named `OrmModelAttribute` or `NestableOrmModelAttribute`, in any namespace.
   */
  predicate IsMarkedModel(t: TypeReference) {
    HasAttribute(t.attributes, OrmModelAttributeName) || HasAttribute(t.attributes, NestableOrmModelAttributeName)
  }

  /** ORM001: what the property action reports for `p`. */
  function PropertyDiagnostics(p: PropertySymbol): seq<Diagnostic> {
    if p.propertyType.name in ScalarNames || IsMarkedModel(p.propertyType) then []
    else [Diagnostic(NotMarkedRule, p.location, [p.propertyType.name, p.name])]
  }

  /** Every property member is scalar-named (vacuously true without properties). */
  predicate AllScalar(t: NamedTypeSymbol) {
    forall k :: 0 <= k < |Properties(t)| ==> Properties(t)[k].propertyType.name in ScalarNames
  }

  /** ORM002 and ORM003: what the named-type action reports for `t`. */
  function TypeDiagnostics(t: NamedTypeSymbol): seq<Diagnostic> {
    if HasAttribute(t.attributes, NestableOrmModelAttributeName) then
      if AllScalar(t) then [Diagnostic(NonBasicRule, t.location, [t.name])] else []
    else if HasAttribute(t.attributes, OrmModelAttributeName) then
      if AllScalar(t) then [] else [Diagnostic(NonNestableRule, t.location, [t.name])]
    else []
  }

  /** `ctx.ReportDiagnostic`: the sink the actions report into. */
  class AnalysisContext {
    var reported: seq<Diagnostic>

    constructor ()
      ensures reported == []
    {
      reported := [];
    }

    method ReportDiagnostic(d: Diagnostic)
      modifies this
      ensures reported == old(reported) + [d]
    {
      reported := reported + [d];
    }
  }

  /** The property symbol action. */
  method AnalyzeProperty(ctx: AnalysisContext, property: PropertySymbol)
    modifies ctx
    ensures ctx.reported == old(ctx.reported) + PropertyDiagnostics(property)
  {
    if property.propertyType.name in ScalarNames {
      return;
    }
    if IsMarkedModel(property.propertyType) {
      return;
    }
    var diagnostic := Diagnostic(NotMarkedRule, property.location, [property.propertyType.name, property.name]);
    ctx.ReportDiagnostic(diagnostic);
  }

  /** The named-type symbol action: one pass over the properties, returning at the first non-scalar one. */
  method AnalyzeNamedType(ctx: AnalysisContext, namedType: NamedTypeSymbol)
    modifies ctx
    ensures ctx.reported == old(ctx.reported) + TypeDiagnostics(namedType)
  {
    var attributeData := namedType.attributes;
    var properties := Properties(namedType);
    if HasAttribute(attributeData, NestableOrmModelAttributeName) {
      var i := 0;
      while i < |properties|
        invariant 0 <= i <= |properties|
        invariant forall k :: 0 <= k < i ==> properties[k].propertyType.name in ScalarNames
      {
        if properties[i].propertyType.name !in ScalarNames {
          return;
        }
        i := i + 1;
      }
      var diagnostic := Diagnostic(NonBasicRule, namedType.location, [namedType.name]);
      ctx.ReportDiagnostic(diagnostic);
    } else if HasAttribute(attributeData, OrmModelAttributeName) {
      var i := 0;
      while i < |properties|
        invariant 0 <= i <= |properties|
        invariant forall k :: 0 <= k < i ==> properties[k].propertyType.name in ScalarNames
      {
        if properties[i].propertyType.name !in ScalarNames {
          var diagnostic := Diagnostic(NonNestableRule, namedType.location, [namedType.name]);
          ctx.ReportDiagnostic(diagnostic);
          return;
        }
        i := i + 1;
      }
    }
  }

  /**
   * ORM001 is reported, once, exactly when the type's short name is no member
   * name and the type carries neither model attribute; it names the type and
   * then the property, and sits at the property.
   */
  lemma NotMarkedExactlyWhenUnscalarAndUnmarked(p: PropertySymbol)
    ensures |PropertyDiagnostics(p)| <= 1
    ensures PropertyDiagnostics(p) != [] <==>
      !IsMemberName(p.propertyType.name) && !IsMarkedModel(p.propertyType)
    ensures PropertyDiagnostics(p) != [] ==>
      && PropertyDiagnostics(p)[0].descriptor.id == "ORM001"
      && PropertyDiagnostics(p)[0].descriptor.defaultSeverity == Error
      && PropertyDiagnostics(p)[0].arguments == [p.propertyType.name, p.name]
      && PropertyDiagnostics(p)[0].location == p.location
  {
    ScalarNamesAreMemberNames(p.propertyType.name);
  }

  /** ORM001 looks at the property's type only: accessibility and setter do not matter. */
  lemma NotMarkedIgnoresAccessAndSetter(p: PropertySymbol, accessibility: Accessibility, hasSetter: bool)
    ensures PropertyDiagnostics(p.(accessibility := accessibility, hasSetter := hasSetter)) == PropertyDiagnostics(p)
  {
  }

  /**
   * ORM002 and ORM003 never fire together: a type gets at most one of them,
   * and one with both attributes is only ever told ORM002.
   */
  lemma AtMostOneTypeDiagnostic(t: NamedTypeSymbol)
    ensures |TypeDiagnostics(t)| <= 1
    ensures TypeDiagnostics(t) != [] ==> TypeDiagnostics(t)[0].location == t.location && TypeDiagnostics(t)[0].arguments == [t.name]
    ensures TypeDiagnostics(t) != [] && HasAttribute(t.attributes, NestableOrmModelAttributeName) ==>
      TypeDiagnostics(t)[0].descriptor == NonBasicRule
    ensures TypeDiagnostics(t) != [] ==>
      (TypeDiagnostics(t)[0].descriptor == NonBasicRule) != (TypeDiagnostics(t)[0].descriptor == NonNestableRule)
  {
  }

  /** ORM002 (Info) for exactly the nestable models all of whose properties are scalar-named, including none. */
  lemma NonBasicExactlyWhenNothingNested(t: NamedTypeSymbol)
    ensures (exists d :: d in TypeDiagnostics(t) && d.descriptor == NonBasicRule) <==>
      HasAttribute(t.attributes, NestableOrmModelAttributeName) &&
      forall k :: 0 <= k < |Properties(t)| ==> IsMemberName(Properties(t)[k].propertyType.name)
    ensures NonBasicRule.defaultSeverity == Info
  {
    forall k | 0 <= k < |Properties(t)| {
      ScalarNamesAreMemberNames(Properties(t)[k].propertyType.name);
    }
    assert NonBasicRule.id != NonNestableRule.id;
    if HasAttribute(t.attributes, NestableOrmModelAttributeName) && AllScalar(t) {
      assert TypeDiagnostics(t)[0] in TypeDiagnostics(t);
      assert exists d :: d in TypeDiagnostics(t) && d.descriptor == NonBasicRule;
    } else if !HasAttribute(t.attributes, NestableOrmModelAttributeName) {
      assert forall d :: d in TypeDiagnostics(t) ==> d.descriptor == NonNestableRule;
    } else {
      assert TypeDiagnostics(t) == [];
      var k :| 0 <= k < |Properties(t)| && Properties(t)[k].propertyType.name !in ScalarNames;
    }
  }

  /**
   * ORM003 (Error) for exactly the flat-only models with some non-scalar
   * property, reported once however many such properties there are.
   */
  lemma NonNestableExactlyWhenSomethingNested(t: NamedTypeSymbol)
    ensures (exists d :: d in TypeDiagnostics(t) && d.descriptor == NonNestableRule) <==>
      && !HasAttribute(t.attributes, NestableOrmModelAttributeName)
      && HasAttribute(t.attributes, OrmModelAttributeName)
      && exists k :: 0 <= k < |Properties(t)| && !IsMemberName(Properties(t)[k].propertyType.name)
    ensures |TypeDiagnostics(t)| <= 1
    ensures NonNestableRule.defaultSeverity == Error
  {
    forall k | 0 <= k < |Properties(t)| {
      ScalarNamesAreMemberNames(Properties(t)[k].propertyType.name);
    }
    assert NonBasicRule.id != NonNestableRule.id;
    if !HasAttribute(t.attributes, NestableOrmModelAttributeName) && HasAttribute(t.attributes, OrmModelAttributeName) {
      if AllScalar(t) {
        assert TypeDiagnostics(t) == [];
      } else {
        assert TypeDiagnostics(t)[0] in TypeDiagnostics(t);
        var k :| 0 <= k < |Properties(t)| && Properties(t)[k].propertyType.name !in ScalarNames;
        }
    } else {
      assert forall d :: d in TypeDiagnostics(t) ==> d.descriptor == NonBasicRule;
    }
  }

  /**
   * The type rules read every property, not just those the generator keeps:
   * a private property with no setter and a non-scalar type makes a flat
   * model ORM003 although the generator never sees that property.
   */
  lemma TypeRulesIgnoreGeneratorFilter(t: NamedTypeSymbol, k: nat)
    requires !HasAttribute(t.attributes, NestableOrmModelAttributeName) && HasAttribute(t.attributes, OrmModelAttributeName)
    requires k < |Properties(t)|
    requires Properties(t)[k].accessibility == Private && !Properties(t)[k].hasSetter
    requires Properties(t)[k].propertyType.name !in ScalarNames
    ensures TypeDiagnostics(t) == [Diagnostic(NonNestableRule, t.location, [t.name])]
    ensures forall j :: 0 <= j < |EligibleProperties(t)| ==> EligibleProperties(t)[j] != Properties(t)[k]
  {
    assert !Eligible(Properties(t)[k]);
  }

  /**
   * A nestable model the analyzer calls ORM002 nests nothing in the generated
   * code either: each property the generator keeps classifies as a scalar.
   */
  lemma NonBasicModelsNestNothing(t: NamedTypeSymbol)
    requires HasAttribute(t.attributes, NestableOrmModelAttributeName)
    requires TypeDiagnostics(t) != []
    ensures forall j :: 0 <= j < |ExtractNestable(t)| ==> ExtractNestable(t)[j].customType.None?
  {
    var idx := ExtractionKeepsEligibleInOrder(t);
    forall j | 0 <= j < |ExtractNestable(t)| ensures ExtractNestable(t)[j].customType.None? {
      var p := Properties(t)[idx[j]];
      ScalarNamesAreMemberNames(p.propertyType.name);
      var s :| Name(s) == p.propertyType.name;
      assert EqualIgnoringCase(p.propertyType.name, Name(s));
    }
  }

  /**
   * The analyzer's match is case-sensitive where the generator's is not: a
   * property typed `int32` on an unmarked type is ORM001, while the generator
   * reads it as an `Int32` column.
   */
  lemma CaseSensitivityDiffers(p: PropertySymbol)
    requires p.propertyType.name == "int32" && p.propertyType.attributes == []
    ensures PropertyDiagnostics(p) == [Diagnostic(NotMarkedRule, p.location, ["int32", p.name])]
    ensures ClassifyFlat(p).dataType == Int32
  {
    ScalarNamesAreMemberNames("int32");
    assert Upper("int32") == UpperName(Int32);
  }

  /**
   * The analyzer matches a marker by its class's short name in any
   * namespace, the generator by its full metadata name: a type carrying an
   * `OrmModelAttribute` declared in another namespace passes ORM001 and is
   * held to ORM003 as a flat model, yet neither pipeline generates its source.
   */
  lemma ForeignMarkerDiffers(t: NamedTypeSymbol, p: PropertySymbol, ns: string, args: seq<NamedArgument>)
    requires ns != "OrmGenerator"
    requires t.attributes == [AttributeData(Some(AttributeClass([ns], OrmModelAttributeName)), args)]
    requires p.propertyType == TypeReference(t.name, t.attributes)
    ensures PropertyDiagnostics(p) == []
    ensures TypeDiagnostics(t) == if AllScalar(t) then [] else [Diagnostic(NonNestableRule, t.location, [t.name])]
    ensures MatchingAttributes(t, OrmModelMetadataName) == []
    ensures MatchingAttributes(t, NestableOrmModelMetadataName) == []
  {
    SingleSegmentMetadataName(ns, OrmModelAttributeName);
    var full := MetadataName(t.attributes[0].attributeClass.value);
    assert full[..|ns|] == ns && |full| == |ns| + 18;
    assert |OrmModelMetadataName| == 30 && OrmModelMetadataName[..12] == "OrmGenerator";
    assert full[|full| - 18] == '.' && NestableOrmModelMetadataName[20] == 'e';
    assert !HasAttribute(t.attributes, NestableOrmModelAttributeName);
  }

  /** `Unknown` is a member name, so the analyzer accepts a type named `Unknown` without any mark. */
  lemma UnknownIsScalarToTheAnalyzer(p: PropertySymbol)
    requires p.propertyType.name == "Unknown"
    ensures PropertyDiagnostics(p) == []
  {
    ScalarNamesAreMemberNames("Unknown");
    assert Name(Unknown) == "Unknown";
  }
}
