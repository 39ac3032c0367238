/**
 * The repository's own fixture (`DbModel` nesting `Point`) and a three-level
 * nesting, carried from the type declarations through extraction and the
 * generated code's column assignment.
 */
module WorkedExamples {
  import opened Wrappers
  import opened DbDataTypes
  import opened Symbols
  import opened MetadataModels
  import opened NestableMetadataModels
  import opened Extraction
  import opened Emission
  import opened ColumnLayout

  function Prop(name: string, typeName: string, typeAttributes: seq<AttributeData>, position: nat): PropertySymbol {
    PropertySymbol(name, Public, true, TypeReference(typeName, typeAttributes), Location("Tests/DbModel.cs", position))
  }

  const OrmModel := AttributeData(Some(AttributeClass([MarkerNamespace], OrmModelAttributeName)), [])
  const NestableOrmModel := AttributeData(Some(AttributeClass([MarkerNamespace], NestableOrmModelAttributeName)), [])

  /** `[OrmModel] partial class Point { int X; int Y; }` in namespace `Tests`. */
  const PointType := NamedTypeSymbol("Point", ["Tests"], [OrmModel],
    [PropertyMember(Prop("X", "Int32", [], 25)), PropertyMember(Prop("Y", "Int32", [], 26))],
    Location("Tests/DbModel.cs", 23))

  /** `[NestableOrmModel] partial class DbModel { int Id; string Row1; Point Point; string Row4; ToString }`. */
  const DbModelType := NamedTypeSymbol("DbModel", ["Tests"], [NestableOrmModel],
    [ PropertyMember(Prop("Id", "Int32", [], 7)),
      PropertyMember(Prop("Row1", "String", [], 8)),
      PropertyMember(Prop("Point", "Point", [OrmModel], 9)),
      PropertyMember(Prop("Row4", "String", [], 10)),
      OtherMember("ToString") ],
    Location("Tests/DbModel.cs", 5))

  const PointModel := MetadataModel("Point", "Tests",
    [ModelProperty("X", Int32), ModelProperty("Y", Int32)], false)

  const DbModelModel := NestableMetadataModel("DbModel", "Tests",
    [ NestableProperty("Id", Int32, None),
      NestableProperty("Row1", String, None),
      NestableProperty("Point", Unknown, Some("Point")),
      NestableProperty("Row4", String, None) ], false)

  /** A property whose type short name is a kind's own name is classified as that kind by both transforms. */
  lemma ScalarClassification(p: PropertySymbol, t: DbDataType)
    requires p.propertyType.name == Name(t)
    ensures ClassifyFlat(p) == ModelProperty(p.name, t)
    ensures ClassifyNestable(p) == NestableProperty(p.name, t, None)
  {
    TryParseName(t);
  }

  /** `e` is what the flat transform records for `p`: a kind whose name is the type's short name. */
  ghost predicate DescribesFlat(p: PropertySymbol, e: ModelProperty) {
    p.name == e.name && p.propertyType.name == Name(e.dataType)
  }

  lemma DescribedFlatExtraction(t: NamedTypeSymbol, expected: seq<ModelProperty>)
    requires |EligibleProperties(t)| == |expected|
    requires forall k :: 0 <= k < |expected| ==> DescribesFlat(EligibleProperties(t)[k], expected[k])
    ensures ExtractFlat(t) == expected
  {
    forall k | 0 <= k < |expected| ensures ExtractFlat(t)[k] == expected[k] {
      ScalarClassification(EligibleProperties(t)[k], expected[k].dataType);
    }
  }

  /**
   * `e` is what the nestable transform records for `p`: a kind whose name is
   * the type's short name, or a nested model named after a type that is no kind.
   */
  ghost predicate Describes(p: PropertySymbol, e: NestableProperty) {
    && p.name == e.name
    && match e.customType
       case None => p.propertyType.name == Name(e.dataType)
       case Some(c) => e.dataType == Unknown && c == p.propertyType.name && forall t :: !EqualIgnoringCase(c, Name(t))
  }

  lemma DescribedExtraction(t: NamedTypeSymbol, expected: seq<NestableProperty>)
    requires |EligibleProperties(t)| == |expected|
    requires forall k :: 0 <= k < |expected| ==> Describes(EligibleProperties(t)[k], expected[k])
    ensures ExtractNestable(t) == expected
  {
    forall k | 0 <= k < |expected| ensures ExtractNestable(t)[k] == expected[k] {
      var p := EligibleProperties(t)[k];
      if expected[k].customType.None? {
        ScalarClassification(p, expected[k].dataType);
      }
    }
  }

  const PointX := Prop("X", "Int32", [], 25)
  const PointY := Prop("Y", "Int32", [], 26)

  /** The two marker attributes as the bootstrap source declares them, in namespace `OrmGenerator`. */
  lemma MarkerMetadataNames()
    ensures HasMetadataName(OrmModel, OrmModelMetadataName)
    ensures HasMetadataName(NestableOrmModel, NestableOrmModelMetadataName)
  {
    SingleSegmentMetadataName(MarkerNamespace, OrmModelAttributeName);
    SingleSegmentMetadataName(MarkerNamespace, NestableOrmModelAttributeName);
  }

  lemma PointIsFlatModel()
    ensures MatchingAttributes(PointType, OrmModelMetadataName) == [OrmModel]
  {
    MarkerMetadataNames();
    assert PointType.attributes == [OrmModel];
    assert PointType.attributes[1..] == [];
  }

  lemma PointProperties()
    ensures EligibleProperties(PointType) == [PointX, PointY]
  {
    Sequences.FilterKeepsAll(PointType.members, IsProperty);
    assert Properties(PointType) == [PointX, PointY];
    Sequences.FilterKeepsAll([PointX, PointY], Eligible);
  }

  lemma PointExtraction()
    ensures |MatchingAttributes(PointType, OrmModelMetadataName)| > 0 && FlatTransform(PointType) == Ok(PointModel)
  {
    PointIsFlatModel();
    PointProperties();
    DescribedFlatExtraction(PointType, PointModel.properties);
  }

  lemma PointTypeNotScalar()
    ensures forall t :: !EqualIgnoringCase("Point", Name(t))
  {
    assert Upper("Point") == "POINT";
    forall t ensures !EqualIgnoringCase("Point", Name(t)) {
      assert UpperName(t) != "POINT";
    }
  }

  const DbId := Prop("Id", "Int32", [], 7)
  const DbRow1 := Prop("Row1", "String", [], 8)
  const DbPoint := Prop("Point", "Point", [OrmModel], 9)
  const DbRow4 := Prop("Row4", "String", [], 10)

  lemma DbModelIsNestableModel()
    ensures MatchingAttributes(DbModelType, NestableOrmModelMetadataName) == [NestableOrmModel]
  {
    MarkerMetadataNames();
    assert DbModelType.attributes == [NestableOrmModel];
    assert DbModelType.attributes[1..] == [];
  }

  lemma DbModelProperties()
    ensures EligibleProperties(DbModelType) == [DbId, DbRow1, DbPoint, DbRow4]
  {
    var members := DbModelType.members;
    assert members == members[..4] + [OtherMember("ToString")];
    Sequences.FilterConcat(members[..4], [OtherMember("ToString")], IsProperty);
    Sequences.FilterKeepsAll(members[..4], IsProperty);
    assert Properties(DbModelType) == [DbId, DbRow1, DbPoint, DbRow4];
    Sequences.FilterKeepsAll([DbId, DbRow1, DbPoint, DbRow4], Eligible);
  }

  lemma DbModelEntries()
    ensures ExtractNestable(DbModelType) == DbModelModel.properties
  {
    DbModelProperties();
    PointTypeNotScalar();
    DescribedExtraction(DbModelType, DbModelModel.properties);
  }

  lemma DbModelExtraction()
    ensures |MatchingAttributes(DbModelType, NestableOrmModelMetadataName)| > 0 && NestableTransform(DbModelType) == Ok(DbModelModel)
  {
    DbModelIsNestableModel();
    DbModelEntries();
  }
}
