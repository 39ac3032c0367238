/**
 * The column layouts of the fixture (`DbModel` nesting `Point`) and of a
 * three-level nesting.
 */
module LayoutExamples {
  import opened Wrappers
  import opened DbDataTypes
  import opened MetadataModels
  import opened NestableMetadataModels
  import opened Emission
  import opened ColumnLayout
  import opened WorkedExamples

  /** The models the generator produces for the fixture, by type short name. */
  const FixtureModels: map<string, GeneratedModel> :=
    map["Point" := Flat(PointModel), "DbModel" := Nestable(DbModelModel)]

  /** `Point` reads X at column 0 and Y at column 1. */
  lemma PointColumns()
    ensures ReadModel(FixtureModels, Flat(PointModel))
         == Ok([Column(["X"], "Int32", 0), Column(["Y"], "Int32", 1)])
  {
    FlatModelReadsColumnsInOrder(FixtureModels, PointModel);
    var cs := ReadModel(FixtureModels, Flat(PointModel)).value;
    assert Accessor(Int32) == "Int32";
    assert |cs| == 2 && cs[0] == Column(["X"], "Int32", 0) && cs[1] == Column(["Y"], "Int32", 1);
    assert cs == [Column(["X"], "Int32", 0), Column(["Y"], "Int32", 1)];
  }

  /** One column-reading initializer in front of `rest`: its column at the cursor, then `rest` from the next one. */
  lemma ColumnInFront(env: map<string, GeneratedModel>, avail: set<string>, property: string, accessor: string,
                      rest: seq<Initializer>, start: nat, restColumns: seq<Column>, next: nat)
    requires LayoutOf(env, avail, rest, start + 1) == Ok(Layout(restColumns, next))
    ensures LayoutOf(env, avail, [ReadColumn(property, accessor)] + rest, start)
         == Ok(Layout([Column([property], accessor, start)] + restColumns, next))
  {
    var inits := [ReadColumn(property, accessor)] + rest;
    assert inits[0] == ReadColumn(property, accessor) && inits[1..] == rest;
  }

  /** A lone column-reading initializer takes the cursor's column and advances it by one. */
  lemma LoneColumn(env: map<string, GeneratedModel>, avail: set<string>, property: string, accessor: string, start: nat)
    ensures LayoutOf(env, avail, [ReadColumn(property, accessor)], start)
         == Ok(Layout([Column([property], accessor, start)], start + 1))
  {
    var inits := [ReadColumn(property, accessor)];
    assert inits[0] == ReadColumn(property, accessor) && inits[1..] == [];
    assert LayoutOf(env, avail, [], start + 1) == Ok(Layout([], start + 1));
    assert [Column([property], accessor, start)] + [] == [Column([property], accessor, start)];
  }

  /** One nested-model initializer in front of `rest`: the nested model's columns under `property`, then `rest`. */
  lemma NestedInFront(env: map<string, GeneratedModel>, avail: set<string>, property: string, modelType: string,
                      rest: seq<Initializer>, start: nat, inner: Layout, restColumns: seq<Column>, next: nat)
    requires modelType in env && modelType in avail
    requires LayoutOf(env, avail - {modelType}, Initializers(env[modelType]), start) == Ok(inner)
    requires LayoutOf(env, avail, rest, inner.next) == Ok(Layout(restColumns, next))
    ensures LayoutOf(env, avail, [ReadNested(property, modelType)] + rest, start)
         == Ok(Layout(UnderColumns(property, inner.columns) + restColumns, next))
  {
    var inits := [ReadNested(property, modelType)] + rest;
    assert inits[0] == ReadNested(property, modelType) && inits[1..] == rest;
  }

  lemma UnderColumnsCons(property: string, c: Column, cs: seq<Column>)
    ensures UnderColumns(property, [c] + cs) == [c.(path := [property] + c.path)] + UnderColumns(property, cs)
  {
    assert UnderColumns(property, [c] + cs)[1..] == UnderColumns(property, cs);
  }

  /** `Point`'s two reads from any cursor position. */
  lemma PointReadsFrom(env: map<string, GeneratedModel>, avail: set<string>, start: nat)
    ensures LayoutOf(env, avail, Initializers(Flat(PointModel)), start)
         == Ok(Layout([Column(["X"], "Int32", start), Column(["Y"], "Int32", start + 1)], start + 2))
  {
    var py := [ReadColumn("Y", "Int32")];
    assert Initializers(Flat(PointModel)) == [ReadColumn("X", "Int32")] + py;
    LoneColumn(env, avail, "Y", "Int32", start + 1);
    ColumnInFront(env, avail, "X", "Int32", py, start, [Column(["Y"], "Int32", start + 1)], start + 2);
    assert [Column(["X"], "Int32", start)] + [Column(["Y"], "Int32", start + 1)]
        == [Column(["X"], "Int32", start), Column(["Y"], "Int32", start + 1)];
  }

  /** `DbModel`'s reads from `Point` on, with the cursor at 2: Point.X@2, Point.Y@3, Row4@4. */
  lemma DbModelTailColumns(env: map<string, GeneratedModel>, avail: set<string>)
    requires "Point" in env && env["Point"] == Flat(PointModel) && "Point" in avail
    ensures LayoutOf(env, avail, [ReadNested("Point", "Point"), ReadColumn("Row4", "String")], 2) == Ok(Layout(
      [Column(["Point", "X"], "Int32", 2), Column(["Point", "Y"], "Int32", 3), Column(["Row4"], "String", 4)], 5))
  {
    PointReadsFrom(env, avail - {"Point"}, 2);
    var inner := Layout([Column(["X"], "Int32", 2), Column(["Y"], "Int32", 3)], 4);
    var r4 := [ReadColumn("Row4", "String")];
    LoneColumn(env, avail, "Row4", "String", 4);
    var c4 := [Column(["Row4"], "String", 4)];
    NestedInFront(env, avail, "Point", "Point", r4, 2, inner, c4, 5);
    assert [ReadNested("Point", "Point"), ReadColumn("Row4", "String")] == [ReadNested("Point", "Point")] + r4;
    UnderColumnsCons("Point", Column(["X"], "Int32", 2), [Column(["Y"], "Int32", 3)]);
    UnderColumnsCons("Point", Column(["Y"], "Int32", 3), []);
    assert ["Point"] + ["X"] == ["Point", "X"] && ["Point"] + ["Y"] == ["Point", "Y"];
    assert UnderColumns("Point", inner.columns) + c4
        == [Column(["Point", "X"], "Int32", 2), Column(["Point", "Y"], "Int32", 3), Column(["Row4"], "String", 4)];
  }

  /** A lone nested-model initializer: the nested model's columns under `property`, and the cursor where they end. */
  lemma LoneNested(env: map<string, GeneratedModel>, avail: set<string>, property: string, modelType: string,
                   start: nat, inner: Layout)
    requires modelType in env && modelType in avail
    requires LayoutOf(env, avail - {modelType}, Initializers(env[modelType]), start) == Ok(inner)
    ensures LayoutOf(env, avail, [ReadNested(property, modelType)], start)
         == Ok(Layout(UnderColumns(property, inner.columns), inner.next))
  {
    var inits := [ReadNested(property, modelType)];
    assert inits[0] == ReadNested(property, modelType) && inits[1..] == [];
    assert LayoutOf(env, avail, [], inner.next) == Ok(Layout([], inner.next));
    assert UnderColumns(property, inner.columns) + [] == UnderColumns(property, inner.columns);
  }

  /** A model's columns are those its initializers read from column 0, with its own type no longer available. */
  lemma ReadModelFrom(env: map<string, GeneratedModel>, g: GeneratedModel, inits: seq<Initializer>,
                      columns: seq<Column>, next: nat)
    requires Initializers(g) == inits
    requires LayoutOf(env, env.Keys - {ModelName(g)}, inits, 0) == Ok(Layout(columns, next))
    ensures ReadModel(env, g) == Ok(columns)
  {
  }

  lemma DbModelInitializers()
    ensures Initializers(Nestable(DbModelModel))
         == [ReadColumn("Id", "Int32"), ReadColumn("Row1", "String"), ReadNested("Point", "Point"), ReadColumn("Row4", "String")]
  {
    var ps := DbModelModel.properties;
    assert Accessor(Int32) == "Int32" && Accessor(String) == "String";
    assert NestableInitializer(ps[0]) == ReadColumn("Id", "Int32");
    assert NestableInitializer(ps[1]) == ReadColumn("Row1", "String");
    assert NestableInitializer(ps[2]) == ReadNested("Point", "Point");
    assert NestableInitializer(ps[3]) == ReadColumn("Row4", "String");
  }

  /** `DbModel`'s four initializers from column 0. */
  lemma DbModelReads(env: map<string, GeneratedModel>, avail: set<string>)
    requires "Point" in env && env["Point"] == Flat(PointModel) && "Point" in avail
    ensures LayoutOf(env, avail,
      [ReadColumn("Id", "Int32"), ReadColumn("Row1", "String"), ReadNested("Point", "Point"), ReadColumn("Row4", "String")], 0)
      == Ok(Layout([
      Column(["Id"], "Int32", 0),
      Column(["Row1"], "String", 1),
      Column(["Point", "X"], "Int32", 2),
      Column(["Point", "Y"], "Int32", 3),
      Column(["Row4"], "String", 4)], 5))
  {
    var rp := [ReadNested("Point", "Point"), ReadColumn("Row4", "String")];
    DbModelTailColumns(env, avail);
    var cp := [Column(["Point", "X"], "Int32", 2), Column(["Point", "Y"], "Int32", 3), Column(["Row4"], "String", 4)];
    var r1 := [ReadColumn("Row1", "String")] + rp;
    ColumnInFront(env, avail, "Row1", "String", rp, 1, cp, 5);
    ColumnInFront(env, avail, "Id", "Int32", r1, 0, [Column(["Row1"], "String", 1)] + cp, 5);
    assert [ReadColumn("Id", "Int32")] + r1
        == [ReadColumn("Id", "Int32"), ReadColumn("Row1", "String"), ReadNested("Point", "Point"), ReadColumn("Row4", "String")];
    assert [Column(["Id"], "Int32", 0)] + ([Column(["Row1"], "String", 1)] + cp) == [
      Column(["Id"], "Int32", 0),
      Column(["Row1"], "String", 1),
      Column(["Point", "X"], "Int32", 2),
      Column(["Point", "Y"], "Int32", 3),
      Column(["Row4"], "String", 4)];
  }

  /** `DbModel` reads Id@0, Row1@1, Point.X@2, Point.Y@3, Row4@4. */
  lemma DbModelColumns()
    ensures ReadModel(FixtureModels, Nestable(DbModelModel)) == Ok([
      Column(["Id"], "Int32", 0),
      Column(["Row1"], "String", 1),
      Column(["Point", "X"], "Int32", 2),
      Column(["Point", "Y"], "Int32", 3),
      Column(["Row4"], "String", 4)])
  {
    var env := FixtureModels;
    var avail := env.Keys - {ModelName(Nestable(DbModelModel))};
    assert ModelName(Nestable(DbModelModel)) == "DbModel";
    assert "Point" in avail;
    DbModelInitializers();
    DbModelReads(env, avail);
    ReadModelFrom(env, Nestable(DbModelModel),
      [ReadColumn("Id", "Int32"), ReadColumn("Row1", "String"), ReadNested("Point", "Point"), ReadColumn("Row4", "String")],
      [Column(["Id"], "Int32", 0),
       Column(["Row1"], "String", 1),
       Column(["Point", "X"], "Int32", 2),
       Column(["Point", "Y"], "Int32", 3),
       Column(["Row4"], "String", 4)], 5);
  }

  /** Three levels of nesting: A nests B between its first and last column, B nests C after its two columns. */
  const ModelC := MetadataModel("C", "Ns", [ModelProperty("Col1", Int32)], false)
  const ModelB := NestableMetadataModel("B", "Ns",
    [NestableProperty("Col1", Int32, None), NestableProperty("Col2", String, None),
     NestableProperty("C", Unknown, Some("C"))], false)
  const ModelA := NestableMetadataModel("A", "Ns",
    [NestableProperty("First", Int32, None), NestableProperty("B", Unknown, Some("B")),
     NestableProperty("Last", Guid, None)], false)
  const ThreeLevels: map<string, GeneratedModel> := map["A" := Nestable(ModelA), "B" := Nestable(ModelB), "C" := Flat(ModelC)]

  lemma ModelCInitializers()
    ensures Initializers(Flat(ModelC)) == [ReadColumn("Col1", "Int32")]
  {
    assert Accessor(Int32) == "Int32";
    assert FlatInitializer(ModelC.properties[0]) == ReadColumn("Col1", "Int32");
  }

  lemma ModelBInitializers()
    ensures Initializers(Nestable(ModelB))
         == [ReadColumn("Col1", "Int32"), ReadColumn("Col2", "String"), ReadNested("C", "C")]
  {
    var ps := ModelB.properties;
    assert Accessor(Int32) == "Int32" && Accessor(String) == "String";
    assert NestableInitializer(ps[0]) == ReadColumn("Col1", "Int32");
    assert NestableInitializer(ps[1]) == ReadColumn("Col2", "String");
    assert NestableInitializer(ps[2]) == ReadNested("C", "C");
  }

  lemma ModelAInitializers()
    ensures Initializers(Nestable(ModelA))
         == [ReadColumn("First", "Int32"), ReadNested("B", "B"), ReadColumn("Last", "Guid")]
  {
    var ps := ModelA.properties;
    assert Accessor(Int32) == "Int32" && Accessor(Guid) == "Guid";
    assert NestableInitializer(ps[0]) == ReadColumn("First", "Int32");
    assert NestableInitializer(ps[1]) == ReadNested("B", "B");
    assert NestableInitializer(ps[2]) == ReadColumn("Last", "Guid");
  }

  /** B's nested C with the cursor at 3: C.Col1@3. */
  lemma ModelBTailColumns(env: map<string, GeneratedModel>, avail: set<string>)
    requires "C" in env && env["C"] == Flat(ModelC) && "C" in avail
    ensures LayoutOf(env, avail, [ReadNested("C", "C")], 3) == Ok(Layout([Column(["C", "Col1"], "Int32", 3)], 4))
  {
    ModelCInitializers();
    LoneColumn(env, avail - {"C"}, "Col1", "Int32", 3);
    var cLayout := Layout([Column(["Col1"], "Int32", 3)], 4);
    LoneNested(env, avail, "C", "C", 3, cLayout);
    UnderColumnsCons("C", Column(["Col1"], "Int32", 3), []);
    assert ["C"] + ["Col1"] == ["C", "Col1"];
    assert UnderColumns("C", cLayout.columns) == [Column(["C", "Col1"], "Int32", 3)];
  }

  /** B with the cursor at 1: Col1@1, Col2@2, C.Col1@3. */
  lemma ModelBColumns(env: map<string, GeneratedModel>, avail: set<string>)
    requires "C" in env && env["C"] == Flat(ModelC) && "C" in avail
    ensures LayoutOf(env, avail, Initializers(Nestable(ModelB)), 1) == Ok(Layout(
      [Column(["Col1"], "Int32", 1), Column(["Col2"], "String", 2), Column(["C", "Col1"], "Int32", 3)], 4))
  {
    var bc := [ReadNested("C", "C")];
    var b2 := [ReadColumn("Col2", "String")] + bc;
    var b1 := [ReadColumn("Col1", "Int32")] + b2;
    ModelBInitializers();
    assert Initializers(Nestable(ModelB)) == b1;
    ModelBTailColumns(env, avail);
    var bcCols := [Column(["C", "Col1"], "Int32", 3)];
    ColumnInFront(env, avail, "Col2", "String", bc, 2, bcCols, 4);
    ColumnInFront(env, avail, "Col1", "Int32", b2, 1, [Column(["Col2"], "String", 2)] + bcCols, 4);
    assert [Column(["Col1"], "Int32", 1)] + ([Column(["Col2"], "String", 2)] + bcCols)
        == [Column(["Col1"], "Int32", 1), Column(["Col2"], "String", 2), Column(["C", "Col1"], "Int32", 3)];
  }

  /** A's reads from B on, with the cursor at 1: B.Col1@1, B.Col2@2, B.C.Col1@3, Last@4. */
  lemma ModelATailColumns(env: map<string, GeneratedModel>, avail: set<string>)
    requires "B" in env && env["B"] == Nestable(ModelB) && "B" in avail
    requires "C" in env && env["C"] == Flat(ModelC) && "C" in avail - {"B"}
    ensures LayoutOf(env, avail, [ReadNested("B", "B"), ReadColumn("Last", "Guid")], 1) == Ok(Layout(
      [Column(["B", "Col1"], "Int32", 1), Column(["B", "Col2"], "String", 2),
       Column(["B", "C", "Col1"], "Int32", 3), Column(["Last"], "Guid", 4)], 5))
  {
    ModelBColumns(env, avail - {"B"});
    var bColumns := [Column(["Col1"], "Int32", 1), Column(["Col2"], "String", 2), Column(["C", "Col1"], "Int32", 3)];
    var bLayout := Layout(bColumns, 4);
    var aLast := [ReadColumn("Last", "Guid")];
    LoneColumn(env, avail, "Last", "Guid", 4);
    var lastCols := [Column(["Last"], "Guid", 4)];
    NestedInFront(env, avail, "B", "B", aLast, 1, bLayout, lastCols, 5);
    assert [ReadNested("B", "B"), ReadColumn("Last", "Guid")] == [ReadNested("B", "B")] + aLast;
    assert bColumns == [bColumns[0]] + ([bColumns[1]] + [bColumns[2]]);
    UnderColumnsCons("B", bColumns[0], [bColumns[1]] + [bColumns[2]]);
    UnderColumnsCons("B", bColumns[1], [bColumns[2]]);
    UnderColumnsCons("B", bColumns[2], []);
    assert ["B"] + ["Col1"] == ["B", "Col1"] && ["B"] + ["Col2"] == ["B", "Col2"];
    assert ["B"] + ["C", "Col1"] == ["B", "C", "Col1"];
    assert UnderColumns("B", bColumns) + lastCols == [Column(["B", "Col1"], "Int32", 1), Column(["B", "Col2"], "String", 2),
       Column(["B", "C", "Col1"], "Int32", 3), Column(["Last"], "Guid", 4)];
  }

  /** A's three initializers from column 0. */
  lemma ModelAReads(env: map<string, GeneratedModel>, avail: set<string>)
    requires "B" in env && env["B"] == Nestable(ModelB) && "B" in avail
    requires "C" in env && env["C"] == Flat(ModelC) && "C" in avail - {"B"}
    ensures LayoutOf(env, avail, [ReadColumn("First", "Int32"), ReadNested("B", "B"), ReadColumn("Last", "Guid")], 0)
      == Ok(Layout([
      Column(["First"], "Int32", 0),
      Column(["B", "Col1"], "Int32", 1),
      Column(["B", "Col2"], "String", 2),
      Column(["B", "C", "Col1"], "Int32", 3),
      Column(["Last"], "Guid", 4)], 5))
  {
    ModelATailColumns(env, avail);
    var aB := [ReadNested("B", "B"), ReadColumn("Last", "Guid")];
    var bCols := [Column(["B", "Col1"], "Int32", 1), Column(["B", "Col2"], "String", 2),
                  Column(["B", "C", "Col1"], "Int32", 3), Column(["Last"], "Guid", 4)];
    ColumnInFront(env, avail, "First", "Int32", aB, 0, bCols, 5);
    assert [ReadColumn("First", "Int32")] + aB
        == [ReadColumn("First", "Int32"), ReadNested("B", "B"), ReadColumn("Last", "Guid")];
    assert [Column(["First"], "Int32", 0)] + bCols == [
      Column(["First"], "Int32", 0),
      Column(["B", "Col1"], "Int32", 1),
      Column(["B", "Col2"], "String", 2),
      Column(["B", "C", "Col1"], "Int32", 3),
      Column(["Last"], "Guid", 4)];
  }

  /** A.First@0, B.Col1@1, B.Col2@2, B.C.Col1@3, A.Last@4. */
  lemma ThreeLevelColumns()
    ensures ReadModel(ThreeLevels, Nestable(ModelA)) == Ok([
      Column(["First"], "Int32", 0),
      Column(["B", "Col1"], "Int32", 1),
      Column(["B", "Col2"], "String", 2),
      Column(["B", "C", "Col1"], "Int32", 3),
      Column(["Last"], "Guid", 4)])
  {
    var env := ThreeLevels;
    var avail := env.Keys - {ModelName(Nestable(ModelA))};
    assert ModelName(Nestable(ModelA)) == "A";
    assert "B" in avail && "C" in avail - {"B"};
    ModelAInitializers();
    ModelAReads(env, avail);
    ReadModelFrom(env, Nestable(ModelA),
      [ReadColumn("First", "Int32"), ReadNested("B", "B"), ReadColumn("Last", "Guid")],
      [Column(["First"], "Int32", 0),
       Column(["B", "Col1"], "Int32", 1),
       Column(["B", "Col2"], "String", 2),
       Column(["B", "C", "Col1"], "Int32", 3),
       Column(["Last"], "Guid", 4)], 5);
  }
}
