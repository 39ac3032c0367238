# OrmCodeGenerator, modelled in Dafny

OrmCodeGenerator is a C# incremental source generator with a companion
analyzer. A class marked `[OrmModel]` (flat) or `[NestableOrmModel]` gets a
generated `partial` class. That class has a static `GetSingleModel(DbDataReader
reader, ref int index)`, which reads one column per scalar property with
`reader.Get<Kind>(index++)` and hands the same cursor to each nested model. It
also has a zero-argument `GetSingleModel(reader)` that starts the cursor at 0,
and an optional `ToString` override. The analyzer reports three rules:
- ORM001: a property type that is neither a scalar nor a marked model;
- ORM002: a nestable model that nests nothing;
- ORM003: a flat model that nests something.

The project models four things:

- **The two transform steps** (`Extraction`). Each turns a marked type into a
  `MetadataModel` or a `NestableMetadataModel`. It keeps the non-private,
  settable properties in declaration order and classifies each property's type
  short name by a case-insensitive parse against `DbDataType`. A failed parse
  becomes `Unknown` in the flat model, and `Unknown` plus the type name in the
  nestable model. The step also reads `GenerateToString` from the first named
  argument of the first attribute, and fails with a cast error when that value
  is not a boolean.
- **The two source outputs** (`Emission`). These are methods that build the
  generated file line by line, each proved equal to a function giving the
  whole file. `ColumnLayout` gives the emitted member initializers their
  run-time meaning: which column each leaf property reads. Threading one
  cursor through nested models assigns consecutive columns to the leaves of
  the nesting tree in pre-order. `WorkedExamples` and `LayoutExamples` follow
  the repository's own `DbModel`/`Point` fixture, and a three-level nesting,
  from declaration to columns.
- **The `Equals` methods** the incremental pipeline uses to skip regeneration
  (`MetadataModels`, `NestableMetadataModels`, and the older
  `LegacyNestableMetadataModels`). Each is a loop with early returns, proved
  against a functional specification. The models also have their
  `Deconstruct`.
- **The analyzer** (`Analyzer`). The two symbol actions are methods on a
  diagnostic sink (a class whose field they extend), proved against functions
  giving the diagnostics each action reports.

`DbDataType` is declared twice, in `Generator/DbDataType.cs` and
`Generator/Utility/DbDataType.cs`. The two declarations are identical, so
both are modelled once, as `DbDataTypes`. The older `DataType` vocabulary is
`LegacyDataTypes`.

Behaviour worth noting:
- the analyzer's scalar match is case-sensitive;
- a failed parse is substituted by `Unknown` instead of failing the model;
- the hint name ends in `.g.cs`;
- the two type rules form an if/else chain in which the nestable attribute
  takes precedence;
- `Equals` leaves `GenerateToString` out;
- the generator recognises a marker by its full metadata name
  (`OrmGenerator.OrmModelAttribute`), the analyzer by its class's short name in
  any namespace.

## Model

| member | source | states |
|---|---|---|
| DbDataTypes.Ordinal | Generator/DbDataType.cs:3-19 | a member's underlying value is its declaration position |
| DbDataTypes.UnknownIsDefault | Generator/DbDataType.cs:5 | `Unknown` is member 0, so it is the enumeration's default |
| DbDataTypes.MembersAreTheWholeEnumeration | Generator/Utility/DbDataType.cs:5-18 | fourteen members, pairwise distinct, and every value is one of them |
| DbDataTypes.SingleIsNamedButFloatIsNot | Generator/DbDataType.cs:12 | `Single` is a member name and no member is named `Float` |
| DbDataTypes.Names | Generator/MainAnalyzer.cs:14 | `Enum.GetNames`: one name per member, in declaration order |
| DbDataTypes.NamesDistinctIgnoringCase | Generator/DbDataType.cs:5-18 | no two member names are equal ignoring case, so a case-insensitive parse is unambiguous |
| DbDataTypes.FindIgnoringCase | Generator/MainGenerator.cs:122 | the result is a candidate whose name equals the input ignoring case; `None` only when no candidate's name does |
| DbDataTypes.TryParse | Generator/MainGenerator.cs:122-124 | `Enum.TryParse(s, true, ...)` yields `t` exactly when `s` equals `t`'s name ignoring case, and fails exactly when no name matches |
| DbDataTypes.TryParseIgnoresCase | Generator/MainGenerator.cs:194-196 | inputs that are equal ignoring case parse alike |
| DbDataTypes.TryParseName | Generator/DbDataType.cs:5-18 | every member name, as declared or upper-cased, parses back to its member |
| DbDataTypes.TryParseUnknown | Generator/MainGenerator.cs:194 | "Unknown" in any case parses to the `Unknown` member itself |
| LegacyDataTypes.Ordinal | Generator/DataType.cs:3-19 | a member's underlying value is its declaration position |
| LegacyDataTypes.ErrorIsLastNotDefault | Generator/DataType.cs:5-19 | fourteen distinct members; `ERROR` is the last one, so the default (ordinal 0) is `Boolean` |
| LegacyDataTypes.SameScalarsAsDbDataType | Generator/DataType.cs:5-18 | without `ERROR` here and `Unknown` there, the names and order equal those of `DbDataType` |
| LegacyDataTypes.NoDateTimeOffsetNoFloat | Generator/DataType.cs:9-11 | `DateTimeOffset` (commented out) and `Float` are not members; `Single` is |
| Symbols.ContainingNamespaceName | Generator/MainGenerator.cs:126 | `ContainingNamespace.Name` is the innermost namespace segment only, "" in the global namespace |
| Symbols.Properties | Generator/MainGenerator.cs:119-120 | `GetMembers().OfType<IPropertySymbol>()`: the property members, in member order |
| Symbols.PropertiesInDeclarationOrder | Generator/MainGenerator.cs:119-120 | the properties are exactly the property members, each once, in strictly increasing member position |
| Sequences.FilterIndices | Generator/MainGenerator.cs:121 | `Where` keeps exactly the elements that satisfy the predicate, each once, in their original order |
| Extraction.MatchingAttributes | Generator/MainGenerator.cs:111-113 | the attributes passed on are those whose class has the full metadata name `OrmGenerator.OrmModelAttribute` (or its nestable counterpart); there are some exactly when the type carries one, and the first is the first such attribute in declaration order |
| Extraction.MatchingAttributesInOrder | Generator/MainGenerator.cs:179-181 | every attribute with the metadata name is passed on, each once, in declaration order, and no other |
| WorkedExamples.MarkerMetadataNames | Generator/MainGenerator.cs:13-34 | the bootstrap attributes, declared in namespace `OrmGenerator`, have exactly the metadata names the two pipelines register |
| Extraction.GetToStringInfo | Generator/MainGenerator.cs:256-261 | the first attribute's first named argument decides: its boolean value; false when there is none or it is null; a cast error otherwise |
| Extraction.ToStringInfoReadsFirstArgumentOnly | Generator/MainGenerator.cs:256-261 | the argument's name, later arguments and later attributes do not matter |
| Extraction.Eligible | Generator/MainGenerator.cs:121 | the `Where` filter: a property is kept exactly when its declared accessibility is not private and it has a setter |
| Extraction.ClassifyFlat | Generator/MainGenerator.cs:122-124 | a parsed kind matches the type name ignoring case; the kind is `Unknown` exactly when the name is "Unknown" or no member name matches |
| Extraction.ClassifyNestable | Generator/MainGenerator.cs:194-196 | no custom type exactly when some member name matches, and then the kind matches; otherwise `Unknown` with the type's short name |
| Extraction.UnknownNamedTypeIsNotNested | Generator/MainGenerator.cs:194-196 | a type named "Unknown" (any case) gives `(Unknown, null)`, not a nested reference |
| Extraction.ExtractFlat | Generator/MainGenerator.cs:118-125 | one classified entry per kept property, in order |
| Extraction.ExtractNestable | Generator/MainGenerator.cs:186-199 | one classified entry per kept property, in order |
| Extraction.ExtractionKeepsEligibleInOrder | Generator/MainGenerator.cs:118-125 | the entries come from exactly the non-private settable properties, each once, in declaration order |
| Extraction.FlatTransform | Generator/MainGenerator.cs:114-127 | the model has the type's name, innermost namespace, extracted properties and `GenerateToString`; fails exactly when `GetToStringInfo` does |
| Extraction.NestableTransform | Generator/MainGenerator.cs:182-201 | as the flat transform, with nestable entries |
| MetadataModels.Equals | Generator/Models/MetadataModel.cs:13-22 | the loop returns true exactly when the models agree in everything except `GenerateToString` |
| MetadataModels.SameIgnoresGenerateToString | Generator/Models/MetadataModel.cs:10-22 | equal exactly when the models differ at most in `GenerateToString` |
| MetadataModels.SameIsEquivalence | Generator/Models/MetadataModel.cs:13-22 | `Equals` is reflexive, symmetric and transitive |
| MetadataModels.SameElementwise | Generator/Models/MetadataModel.cs:15-20 | equal exactly when name, namespace, length and every index's name and type agree |
| MetadataModels.PropertyOrderMatters | Generator/Models/MetadataModel.cs:18-20 | exchanging two different properties gives an unequal model |
| MetadataModels.Deconstruct | Generator/Models/MetadataModel.cs:24-30 | the four outputs rebuild the model, in the order name, namespace, flag, properties |
| MetadataModels.DeconstructConstructed | Generator/Models/MetadataModel.cs:6-30 | deconstructing a constructed model gives its arguments, with the flag moved before the properties |
| MetadataModels.SameForRegenerationIsEquality | Generator/Models/MetadataModel.cs:13-22 | comparing the flag as well makes the relation plain equality |
| NestableMetadataModels.Equals | Generator/Models/NestableMetadataModel.cs:14-23 | the loop returns true exactly when the models agree in everything except `GenerateToString` |
| NestableMetadataModels.SameIgnoresGenerateToString | Generator/Models/NestableMetadataModel.cs:11-23 | equal exactly when the models differ at most in `GenerateToString` |
| NestableMetadataModels.SameIsEquivalence | Generator/Models/NestableMetadataModel.cs:14-23 | `Equals` is reflexive, symmetric and transitive |
| NestableMetadataModels.SameElementwise | Generator/Models/NestableMetadataModel.cs:16-20 | equal exactly when name, namespace, length and every index's name, type and custom type agree |
| NestableMetadataModels.LengthMismatchIsUnequal | Generator/Models/NestableMetadataModel.cs:16-17 | lists of different lengths are unequal, whatever their elements |
| NestableMetadataModels.Deconstruct | Generator/Models/NestableMetadataModel.cs:25-31 | the four outputs rebuild the model |
| NestableMetadataModels.DeconstructConstructed | Generator/Models/NestableMetadataModel.cs:7-31 | deconstructing a constructed model gives its arguments, with the flag moved before the properties |
| NestableMetadataModels.SameForRegenerationIsEquality | Generator/Models/NestableMetadataModel.cs:14-23 | comparing the flag as well makes the relation plain equality |
| LegacyNestableMetadataModels.Equals | Generator/NestableMetadataModel.cs:12-21 | the loop gives false on another name or namespace, true when this list is a prefix of the other's, an index-out-of-range when the other's list is a proper prefix of this one, and false otherwise |
| LegacyNestableMetadataModels.DifferentIdentityIsUnequal | Generator/NestableMetadataModel.cs:14-15 | another name or namespace gives false |
| LegacyNestableMetadataModels.TrailingPropertiesIgnored | Generator/NestableMetadataModel.cs:17-20 | extra trailing properties on the other model go unnoticed |
| LegacyNestableMetadataModels.EmptyEqualsEverything | Generator/NestableMetadataModel.cs:12-21 | a model without properties equals every model with its name and namespace |
| LegacyNestableMetadataModels.ThrowsOnlyWhenOtherIsShorter | Generator/NestableMetadataModel.cs:17-18 | it throws only when the other list is shorter, and never when the other list is at least as long |
| LegacyNestableMetadataModels.EqualLengthsIsStructural | Generator/NestableMetadataModel.cs:12-21 | with equal lengths it is plain structural equality |
| LegacyNestableMetadataModels.NotSymmetric | Generator/NestableMetadataModel.cs:17-18 | one-property and empty versions of a model compare equal one way and throw the other way |
| Emission.Accessor | Generator/MainGenerator.cs:152 | the accessor is `Float` exactly for `Single` and the member name otherwise; never `Single` |
| Emission.AccessorInjective | Generator/MainGenerator.cs:229 | different kinds read through different accessors |
| Emission.FlatInitializer | Generator/MainGenerator.cs:152 | a flat property always reads one column, through its kind's accessor: the flat output never nests |
| Emission.NestableInitializer | Generator/MainGenerator.cs:226-229 | a nestable property hands the cursor to its custom type exactly when its kind is `Unknown` (a null custom type gives an empty receiver); otherwise it reads a column through an accessor that is never `Unknown` |
| Emission.InitializerLine | Generator/MainGenerator.cs:227-229 | a column read is written `Name = reader.Get<Acc>(index++),`, a nested read `Name = <Type>.GetSingleModel(reader, ref index),` |
| Emission.Header | Generator/MainGenerator.cs:137-147 | the opening raw string: eight lines, with the model's namespace on line 3 and its partial class implementing `IOrmModel<name>` on line 4 |
| Emission.Footer | Generator/MainGenerator.cs:155-162 | the closing raw string: six lines ending the initializer, and the zero-argument `GetSingleModel` that starts the cursor at `int a = 0` |
| Emission.FlatSource | Generator/MainGenerator.cs:129-175 | the whole flat file: header, one line per property, footer, optional `ToString`, closing brace, under the hint name `"{namespace}.{name}.g.cs"` |
| Emission.NestableSource | Generator/MainGenerator.cs:203-252 | the whole nestable file, laid out as the flat one, with nested reads and the footer's three trailing tabs |
| Emission.ToStringBlock | Generator/MainGenerator.cs:163-172 | no lines when disabled; otherwise three more lines than properties |
| Emission.AppendToString | Generator/MainGenerator.cs:163-172 | the appended `ToString` block, line by line, is `ToStringBlock` |
| Emission.EmitFlat | Generator/MainGenerator.cs:129-176 | the builder's lines and the hint name are exactly `FlatSource(m)` |
| Emission.EmitNestable | Generator/MainGenerator.cs:203-253 | the builder's lines and the hint name are exactly `NestableSource(m)` |
| Emission.HintNameInjective | Generator/MainGenerator.cs:175 | with a dot-free namespace segment, `"{ns}.{name}.g.cs"` determines both `ns` and `name` |
| Emission.FlatHintNameUsesInnermostNamespace | Generator/MainGenerator.cs:175 | the file is `"{innermost segment}.{name}.g.cs"`, so types differing only in outer namespaces collide |
| Emission.NestableHintNameUsesInnermostNamespace | Generator/MainGenerator.cs:252 | the same, for the nestable output |
| Emission.FlatReadLines | Generator/MainGenerator.cs:149-153 | line `8 + i` is `Name = reader.Get<Acc>(index++),` for property `i`, exactly one per property, then `};` |
| Emission.FlatToStringLines | Generator/MainGenerator.cs:163-172 | the override appears exactly when `GenerateToString` is set, with one `Name: {Name}` line per property, in order |
| Emission.NestableReadLines | Generator/MainGenerator.cs:223-230 | an `Unknown` property's line is `Name = CustomType.GetSingleModel(reader, ref index),` with no `index++`; any other property's line reads its accessor |
| Emission.NestableToStringLines | Generator/MainGenerator.cs:240-249 | the override appears exactly when `GenerateToString` is set, with one line per property, in order |
| Emission.SinglePropertyReadsFloat | Generator/MainGenerator.cs:152 | a `Single` property is read with `GetFloat` |
| Emission.FlatUnknownReadsGetUnknown | Generator/MainGenerator.cs:152 | an unparsed property in a flat model is read with `GetUnknown` |
| Emission.UnknownWithoutCustomTypeHasEmptyReceiver | Generator/MainGenerator.cs:227 | an `Unknown` entry with a null custom type is emitted with an empty receiver |
| Emission.FlatToStringChangeGoesUnnoticed | Generator/Models/MetadataModel.cs:13-22 | flipping `GenerateToString` leaves `Equals` true but changes the generated file |
| Emission.NestableToStringChangeGoesUnnoticed | Generator/Models/NestableMetadataModel.cs:14-23 | the same, for nestable models |
| Emission.FlatRegenerationKeyDeterminesSource | Generator/MainGenerator.cs:129-176 | models equal with the flag compared always have the same generated file |
| Emission.NestableRegenerationKeyDeterminesSource | Generator/MainGenerator.cs:203-253 | the same, for nestable models |
| ColumnLayout.LayoutOf | Generator/MainGenerator.cs:223-230 | running the initializers moves the cursor by exactly the number of columns read |
| ColumnLayout.LayoutIsNumberedPreOrder | Generator/MainGenerator.cs:223-230 | threading one cursor through nested models numbers the pre-order leaves of the nesting tree consecutively from the start; both fail alike on a missing model or a cycle |
| ColumnLayout.ColumnsAreConsecutive | Generator/MainGenerator.cs:219-229 | column `i` is leaf `i`'s path and accessor at index `start + i` |
| ColumnLayout.LayoutShift | Generator/MainGenerator.cs:227 | a nested model handed cursor `start` reads its own layout shifted by `start` |
| ColumnLayout.ColumnsOnlyLayout | Generator/MainGenerator.cs:149-153 | initializers that each read a column take consecutive columns in order, without looking up any model |
| ColumnLayout.FlatModelReadsColumnsInOrder | Generator/MainGenerator.cs:155-161 | from the zero-argument entry point, a flat model reads columns 0..n-1, one per property, in declaration order |
| ColumnLayout.ReadModel | Generator/MainGenerator.cs:232-238 | the zero-argument entry point starts the cursor at 0: it succeeds exactly when the nesting tree's leaves exist, and then leaf `i` reads column `i` |
| ColumnLayout.ReopenedModelFails | Generator/MainGenerator.cs:223-230 | initializers that reach a model already open on the nesting path never lay out, whatever comes before |
| ColumnLayout.SelfNestingFails | Generator/MainGenerator.cs:227 | a model any of whose properties nests the model itself cannot be read, wherever that property stands |
| ColumnLayout.SelfNestingIsCycle | Generator/MainGenerator.cs:227 | a model whose only property nests the model itself is reported as a cycle on its own name |
| Analyzer.ScalarNamesAreMemberNames | Generator/MainAnalyzer.cs:14 | the scalar set holds exactly the member names, compared case-sensitively |
| Symbols.HasAttribute | Generator/MainAnalyzer.cs:74 | the analyzer's attribute test: some attribute's class has this short name, in whatever namespace |
| Analyzer.IsMarkedModel | Generator/MainAnalyzer.cs:57-60 | a property type is a marked model when it carries an attribute whose class is named `OrmModelAttribute` or `NestableOrmModelAttribute` |
| Analyzer.PropertyDiagnostics | Generator/MainAnalyzer.cs:52-65 | no diagnostic for a scalar-named or marked type, otherwise one ORM001 at the property with (type name, property name) |
| Analyzer.AllScalar | Generator/MainAnalyzer.cs:76-78 | every property member, private or setter-less ones included, has a scalar name; true without properties |
| Analyzer.TypeDiagnostics | Generator/MainAnalyzer.cs:73-92 | the nestable branch first: ORM002 when nothing is nested; else, for a flat model, ORM003 when something is; nothing otherwise |
| Analyzer.AnalysisContext.ReportDiagnostic | Generator/MainAnalyzer.cs:65 | the sink gains the reported diagnostic at its end |
| Analyzer.AnalyzeProperty | Generator/MainAnalyzer.cs:50-67 | the property action appends exactly `PropertyDiagnostics(property)` |
| Analyzer.AnalyzeNamedType | Generator/MainAnalyzer.cs:69-94 | the named-type action, with its early returns, appends exactly `TypeDiagnostics(namedType)` |
| Analyzer.NotMarkedExactlyWhenUnscalarAndUnmarked | Generator/MainAnalyzer.cs:54-64 | ORM001 (Error) fires once, at the property, with (type name, property name), exactly when the type name is no member name and the type has neither model attribute |
| Analyzer.NotMarkedIgnoresAccessAndSetter | Generator/MainAnalyzer.cs:50-67 | ORM001 does not depend on the property's accessibility or setter |
| Analyzer.AtMostOneTypeDiagnostic | Generator/MainAnalyzer.cs:74-91 | at most one of ORM002/ORM003, at the type, naming it; a type with the nestable attribute can only get ORM002 |
| Analyzer.NonBasicExactlyWhenNothingNested | Generator/MainAnalyzer.cs:74-81 | ORM002 (Info) exactly for nestable models whose properties are all scalar-named, including a model without properties |
| Analyzer.NonNestableExactlyWhenSomethingNested | Generator/MainAnalyzer.cs:83-91 | ORM003 (Error) exactly for flat-only models with some non-scalar property, reported once |
| Analyzer.TypeRulesIgnoreGeneratorFilter | Generator/MainAnalyzer.cs:85-91 | a private, setter-less non-scalar property makes a flat model ORM003, although the generator drops that property |
| Analyzer.NonBasicModelsNestNothing | Generator/MainAnalyzer.cs:74-81 | a model told ORM002 has no nested entry in its extracted nestable model |
| Analyzer.CaseSensitivityDiffers | Generator/MainAnalyzer.cs:54 | a property typed `int32` gets ORM001, while the generator classifies it as `Int32` |
| Analyzer.UnknownIsScalarToTheAnalyzer | Generator/MainAnalyzer.cs:14 | a type named `Unknown` passes ORM001 unmarked |
| Analyzer.ForeignMarkerDiffers | Generator/MainAnalyzer.cs:57-60 | a type marked with an `OrmModelAttribute` from another namespace passes ORM001 and is held to ORM003, yet neither generator pipeline passes it on |
| WorkedExamples.ScalarClassification | Generator/MainGenerator.cs:122-124 | a type named exactly as a kind is classified as that kind by both transforms |
| WorkedExamples.PointExtraction | Tests/DbModel.cs:22-27 | the fixture's `Point` gives `Point`/`Tests` with X and Y of kind `Int32` |
| WorkedExamples.DbModelExtraction | Tests/DbModel.cs:4-10 | the fixture's `DbModel` gives Id, Row1, Point (nested `Point`) and Row4, dropping the `ToString` method |
| LayoutExamples.PointColumns | Tests/DbModel.cs:25-26 | `Point` reads X at column 0 and Y at column 1 |
| LayoutExamples.DbModelColumns | Tests/DbModel.cs:7-10 | `DbModel` reads Id@0, Row1@1, Point.X@2, Point.Y@3, Row4@4 |
| LayoutExamples.ThreeLevelColumns | Generator/MainGenerator.cs:223-230 | three nesting levels read First@0, B.Col1@1, B.Col2@2, B.C.Col1@3, Last@4 |

## Left out

- Roslyn host plumbing is not modelled. This covers `ForAttributeWithMetadataName`, the predicate, `RegisterSourceOutput`, `RegisterSymbolAction` and the symbol APIs. Symbols are plain records, and a source output is a value.
- The bootstrap sources (attributes, `IOrmModel`, `DbCommandExtensions`) are fixed text. The extensions perform database I/O with async and cancellation.
- `Generator/Utility/GeneratorExtensions.cs` is not part of this model. Its only call site is commented out.
- `EnableConcurrentExecution` and `ConfigureGeneratedCodeAnalysis` are left out. Each action is modelled as one sequential call.
- The incremental cache is left out. It belongs to the compiler host; the model has only the `Equals` methods the cache consults.
- The value semantics of `DbDataReader.Get*` belong to the database driver. Only the accessor name and the column index are modelled.
- `Generator/MetadataModel.cs` is a three-field struct with no behaviour, so it is not modelled.
- `Tests/Program.cs` is left out because it is SQLite I/O and console output.
- `Tests/DbModel.cs` is used only as example data.
- `Environment.NewLine` is left out. A generated file is a sequence of lines, one per `AppendLine`.
- DbDataTypes.TryParse: only the case-insensitive name form of `Enum.TryParse` is modelled. A type short name is an identifier, so the numeric, comma-separated and whitespace-padded forms cannot occur. Case folding covers ASCII letters only.
- ColumnLayout.LayoutOf: a cycle guard is added. The generated code has none, and a model that nests itself never returns normally: it recurses until the stack overflows or, when it reads a column before nesting itself, until the cursor passes the reader's last column. Here a repeated model name on the current path is an `Err(Cycle)`.
- Extraction.GetToStringInfo: requires at least one attribute. The host passes the attributes that matched the marker, so there is always one.
- Registering two files with the same hint name is an error raised by the host, and it is not modelled. `Emission.FlatHintNameUsesInnermostNamespace` shows when such a clash happens.
- Static and init-only properties are not distinguished: "has a setter" is one flag.

## Findings

| source | as written | input that shows it | evidently intended | confidence | as-written member | corrected member |
|---|---|---|---|---|---|---|
| Generator/NestableMetadataModel.cs:17-18 | the loop runs to `this.Properties.Length` with no length check | `DbModel`/`Tests` with `[Id: Int32]` against the same with `[]`: index out of range; the other way round: true | compare the lengths first, as `Generator/Models/NestableMetadataModel.cs:16` does | not executed | LegacyNestableMetadataModels.NotSymmetric | NestableMetadataModels.SameIsEquivalence |
| Generator/Models/MetadataModel.cs:15 | `Equals` never compares `GenerateToString` | `Point` with `GenerateToString` false, then true: `Equals` holds, so the pipeline keeps the file without `ToString` | compare `GenerateToString` too | not executed | Emission.FlatToStringChangeGoesUnnoticed | Emission.FlatRegenerationKeyDeterminesSource |
| Generator/Models/NestableMetadataModel.cs:16 | `Equals` never compares `GenerateToString` | `DbModel` with `GenerateToString` false, then true: `Equals` holds, so the generated file keeps its old `ToString` state | compare `GenerateToString` too | not executed | Emission.NestableToStringChangeGoesUnnoticed | Emission.NestableRegenerationKeyDeterminesSource |
