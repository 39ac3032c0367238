/**
 * The two source-output steps of the generator. Each builds the generated
 * file line by line (the `StringBuilder`; a line is what one `AppendLine`
 * call ends, the line terminator is left abstract) and registers it under the
 * hint name `"{namespace}.{name}.g.cs"`.
 *
 * The generated `GetSingleModel(reader, ref index)` is an object initializer
 * with one member initializer per property, in property order; the
 * `Initializer` values below are those member initializers, which
 * ColumnLayout gives a run-time meaning to.
 */
module Emission {
  import opened Wrappers
  import opened DbDataTypes
  import opened MetadataModels
  import opened NestableMetadataModels
  import opened Symbols
  import opened Extraction

  /** The `DbDataReader` accessor suffix for a column kind: the member name, except `Float` for `Single`. */
  function Accessor(t: DbDataType): (a: string)
    ensures a == "Float" <==> t == Single
    ensures t != Single ==> a == Name(t)
    ensures a != "Single"
  {
    if t == Single then "Float" else Name(t)
  }

  /** `Accessor` loses nothing: different kinds read through different accessors. */
  lemma AccessorInjective(s: DbDataType, t: DbDataType)
    requires Accessor(s) == Accessor(t)
    ensures s == t
  {
    if s != Single && t != Single {
      TryParseName(s);
      TryParseName(t);
    }
  }

  /** One member initializer of the generated object initializer. */
  datatype Initializer =
    | ReadColumn(property: string, accessor: string)   // Name = reader.Get<accessor>(index++),
    | ReadNested(property: string, modelType: string)  // Name = <modelType>.GetSingleModel(reader, ref index),

  /** The flat emitter never nests: every property reads one column through its accessor. */
  function FlatInitializer(p: ModelProperty): (r: Initializer)
    ensures r.ReadColumn? && r.property == p.name && r.accessor == Accessor(p.dataType)
  {
    ReadColumn(p.name, Accessor(p.dataType))
  }

  /** A property of kind `Unknown` is read through its model type; a null custom type interpolates as "". */
  function NestableInitializer(p: NestableProperty): (r: Initializer)
    ensures r.property == p.name
    ensures r.ReadNested? <==> p.dataType == Unknown
    ensures r.ReadNested? ==> r.modelType == if p.customType.Some? then p.customType.value else ""
    ensures r.ReadColumn? ==> r.accessor == Accessor(p.dataType) && r.accessor != "Unknown"
  {
    if p.dataType == Unknown then ReadNested(p.name, p.customType.GetOr(""))
    else ReadColumn(p.name, Accessor(p.dataType))
  }

  function FlatInitializers(m: MetadataModel): (r: seq<Initializer>)
    ensures |r| == |m.properties|
    ensures forall i :: 0 <= i < |r| ==> r[i] == FlatInitializer(m.properties[i])
  {
    seq(|m.properties|, i requires 0 <= i < |m.properties| => FlatInitializer(m.properties[i]))
  }

  function NestableInitializers(m: NestableMetadataModel): (r: seq<Initializer>)
    ensures |r| == |m.properties|
    ensures forall i :: 0 <= i < |r| ==> r[i] == NestableInitializer(m.properties[i])
  {
    seq(|m.properties|, i requires 0 <= i < |m.properties| => NestableInitializer(m.properties[i]))
  }

  function InitializerLine(init: Initializer): string {
    match init
    case ReadColumn(p, accessor) => "\t\t" + p + " = reader.Get" + accessor + "(index++),"
    case ReadNested(p, modelType) => "\t\t" + p + " = " + modelType + ".GetSingleModel(reader, ref index),"
  }

  function InitializerLines(inits: seq<Initializer>): (r: seq<string>)
    ensures |r| == |inits|
    ensures forall i :: 0 <= i < |r| ==> r[i] == InitializerLine(inits[i])
  {
    seq(|inits|, i requires 0 <= i < |inits| => InitializerLine(inits[i]))
  }

  /** The opening raw string: usings, namespace, class header, start of the cursor-threaded `GetSingleModel`. */
  function Header(namespace: string, name: string): (r: seq<string>)
    ensures |r| == 8
    ensures r[3] == "namespace " + namespace + ";"
    ensures r[4] == "partial class " + name + " : IOrmModel<" + name + ">"
  {
    [ "using System.Data.Common;",
      "using OrmGenerator;",
      "",
      "namespace " + namespace + ";",
      "partial class " + name + " : IOrmModel<" + name + ">",
      "{",
      "\tpublic static " + name + " GetSingleModel(DbDataReader reader, ref int index) => new()",
      "\t{" ]
  }

  /**
   * The closing raw string: end of the initializer and the zero-argument
   * `GetSingleModel`, which starts the cursor at 0. The nestable emitter's
   * raw string keeps three trailing tabs after the method's closing brace.
   */
  function Footer(name: string, trailing: string): (r: seq<string>)
    ensures |r| == 6
    ensures r[0] == "\t};"
    ensures r[3] == "\t\tint a = 0;" && r[4] == "\t\treturn GetSingleModel(reader, ref a);"
  {
    [ "\t};",
      "\tpublic static " + name + " GetSingleModel(DbDataReader reader)",
      "\t{",
      "\t\tint a = 0;",
      "\t\treturn GetSingleModel(reader, ref a);",
      "\t}" + trailing ]
  }

  const FlatTrailing := ""
  const NestableTrailing := "\t\t\t"

  const ToStringOpening: seq<string> := ["\tpublic override string ToString() =>", "\t\t$\"\"\""]
  const ToStringClosing := "\t\"\"\";"

  function ToStringLine(property: string): string {
    "\t\t" + property + ": {" + property + "}"
  }

  function ToStringLines(names: seq<string>): (r: seq<string>)
    ensures |r| == |names|
    ensures forall i :: 0 <= i < |r| ==> r[i] == ToStringLine(names[i])
  {
    seq(|names|, i requires 0 <= i < |names| => ToStringLine(names[i]))
  }

  /** The optional `ToString` override: one `Name: {Name}` line per property, in order. */
  function ToStringBlock(enabled: bool, names: seq<string>): (r: seq<string>)
    ensures enabled ==> |r| == |names| + 3
    ensures !enabled ==> r == []
  {
    if enabled then ToStringOpening + ToStringLines(names) + [ToStringClosing] else []
  }

  function HintName(namespace: string, name: string): string {
    namespace + "." + name + ".g.cs"
  }

  datatype GeneratedSource = GeneratedSource(hintName: string, lines: seq<string>)

  /**
   * A namespace segment is an identifier and holds no dot, so the hint name
   * gives back the segment and the type name it was made from.
   */
  lemma HintNameInjective(ns1: string, n1: string, ns2: string, n2: string)
    requires '.' !in ns1 && '.' !in ns2
    ensures HintName(ns1, n1) == HintName(ns2, n2) <==> ns1 == ns2 && n1 == n2
  {
    var h1, h2 := HintName(ns1, n1), HintName(ns2, n2);
    if h1 == h2 {
      FirstDot(ns1, n1);
      FirstDot(ns2, n2);
      assert |ns1| == |ns2|;
      assert ns1 == h1[..|ns1|] == h2[..|ns2|] == ns2;
      assert n1 == h1[|ns1| + 1..|h1| - 5] == h2[|ns2| + 1..|h2| - 5] == n2;
    }
  }

  /** The first dot of a hint name is the one right after the namespace segment. */
  lemma FirstDot(ns: string, n: string)
    requires '.' !in ns
    ensures |ns| < |HintName(ns, n)| && HintName(ns, n)[|ns|] == '.'
    ensures forall i :: 0 <= i < |ns| ==> HintName(ns, n)[i] == ns[i] != '.'
  {
  }

  /**
   * The flat file is named after the type's innermost namespace segment and
   * its short name only: two types that differ only in their outer
   * namespaces get the same hint name.
   */
  lemma FlatHintNameUsesInnermostNamespace(t1: NamedTypeSymbol, t2: NamedTypeSymbol)
    requires |MatchingAttributes(t1, OrmModelMetadataName)| > 0 && FlatTransform(t1).Ok?
    requires |MatchingAttributes(t2, OrmModelMetadataName)| > 0 && FlatTransform(t2).Ok?
    requires t1.name == t2.name && t1.namespacePath != [] && t2.namespacePath != []
    requires t1.namespacePath[|t1.namespacePath| - 1] == t2.namespacePath[|t2.namespacePath| - 1]
    ensures FlatSource(FlatTransform(t1).value).hintName == FlatSource(FlatTransform(t2).value).hintName
    ensures FlatSource(FlatTransform(t1).value).hintName
         == t1.namespacePath[|t1.namespacePath| - 1] + "." + t1.name + ".g.cs"
  {
  }

  lemma NestableHintNameUsesInnermostNamespace(t1: NamedTypeSymbol, t2: NamedTypeSymbol)
    requires |MatchingAttributes(t1, NestableOrmModelMetadataName)| > 0 && NestableTransform(t1).Ok?
    requires |MatchingAttributes(t2, NestableOrmModelMetadataName)| > 0 && NestableTransform(t2).Ok?
    requires t1.name == t2.name && t1.namespacePath != [] && t2.namespacePath != []
    requires t1.namespacePath[|t1.namespacePath| - 1] == t2.namespacePath[|t2.namespacePath| - 1]
    ensures NestableSource(NestableTransform(t1).value).hintName == NestableSource(NestableTransform(t2).value).hintName
    ensures NestableSource(NestableTransform(t1).value).hintName
         == t1.namespacePath[|t1.namespacePath| - 1] + "." + t1.name + ".g.cs"
  {
  }

  function FlatNames(m: MetadataModel): (r: seq<string>)
    ensures |r| == |m.properties|
    ensures forall i :: 0 <= i < |r| ==> r[i] == m.properties[i].name
  {
    seq(|m.properties|, i requires 0 <= i < |m.properties| => m.properties[i].name)
  }

  function NestableNames(m: NestableMetadataModel): (r: seq<string>)
    ensures |r| == |m.properties|
    ensures forall i :: 0 <= i < |r| ==> r[i] == m.properties[i].name
  {
    seq(|m.properties|, i requires 0 <= i < |m.properties| => m.properties[i].name)
  }

  /** The text the flat source output registers for a model. */
  function FlatSource(m: MetadataModel): GeneratedSource {
    GeneratedSource(
      HintName(m.namespace, m.name),
      Header(m.namespace, m.name)
        + InitializerLines(FlatInitializers(m))
        + Footer(m.name, FlatTrailing)
        + ToStringBlock(m.generateToString, FlatNames(m))
        + ["}"])
  }

  /** The text the nestable source output registers for a model. */
  function NestableSource(m: NestableMetadataModel): GeneratedSource {
    GeneratedSource(
      HintName(m.namespace, m.name),
      Header(m.namespace, m.name)
        + InitializerLines(NestableInitializers(m))
        + Footer(m.name, NestableTrailing)
        + ToStringBlock(m.generateToString, NestableNames(m))
        + ["}"])
  }

  /** `InitializerLines` grows by one line per initializer appended. */
  lemma InitializerLinesSnoc(inits: seq<Initializer>, i: nat)
    requires i < |inits|
    ensures InitializerLines(inits[..i + 1]) == InitializerLines(inits[..i]) + [InitializerLine(inits[i])]
  {
    assert inits[..i + 1] == inits[..i] + [inits[i]];
  }

  /** The `ToString` override both source outputs append when it is asked for: one interpolation line per property. */
  method AppendToString(enabled: bool, names: seq<string>) returns (block: seq<string>)
    ensures block == ToStringBlock(enabled, names)
  {
    block := [];
    if enabled {
      block := ToStringOpening;
      var j := 0;
      while j < |names|
        invariant 0 <= j <= |names|
        invariant block == ToStringOpening + ToStringLines(names[..j])
      {
        block := block + [ToStringLine(names[j])];
        assert names[..j + 1] == names[..j] + [names[j]];
        j := j + 1;
      }
      assert names[..j] == names;
      block := block + [ToStringClosing];
    }
  }

  /** The flat source output: append the header, one line per property, the footer, the optional `ToString`. */
  method EmitFlat(m: MetadataModel) returns (source: GeneratedSource)
    ensures source == FlatSource(m)
  {
    var builder := Header(m.namespace, m.name);
    var i := 0;
    while i < |m.properties|
      invariant 0 <= i <= |m.properties|
      invariant builder == Header(m.namespace, m.name) + InitializerLines(FlatInitializers(m)[..i])
    {
      var p := m.properties[i];
      builder := builder + [InitializerLine(ReadColumn(p.name, Accessor(p.dataType)))];
      InitializerLinesSnoc(FlatInitializers(m), i);
      i := i + 1;
    }
    assert FlatInitializers(m)[..i] == FlatInitializers(m);
    builder := builder + Footer(m.name, FlatTrailing);
    var block := AppendToString(m.generateToString, FlatNames(m));
    builder := builder + block + ["}"];
    source := GeneratedSource(HintName(m.namespace, m.name), builder);
  }

  /** The nestable source output: as the flat one, with a nested-model line for each `Unknown` property. */
  method EmitNestable(m: NestableMetadataModel) returns (source: GeneratedSource)
    ensures source == NestableSource(m)
  {
    var builder := Header(m.namespace, m.name);
    var i := 0;
    while i < |m.properties|
      invariant 0 <= i <= |m.properties|
      invariant builder == Header(m.namespace, m.name) + InitializerLines(NestableInitializers(m)[..i])
    {
      var p := m.properties[i];
      if p.dataType == Unknown {
        builder := builder + [InitializerLine(ReadNested(p.name, p.customType.GetOr("")))];
      } else {
        builder := builder + [InitializerLine(ReadColumn(p.name, Accessor(p.dataType)))];
      }
      InitializerLinesSnoc(NestableInitializers(m), i);
      i := i + 1;
    }
    assert NestableInitializers(m)[..i] == NestableInitializers(m);
    builder := builder + Footer(m.name, NestableTrailing);
    var block := AppendToString(m.generateToString, NestableNames(m));
    builder := builder + block + ["}"];
    source := GeneratedSource(HintName(m.namespace, m.name), builder);
  }

  /** Where each part of an assembled file lies: header, initializer lines, footer, `ToString` block, brace. */
  lemma AssembledLines(header: seq<string>, initLines: seq<string>, footer: seq<string>, block: seq<string>)
    requires |header| == 8 && |footer| == 6
    ensures
      var lines := header + initLines + footer + block + ["}"];
      && |lines| == 15 + |initLines| + |block|
      && (forall i :: 0 <= i < |initLines| ==> lines[8 + i] == initLines[i])
      && (forall k :: 0 <= k < 6 ==> lines[8 + |initLines| + k] == footer[k])
      && (forall k :: 0 <= k < |block| ==> lines[14 + |initLines| + k] == block[k])
      && lines[14 + |initLines| + |block|] == "}"
  {
  }

  /** Exactly one `Name = reader.Get<Acc>(index++),` line per property, in property order, after the eight header lines. */
  lemma FlatReadLines(m: MetadataModel)
    ensures |FlatSource(m).lines| == 15 + |m.properties| + |ToStringBlock(m.generateToString, FlatNames(m))|
    ensures FlatSource(m).lines[3] == "namespace " + m.namespace + ";"
    ensures forall i :: 0 <= i < |m.properties| ==>
      FlatSource(m).lines[8 + i] == "\t\t" + m.properties[i].name + " = reader.Get" + Accessor(m.properties[i].dataType) + "(index++),"
    ensures FlatSource(m).lines[8 + |m.properties|] == "\t};"
  {
    AssembledLines(Header(m.namespace, m.name), InitializerLines(FlatInitializers(m)),
      Footer(m.name, FlatTrailing), ToStringBlock(m.generateToString, FlatNames(m)));
  }

  /** The `ToString` block, line by line: opening, one line per name, closing. */
  lemma ToStringBlockLines(enabled: bool, names: seq<string>)
    ensures enabled ==>
      var block := ToStringBlock(enabled, names);
      && block[0] == "\tpublic override string ToString() =>"
      && (forall i :: 0 <= i < |names| ==> block[2 + i] == ToStringLine(names[i]))
  {
  }

  /** Where an assembled file's `ToString` block lies, whichever file it is. */
  lemma AssembledToString(header: seq<string>, initLines: seq<string>, footer: seq<string>, enabled: bool, names: seq<string>)
    requires |header| == 8 && |footer| == 6
    ensures
      var lines := header + initLines + footer + ToStringBlock(enabled, names) + ["}"];
      var n := |initLines|;
      && |lines| == 15 + n + (if enabled then |names| + 3 else 0)
      && (lines[14 + n] == "\tpublic override string ToString() =>" <==> enabled)
      && (enabled ==> forall i :: 0 <= i < |names| ==> lines[16 + n + i] == ToStringLine(names[i]))
      && lines[|lines| - 1] == "}"
  {
    AssembledLines(header, initLines, footer, ToStringBlock(enabled, names));
    ToStringBlockLines(enabled, names);
  }

  /**
   * The `ToString` override is emitted exactly when `GenerateToString` is
   * set, with one `Name: {Name}` line per property, in property order.
   */
  lemma FlatToStringLines(m: MetadataModel)
    ensures
      var lines := FlatSource(m).lines;
      var n := |m.properties|;
      && |lines| == 15 + n + (if m.generateToString then n + 3 else 0)
      && (lines[14 + n] == "\tpublic override string ToString() =>" <==> m.generateToString)
      && (m.generateToString ==> forall i :: 0 <= i < n ==>
            lines[16 + n + i] == "\t\t" + m.properties[i].name + ": {" + m.properties[i].name + "}")
      && lines[|lines| - 1] == "}"
  {
    AssembledToString(Header(m.namespace, m.name), InitializerLines(FlatInitializers(m)),
      Footer(m.name, FlatTrailing), m.generateToString, FlatNames(m));
  }

  /**
   * In the nestable file a property of kind `Unknown` is read by
   * `CustomType.GetSingleModel(reader, ref index)` with no `index++` of its
   * own; every other property by its accessor, as in the flat file.
   */
  lemma NestableReadLines(m: NestableMetadataModel)
    ensures |NestableSource(m).lines| == 15 + |m.properties| + |ToStringBlock(m.generateToString, NestableNames(m))|
    ensures NestableSource(m).lines[3] == "namespace " + m.namespace + ";"
    ensures forall i :: 0 <= i < |m.properties| && m.properties[i].dataType != Unknown ==>
      NestableSource(m).lines[8 + i] == "\t\t" + m.properties[i].name + " = reader.Get" + Accessor(m.properties[i].dataType) + "(index++),"
    ensures forall i :: 0 <= i < |m.properties| && m.properties[i].dataType == Unknown ==>
      NestableSource(m).lines[8 + i] == "\t\t" + m.properties[i].name + " = " + m.properties[i].customType.GetOr("") + ".GetSingleModel(reader, ref index),"
    ensures NestableSource(m).lines[8 + |m.properties|] == "\t};"
    ensures NestableSource(m).lines[13 + |m.properties|] == "\t}\t\t\t"
  {
    AssembledLines(Header(m.namespace, m.name), InitializerLines(NestableInitializers(m)),
      Footer(m.name, NestableTrailing), ToStringBlock(m.generateToString, NestableNames(m)));
  }

  lemma NestableToStringLines(m: NestableMetadataModel)
    ensures
      var lines := NestableSource(m).lines;
      var n := |m.properties|;
      && |lines| == 15 + n + (if m.generateToString then n + 3 else 0)
      && (lines[14 + n] == "\tpublic override string ToString() =>" <==> m.generateToString)
      && (m.generateToString ==> forall i :: 0 <= i < n ==>
            lines[16 + n + i] == "\t\t" + m.properties[i].name + ": {" + m.properties[i].name + "}")
      && lines[|lines| - 1] == "}"
  {
    AssembledToString(Header(m.namespace, m.name), InitializerLines(NestableInitializers(m)),
      Footer(m.name, NestableTrailing), m.generateToString, NestableNames(m));
  }

  /** A `Single` property is read with `GetFloat`, never `GetSingle`. */
  lemma SinglePropertyReadsFloat(m: MetadataModel, i: nat)
    requires i < |m.properties| && m.properties[i].dataType == Single
    ensures FlatSource(m).lines[8 + i] == "\t\t" + m.properties[i].name + " = reader.GetFloat(index++),"
  {
    var name := m.properties[i].name;
    assert " = reader.Get" + "Float" + "(index++)," == " = reader.GetFloat(index++),";
    assert "\t\t" + name + " = reader.Get" + "Float" + "(index++),"
        == "\t\t" + name + (" = reader.Get" + "Float" + "(index++),");
    FlatReadLines(m);
  }

  /**
   * The flat emitter has no nested case: a property whose type did not parse
   * is read with `GetUnknown`, an accessor `DbDataReader` does not have.
   */
  lemma FlatUnknownReadsGetUnknown(m: MetadataModel, i: nat)
    requires i < |m.properties| && m.properties[i].dataType == Unknown
    ensures FlatSource(m).lines[8 + i] == "\t\t" + m.properties[i].name + " = reader.GetUnknown(index++),"
  {
    var name := m.properties[i].name;
    assert " = reader.Get" + "Unknown" + "(index++)," == " = reader.GetUnknown(index++),";
    assert "\t\t" + name + " = reader.Get" + "Unknown" + "(index++),"
        == "\t\t" + name + (" = reader.Get" + "Unknown" + "(index++),");
    FlatReadLines(m);
  }

  /**
   * A nestable property of kind `Unknown` without a custom type (its type is
   * literally named "Unknown") is emitted with an empty receiver.
   */
  lemma UnknownWithoutCustomTypeHasEmptyReceiver(m: NestableMetadataModel, i: nat)
    requires i < |m.properties| && m.properties[i].dataType == Unknown && m.properties[i].customType.None?
    ensures NestableSource(m).lines[8 + i] == "\t\t" + m.properties[i].name + " = .GetSingleModel(reader, ref index),"
  {
    NestableReadLines(m);
    EmptyReceiverText(m.properties[i].name);
  }

  /** `$"{null}.GetSingleModel(...)"`: the empty interpolation leaves the call with no receiver. */
  lemma EmptyReceiverText(name: string)
    ensures "\t\t" + name + " = " + "" + ".GetSingleModel(reader, ref index),"
         == "\t\t" + name + " = .GetSingleModel(reader, ref index),"
  {
    assert " = " + "" + ".GetSingleModel(reader, ref index)," == " = .GetSingleModel(reader, ref index),";
    assert "\t\t" + name + " = " + "" + ".GetSingleModel(reader, ref index),"
        == "\t\t" + name + (" = " + "" + ".GetSingleModel(reader, ref index),");
  }

  /**
   * As written, `Equals` ignores `GenerateToString`, yet the generated file
   * depends on it: flipping the flag gives a model `Equals` calls unchanged
   * (so the pipeline keeps the old file) whose file differs.
   */
  lemma FlatToStringChangeGoesUnnoticed(m: MetadataModel)
    ensures
      var flipped := m.(generateToString := !m.generateToString);
      MetadataModels.Same(m, flipped) && FlatSource(m) != FlatSource(flipped)
  {
    var flipped := m.(generateToString := !m.generateToString);
    FlatToStringLines(m);
    FlatToStringLines(flipped);
  }

  lemma NestableToStringChangeGoesUnnoticed(m: NestableMetadataModel)
    ensures
      var flipped := m.(generateToString := !m.generateToString);
      NestableMetadataModels.Same(m, flipped) && NestableSource(m) != NestableSource(flipped)
  {
    var flipped := m.(generateToString := !m.generateToString);
    NestableToStringLines(m);
    NestableToStringLines(flipped);
  }

  /** With the flag compared too, models judged unchanged always have the same generated file. */
  lemma FlatRegenerationKeyDeterminesSource(a: MetadataModel, b: MetadataModel)
    requires MetadataModels.SameForRegeneration(a, b)
    ensures FlatSource(a) == FlatSource(b)
  {
    MetadataModels.SameForRegenerationIsEquality(a, b);
  }

  lemma NestableRegenerationKeyDeterminesSource(a: NestableMetadataModel, b: NestableMetadataModel)
    requires NestableMetadataModels.SameForRegeneration(a, b)
    ensures NestableSource(a) == NestableSource(b)
  {
    NestableMetadataModels.SameForRegenerationIsEquality(a, b);
  }
}
