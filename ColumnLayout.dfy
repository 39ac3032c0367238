/**
 * The column assignment the generated code performs at run time. The
 * zero-argument `GetSingleModel(reader)` starts a cursor at 0 and calls
 * `GetSingleModel(reader, ref index)`, whose member initializers run in
 * property order: `reader.Get<Acc>(index++)` reads the column under the
 * cursor and advances it; `T.GetSingleModel(reader, ref index)` hands the
 * same cursor to the nested model `T` and takes no column itself.
 *
 * Nested models are looked up by type short name in `env`, the models the
 * generator produced in the same compilation. The generated code has no
 * cycle guard: a model that nests itself never returns normally (it recurses
 * until the stack overflows or, if it reads a column on the way, until the
 * cursor passes the reader's last column). Here the names still available
 * for nesting, `avail`, shrink along each path, and a repeated name is
 * reported as `Cycle`.
 */
module ColumnLayout {
  import opened Wrappers
  import opened DbDataTypes
  import opened MetadataModels
  import opened NestableMetadataModels
  import opened Emission

  /** A generated model: from the flat or from the nestable source output. */
  datatype GeneratedModel = Flat(flat: MetadataModel) | Nestable(nestable: NestableMetadataModel)

  function ModelName(g: GeneratedModel): string {
    match g
    case Flat(m) => m.name
    case Nestable(m) => m.name
  }

  /** The member initializers of the model's generated `GetSingleModel(reader, ref index)`. */
  function Initializers(g: GeneratedModel): seq<Initializer> {
    match g
    case Flat(m) => FlatInitializers(m)
    case Nestable(m) => NestableInitializers(m)
  }

  /** A column read: the property path from the outer model down, the accessor, the column index. */
  datatype Column = Column(path: seq<string>, accessor: string, index: nat)

  /** A leaf property of the nesting tree, before any index is assigned. */
  datatype Leaf = Leaf(path: seq<string>, accessor: string)

  datatype Layout = Layout(columns: seq<Column>, next: nat)

  datatype LayoutError = MissingModel(typeName: string) | Cycle(typeName: string)

  function UnderColumns(property: string, cs: seq<Column>): (r: seq<Column>)
    ensures |r| == |cs|
    ensures forall i :: 0 <= i < |cs| ==> r[i] == cs[i].(path := [property] + cs[i].path)
  {
    seq(|cs|, i requires 0 <= i < |cs| => cs[i].(path := [property] + cs[i].path))
  }

  function UnderLeaves(property: string, ls: seq<Leaf>): (r: seq<Leaf>)
    ensures |r| == |ls|
    ensures forall i :: 0 <= i < |ls| ==> r[i] == ls[i].(path := [property] + ls[i].path)
  {
    seq(|ls|, i requires 0 <= i < |ls| => ls[i].(path := [property] + ls[i].path))
  }

  /**
   * Runs the member initializers `inits` with the cursor at `start`: the
   * columns read, in order, and the cursor afterwards. The cursor advances
   * by exactly one per column (ColumnsAreConsecutive: the columns are
   * `start`, `start + 1`, ...).
   */
  function LayoutOf(env: map<string, GeneratedModel>, avail: set<string>, inits: seq<Initializer>, start: nat)
    : (r: Result<Layout, LayoutError>)
    ensures r.Ok? ==> r.value.next == start + |r.value.columns|
    decreases avail, |inits|
  {
    if inits == [] then Ok(Layout([], start))
    else
      match inits[0]
      case ReadColumn(p, accessor) =>
        (match LayoutOf(env, avail, inits[1..], start + 1)
         case Err(e) => Err(e)
         case Ok(rest) => Ok(Layout([Column([p], accessor, start)] + rest.columns, rest.next)))
      case ReadNested(p, modelType) =>
        if modelType !in env then Err(MissingModel(modelType))
        else if modelType !in avail then Err(Cycle(modelType))
        else
          match LayoutOf(env, avail - {modelType}, Initializers(env[modelType]), start)
          case Err(e) => Err(e)
          case Ok(inner) =>
            match LayoutOf(env, avail, inits[1..], inner.next)
            case Err(e) => Err(e)
            case Ok(rest) => Ok(Layout(UnderColumns(p, inner.columns) + rest.columns, rest.next))
  }

  /** The leaves of the nesting tree in pre-order, declaration order: a definition with no cursor. */
  function Leaves(env: map<string, GeneratedModel>, avail: set<string>, inits: seq<Initializer>)
    : Result<seq<Leaf>, LayoutError>
    decreases avail, |inits|
  {
    if inits == [] then Ok([])
    else
      match inits[0]
      case ReadColumn(p, accessor) =>
        (match Leaves(env, avail, inits[1..])
         case Err(e) => Err(e)
         case Ok(rest) => Ok([Leaf([p], accessor)] + rest))
      case ReadNested(p, modelType) =>
        if modelType !in env then Err(MissingModel(modelType))
        else if modelType !in avail then Err(Cycle(modelType))
        else
          match Leaves(env, avail - {modelType}, Initializers(env[modelType]))
          case Err(e) => Err(e)
          case Ok(inner) =>
            match Leaves(env, avail, inits[1..])
            case Err(e) => Err(e)
            case Ok(rest) => Ok(UnderLeaves(p, inner) + rest)
  }

  /** Numbers the leaves consecutively from `start`. */
  function Number(ls: seq<Leaf>, start: nat): (r: seq<Column>)
    ensures |r| == |ls|
    ensures forall i :: 0 <= i < |ls| ==> r[i] == Column(ls[i].path, ls[i].accessor, start + i)
  {
    seq(|ls|, i requires 0 <= i < |ls| => Column(ls[i].path, ls[i].accessor, start + i))
  }

  /** The layout that numbering the leaves from `start` gives, or the same error. */
  function Numbered(leaves: Result<seq<Leaf>, LayoutError>, start: nat): Result<Layout, LayoutError> {
    match leaves
    case Ok(ls) => Ok(Layout(Number(ls, start), start + |ls|))
    case Err(e) => Err(e)
  }

  lemma NumberCons(l: Leaf, rest: seq<Leaf>, start: nat)
    ensures Number([l] + rest, start) == [Column(l.path, l.accessor, start)] + Number(rest, start + 1)
  {
  }

  lemma NumberUnder(p: string, inner: seq<Leaf>, rest: seq<Leaf>, start: nat)
    ensures UnderColumns(p, Number(inner, start)) + Number(rest, start + |inner|)
         == Number(UnderLeaves(p, inner) + rest, start)
  {
    var lhs := UnderColumns(p, Number(inner, start)) + Number(rest, start + |inner|);
    var rhs := Number(UnderLeaves(p, inner) + rest, start);
    assert |lhs| == |rhs|;
    forall i | 0 <= i < |lhs| ensures lhs[i] == rhs[i] {
      if i < |inner| {
        assert (UnderLeaves(p, inner) + rest)[i] == UnderLeaves(p, inner)[i];
      } else {
        assert (UnderLeaves(p, inner) + rest)[i] == rest[i - |inner|];
      }
    }
  }

  /**
   * Threading one cursor through the nested calls assigns the leaves of the
   * nesting tree, in pre-order and declaration order, to the consecutive
   * columns from `start`; both fail alike on a missing model or a cycle.
   */
  lemma {:induction false} LayoutIsNumberedPreOrder(env: map<string, GeneratedModel>, avail: set<string>, inits: seq<Initializer>, start: nat)
    ensures LayoutOf(env, avail, inits, start) == Numbered(Leaves(env, avail, inits), start)
    decreases avail, |inits|
  {
    if inits == [] {
      return;
    }
    match inits[0]
    case ReadColumn(p, accessor) => {
      LayoutIsNumberedPreOrder(env, avail, inits[1..], start + 1);
      ColumnStep(env, avail, inits, start, p, accessor);
    }
    case ReadNested(p, modelType) => {
      if modelType in env && modelType in avail {
        var nested := Initializers(env[modelType]);
        LayoutIsNumberedPreOrder(env, avail - {modelType}, nested, start);
        match Leaves(env, avail - {modelType}, nested)
        case Err(e) => NestedFails(env, avail, inits, start, p, modelType, e);
        case Ok(inner) =>
          var mid := start + |inner|;
          LayoutIsNumberedPreOrder(env, avail, inits[1..], mid);
          match Leaves(env, avail, inits[1..])
          case Err(e) => RestFails(env, avail, inits, start, p, modelType, inner, e);
          case Ok(rest) => NestedOk(env, avail, inits, start, p, modelType, inner, rest);
      } else {
        NestedUnavailable(env, avail, inits, start, p, modelType);
      }
    }
  }

  /** A nested model that is missing, or already open on the path, fails both alike. */
  lemma NestedUnavailable(env: map<string, GeneratedModel>, avail: set<string>, inits: seq<Initializer>, start: nat,
                          p: string, modelType: string)
    requires inits != [] && inits[0] == ReadNested(p, modelType)
    requires !(modelType in env && modelType in avail)
    ensures LayoutOf(env, avail, inits, start) == Numbered(Leaves(env, avail, inits), start)
  {
  }

  /** The column case of the lemma above, given what it proves of the rest. */
  lemma ColumnStep(env: map<string, GeneratedModel>, avail: set<string>, inits: seq<Initializer>, start: nat,
                   p: string, accessor: string)
    requires inits != [] && inits[0] == ReadColumn(p, accessor)
    requires LayoutOf(env, avail, inits[1..], start + 1) == Numbered(Leaves(env, avail, inits[1..]), start + 1)
    ensures LayoutOf(env, avail, inits, start) == Numbered(Leaves(env, avail, inits), start)
  {
    if Leaves(env, avail, inits[1..]).Ok? {
      NumberCons(Leaf([p], accessor), Leaves(env, avail, inits[1..]).value, start);
    }
  }

  /** The nested case of the lemma above when the nested model and the rest both lay out. */
  lemma NestedOk(env: map<string, GeneratedModel>, avail: set<string>, inits: seq<Initializer>, start: nat,
                 p: string, modelType: string, inner: seq<Leaf>, rest: seq<Leaf>)
    requires inits != [] && inits[0] == ReadNested(p, modelType)
    requires modelType in env && modelType in avail
    requires Leaves(env, avail - {modelType}, Initializers(env[modelType])) == Ok(inner)
    requires LayoutOf(env, avail - {modelType}, Initializers(env[modelType]), start)
          == Numbered(Leaves(env, avail - {modelType}, Initializers(env[modelType])), start)
    requires Leaves(env, avail, inits[1..]) == Ok(rest)
    requires LayoutOf(env, avail, inits[1..], start + |inner|) == Numbered(Leaves(env, avail, inits[1..]), start + |inner|)
    ensures LayoutOf(env, avail, inits, start) == Numbered(Leaves(env, avail, inits), start)
  {
    var mid := start + |inner|;
    LeavesNestedOk(env, avail, inits, p, modelType, inner, rest);
    var leaves := UnderLeaves(p, inner) + rest;
    assert Numbered(Leaves(env, avail, inits), start) == Ok(Layout(Number(leaves, start), mid + |rest|));
    LayoutNestedOk(env, avail, inits, start, p, modelType,
      Layout(Number(inner, start), mid), Layout(Number(rest, mid), mid + |rest|));
    NumberUnder(p, inner, rest, start);
  }

  lemma NestedFails(env: map<string, GeneratedModel>, avail: set<string>, inits: seq<Initializer>, start: nat,
                    p: string, modelType: string, e: LayoutError)
    requires inits != [] && inits[0] == ReadNested(p, modelType)
    requires modelType in env && modelType in avail
    requires Leaves(env, avail - {modelType}, Initializers(env[modelType])) == Err(e)
    requires LayoutOf(env, avail - {modelType}, Initializers(env[modelType]), start)
          == Numbered(Leaves(env, avail - {modelType}, Initializers(env[modelType])), start)
    ensures Leaves(env, avail, inits) == Err(e) && LayoutOf(env, avail, inits, start) == Err(e)
  {
  }

  lemma RestFails(env: map<string, GeneratedModel>, avail: set<string>, inits: seq<Initializer>, start: nat,
                  p: string, modelType: string, inner: seq<Leaf>, e: LayoutError)
    requires inits != [] && inits[0] == ReadNested(p, modelType)
    requires modelType in env && modelType in avail
    requires Leaves(env, avail - {modelType}, Initializers(env[modelType])) == Ok(inner)
    requires LayoutOf(env, avail - {modelType}, Initializers(env[modelType]), start)
          == Numbered(Leaves(env, avail - {modelType}, Initializers(env[modelType])), start)
    requires Leaves(env, avail, inits[1..]) == Err(e)
    requires LayoutOf(env, avail, inits[1..], start + |inner|) == Numbered(Leaves(env, avail, inits[1..]), start + |inner|)
    ensures Leaves(env, avail, inits) == Err(e) && LayoutOf(env, avail, inits, start) == Err(e)
  {
    var nested := Initializers(env[modelType]);
    assert LayoutOf(env, avail - {modelType}, nested, start) == Ok(Layout(Number(inner, start), start + |inner|));
    assert LayoutOf(env, avail, inits[1..], start + |inner|) == Err(e);
  }

  lemma LeavesNestedOk(env: map<string, GeneratedModel>, avail: set<string>, inits: seq<Initializer>,
                       p: string, modelType: string, inner: seq<Leaf>, rest: seq<Leaf>)
    requires inits != [] && inits[0] == ReadNested(p, modelType)
    requires modelType in env && modelType in avail
    requires Leaves(env, avail - {modelType}, Initializers(env[modelType])) == Ok(inner)
    requires Leaves(env, avail, inits[1..]) == Ok(rest)
    ensures Leaves(env, avail, inits) == Ok(UnderLeaves(p, inner) + rest)
  {
  }

  lemma LayoutNestedOk(env: map<string, GeneratedModel>, avail: set<string>, inits: seq<Initializer>, start: nat,
                       p: string, modelType: string, inner: Layout, rest: Layout)
    requires inits != [] && inits[0] == ReadNested(p, modelType)
    requires modelType in env && modelType in avail
    requires LayoutOf(env, avail - {modelType}, Initializers(env[modelType]), start) == Ok(inner)
    requires LayoutOf(env, avail, inits[1..], inner.next) == Ok(rest)
    ensures LayoutOf(env, avail, inits, start) == Ok(Layout(UnderColumns(p, inner.columns) + rest.columns, rest.next))
  {
  }

  /** The columns of a layout are `start`, `start + 1`, ..., one per leaf, each with its leaf's path and accessor. */
  lemma ColumnsAreConsecutive(env: map<string, GeneratedModel>, avail: set<string>, inits: seq<Initializer>, start: nat)
    requires LayoutOf(env, avail, inits, start).Ok?
    ensures Leaves(env, avail, inits).Ok?
    ensures
      var columns := LayoutOf(env, avail, inits, start).value.columns;
      var leaves := Leaves(env, avail, inits).value;
      |columns| == |leaves| &&
      forall i :: 0 <= i < |columns| ==>
        columns[i] == Column(leaves[i].path, leaves[i].accessor, start + i)
  {
    LayoutIsNumberedPreOrder(env, avail, inits, start);
  }

  /** A nested model's block is its own layout shifted by the cursor it is handed. */
  lemma LayoutShift(env: map<string, GeneratedModel>, avail: set<string>, inits: seq<Initializer>, start: nat)
    requires LayoutOf(env, avail, inits, 0).Ok?
    ensures LayoutOf(env, avail, inits, start).Ok?
    ensures
      var atZero := LayoutOf(env, avail, inits, 0).value.columns;
      var here := LayoutOf(env, avail, inits, start).value.columns;
      |here| == |atZero| &&
      forall i :: 0 <= i < |here| ==> here[i] == atZero[i].(index := atZero[i].index + start)
  {
    LayoutIsNumberedPreOrder(env, avail, inits, 0);
    LayoutIsNumberedPreOrder(env, avail, inits, start);
  }

  /** One column per initializer, numbered from `start`. */
  function ColumnsFrom(inits: seq<Initializer>, start: nat): (r: seq<Column>)
    requires forall i :: 0 <= i < |inits| ==> inits[i].ReadColumn?
    ensures |r| == |inits|
    ensures forall i :: 0 <= i < |inits| ==> r[i] == Column([inits[i].property], inits[i].accessor, start + i)
  {
    seq(|inits|, i requires 0 <= i < |inits| => Column([inits[i].property], inits[i].accessor, start + i))
  }

  /** Initializers that each read one column take consecutive columns from `start`, in order; `env` is never consulted. */
  lemma {:induction false} ColumnsOnlyLayout(env: map<string, GeneratedModel>, avail: set<string>, inits: seq<Initializer>, start: nat)
    requires forall i :: 0 <= i < |inits| ==> inits[i].ReadColumn?
    ensures LayoutOf(env, avail, inits, start) == Ok(Layout(ColumnsFrom(inits, start), start + |inits|))
    decreases |inits|
  {
    if inits != [] {
      ColumnsOnlyLayout(env, avail, inits[1..], start + 1);
      assert ColumnsFrom(inits, start)
          == [Column([inits[0].property], inits[0].accessor, start)] + ColumnsFrom(inits[1..], start + 1);
    }
  }

  /**
   * The entry point: the zero-argument `GetSingleModel(reader)` starts the
   * cursor at 0, so the model's leaves read columns 0, 1, ... in pre-order.
   * The model's own name is not available for nesting inside it.
   */
  function ReadModel(env: map<string, GeneratedModel>, g: GeneratedModel): (r: Result<seq<Column>, LayoutError>)
    ensures r.Ok? <==> Leaves(env, env.Keys - {ModelName(g)}, Initializers(g)).Ok?
    ensures r.Ok? ==>
      var leaves := Leaves(env, env.Keys - {ModelName(g)}, Initializers(g)).value;
      |r.value| == |leaves| &&
      forall i :: 0 <= i < |leaves| ==> r.value[i] == Column(leaves[i].path, leaves[i].accessor, i)
  {
    LayoutIsNumberedPreOrder(env, env.Keys - {ModelName(g)}, Initializers(g), 0);
    match LayoutOf(env, env.Keys - {ModelName(g)}, Initializers(g), 0)
    case Ok(layout) => Ok(layout.columns)
    case Err(e) => Err(e)
  }

  /** A flat model reads columns 0..n-1, one per property, in declaration order. */
  lemma FlatModelReadsColumnsInOrder(env: map<string, GeneratedModel>, m: MetadataModel)
    ensures ReadModel(env, Flat(m)).Ok?
    ensures
      var cs := ReadModel(env, Flat(m)).value;
      |cs| == |m.properties| &&
      forall i :: 0 <= i < |cs| ==>
        cs[i] == Column([m.properties[i].name], Accessor(m.properties[i].dataType), i)
  {
    ColumnsOnlyLayout(env, env.Keys - {m.name}, FlatInitializers(m), 0);
  }

  /**
   * Initializers that reach a model already open on the path (or a missing
   * one) never lay out, whatever comes before that initializer.
   */
  lemma {:induction false} ReopenedModelFails(env: map<string, GeneratedModel>, avail: set<string>, inits: seq<Initializer>,
                                              start: nat, i: nat)
    requires i < |inits| && inits[i].ReadNested? && inits[i].modelType !in avail
    ensures LayoutOf(env, avail, inits, start).Err?
    decreases |inits|
  {
    if i > 0 {
      match inits[0]
      case ReadColumn(_, _) =>
        ReopenedModelFails(env, avail, inits[1..], start + 1, i - 1);
      case ReadNested(_, modelType) =>
        if modelType in env && modelType in avail {
          var inner := LayoutOf(env, avail - {modelType}, Initializers(env[modelType]), start);
          if inner.Ok? {
            ReopenedModelFails(env, avail, inits[1..], inner.value.next, i - 1);
          }
        }
    }
  }

  /**
   * A model with any property that nests the model itself cannot be read:
   * wherever that property stands among the others, the layout fails.
   */
  lemma SelfNestingFails(env: map<string, GeneratedModel>, m: NestableMetadataModel, i: nat)
    requires i < |m.properties| && m.properties[i].dataType == Unknown && m.properties[i].customType == Some(m.name)
    ensures ReadModel(env, Nestable(m)).Err?
  {
    ReopenedModelFails(env, env.Keys - {m.name}, NestableInitializers(m), 0, i);
  }

  /** A model whose one property nests itself is reported as a cycle on its own name. */
  lemma SelfNestingIsCycle(env: map<string, GeneratedModel>, m: NestableMetadataModel)
    requires m.name in env
    requires m.properties == [NestableProperty("Self", Unknown, Some(m.name))]
    ensures ReadModel(env, Nestable(m)) == Err(Cycle(m.name))
  {
  }
}
