/**
 * `MetadataModel`: what the flat (`OrmModelAttribute`) transform produces
 * for one type, and the structural `Equals` the incremental pipeline uses to
 * decide whether the type's source must be generated again.
 */
module MetadataModels {
  import opened DbDataTypes

  /** One extracted property: its name and its classified column kind. */
  datatype ModelProperty = ModelProperty(name: string, dataType: DbDataType)

  /** Fields in the order of the primary constructor's parameters. */
  datatype MetadataModel = MetadataModel(
    name: string,
    namespace: string,
    properties: seq<ModelProperty>,
    generateToString: bool)

  /** The part of a model that `Equals` looks at: everything except `GenerateToString`. */
  function Compared(m: MetadataModel): (c: MetadataModel)
    ensures !c.generateToString
    ensures c.name == m.name && c.namespace == m.namespace && c.properties == m.properties
  {
    m.(generateToString := false)
  }

  /** The relation `Equals` decides. */
  predicate Same(a: MetadataModel, b: MetadataModel) {
    Compared(a) == Compared(b)
  }

  /**
   * `Equals`: compares name, namespace and length first, then every index's
   * property name and type, returning false at the first difference.
   */
  method Equals(self: MetadataModel, other: MetadataModel) returns (r: bool)
    ensures r <==> Same(self, other)
  {
    if self.name != other.name || self.namespace != other.namespace
       || |self.properties| != |other.properties| {
      return false;
    }
    var i := 0;
    while i < |self.properties|
      invariant 0 <= i <= |self.properties|
      invariant forall k :: 0 <= k < i ==> self.properties[k] == other.properties[k]
    {
      if self.properties[i].name != other.properties[i].name
         || self.properties[i].dataType != other.properties[i].dataType {
        return false;
      }
      i := i + 1;
    }
    assert self.properties == other.properties;
    return true;
  }

  /** Equal models differ at most in `GenerateToString`, and any two that differ only there are equal. */
  lemma {:induction false} SameIgnoresGenerateToString(a: MetadataModel, b: MetadataModel)
    ensures Same(a, b) <==> a == b.(generateToString := a.generateToString)
  {
  }

  /** `Equals` is an equivalence relation. */
  lemma SameIsEquivalence(a: MetadataModel, b: MetadataModel, c: MetadataModel)
    ensures Same(a, a)
    ensures Same(a, b) ==> Same(b, a)
    ensures Same(a, b) && Same(b, c) ==> Same(a, c)
  {
  }

  /** Elementwise: equal iff name, namespace, length and every property's name and type agree. */
  lemma SameElementwise(a: MetadataModel, b: MetadataModel)
    ensures Same(a, b) <==>
      && a.name == b.name && a.namespace == b.namespace
      && |a.properties| == |b.properties|
      && forall i :: 0 <= i < |a.properties| ==>
           a.properties[i].name == b.properties[i].name && a.properties[i].dataType == b.properties[i].dataType
  {
    if && a.name == b.name && a.namespace == b.namespace && |a.properties| == |b.properties|
       && forall i :: 0 <= i < |a.properties| ==> a.properties[i] == b.properties[i] {
      assert a.properties == b.properties;
    }
  }

  function Swap<T>(s: seq<T>, i: nat, j: nat): (r: seq<T>)
    requires i < |s| && j < |s|
    ensures |r| == |s| && r[i] == s[j] && r[j] == s[i]
    ensures forall k :: 0 <= k < |s| && k != i && k != j ==> r[k] == s[k]
  {
    s[i := s[j]][j := s[i]]
  }

  /** Property order is significant: exchanging two different properties gives an unequal model. */
  lemma PropertyOrderMatters(m: MetadataModel, i: nat, j: nat)
    requires i < j < |m.properties|
    requires m.properties[i] != m.properties[j]
    ensures !Same(m, m.(properties := Swap(m.properties, i, j)))
  {
    assert Swap(m.properties, i, j)[i] != m.properties[i];
  }

  /** `Deconstruct`: (name, namespace, generateToString, properties). */
  function Deconstruct(m: MetadataModel): (r: (string, string, bool, seq<ModelProperty>))
    ensures MetadataModel(r.0, r.1, r.3, r.2) == m
  {
    (m.name, m.namespace, m.generateToString, m.properties)
  }

  /** Deconstructing a constructed model gives back exactly the constructor's arguments, reordered. */
  lemma DeconstructConstructed(name: string, namespace: string, properties: seq<ModelProperty>, generateToString: bool)
    ensures Deconstruct(MetadataModel(name, namespace, properties, generateToString))
         == (name, namespace, generateToString, properties)
  {
  }

  /**
   * What equality would have to compare for an unchanged model to mean
   * unchanged generated source: `Same` and also `GenerateToString`.
   */
  predicate SameForRegeneration(a: MetadataModel, b: MetadataModel) {
    Same(a, b) && a.generateToString == b.generateToString
  }

  lemma SameForRegenerationIsEquality(a: MetadataModel, b: MetadataModel)
    ensures SameForRegeneration(a, b) <==> a == b
  {
  }
}
