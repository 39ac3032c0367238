/**
 * `NestableMetadataModel`: what the nestable (`NestableOrmModelAttribute`)
 * transform produces for one type. A property either has a scalar kind and
 * no custom type, or kind `Unknown` and the short name of the nested model.
 */
module NestableMetadataModels {
  import opened Wrappers
  import opened DbDataTypes

  /** One extracted property: name, column kind and, for a nested model, its type name (`string?`). */
  datatype NestableProperty = NestableProperty(name: string, dataType: DbDataType, customType: Option<string>)

  datatype NestableMetadataModel = NestableMetadataModel(
    name: string,
    namespace: string,
    properties: seq<NestableProperty>,
    generateToString: bool)

  /** The part of a model that `Equals` looks at: everything except `GenerateToString`. */
  function Compared(m: NestableMetadataModel): (c: NestableMetadataModel)
    ensures !c.generateToString
    ensures c.name == m.name && c.namespace == m.namespace && c.properties == m.properties
  {
    m.(generateToString := false)
  }

  predicate Same(a: NestableMetadataModel, b: NestableMetadataModel) {
    Compared(a) == Compared(b)
  }

  /**
   * `Equals`: name, namespace and length first (so a length mismatch returns
   * false before any element is read), then every index's name, type and
   * custom type.
   */
  method Equals(self: NestableMetadataModel, other: NestableMetadataModel) returns (r: bool)
    ensures r <==> Same(self, other)
  {
    if self.name != other.name || self.namespace != other.namespace
       || |self.properties| != |other.properties| {
      return false;
    }
    var i := 0;
    while i < |self.properties|
      invariant 0 <= i <= |self.properties|
      invariant forall k :: 0 <= k < i ==> self.properties[k] == other.properties[k]
    {
      if self.properties[i].name != other.properties[i].name
         || self.properties[i].dataType != other.properties[i].dataType
         || self.properties[i].customType != other.properties[i].customType {
        return false;
      }
      i := i + 1;
    }
    assert self.properties == other.properties;
    return true;
  }

  lemma {:induction false} SameIgnoresGenerateToString(a: NestableMetadataModel, b: NestableMetadataModel)
    ensures Same(a, b) <==> a == b.(generateToString := a.generateToString)
  {
  }

  /** `Equals` is an equivalence relation; in particular it is symmetric. */
  lemma SameIsEquivalence(a: NestableMetadataModel, b: NestableMetadataModel, c: NestableMetadataModel)
    ensures Same(a, a)
    ensures Same(a, b) ==> Same(b, a)
    ensures Same(a, b) && Same(b, c) ==> Same(a, c)
  {
  }

  lemma SameElementwise(a: NestableMetadataModel, b: NestableMetadataModel)
    ensures Same(a, b) <==>
      && a.name == b.name && a.namespace == b.namespace
      && |a.properties| == |b.properties|
      && forall i :: 0 <= i < |a.properties| ==>
           && a.properties[i].name == b.properties[i].name
           && a.properties[i].dataType == b.properties[i].dataType
           && a.properties[i].customType == b.properties[i].customType
  {
    if && a.name == b.name && a.namespace == b.namespace && |a.properties| == |b.properties|
       && forall i :: 0 <= i < |a.properties| ==> a.properties[i] == b.properties[i] {
      assert a.properties == b.properties;
    }
  }

  /** Models whose property lists differ in length are never equal, whatever the elements. */
  lemma LengthMismatchIsUnequal(a: NestableMetadataModel, b: NestableMetadataModel)
    requires |a.properties| != |b.properties|
    ensures !Same(a, b)
  {
  }

  /** `Deconstruct`: (name, namespace, generateToString, properties). */
  function Deconstruct(m: NestableMetadataModel): (r: (string, string, bool, seq<NestableProperty>))
    ensures NestableMetadataModel(r.0, r.1, r.3, r.2) == m
  {
    (m.name, m.namespace, m.generateToString, m.properties)
  }

  lemma DeconstructConstructed(name: string, namespace: string, properties: seq<NestableProperty>, generateToString: bool)
    ensures Deconstruct(NestableMetadataModel(name, namespace, properties, generateToString))
         == (name, namespace, generateToString, properties)
  {
  }

  predicate SameForRegeneration(a: NestableMetadataModel, b: NestableMetadataModel) {
    Same(a, b) && a.generateToString == b.generateToString
  }

  lemma SameForRegenerationIsEquality(a: NestableMetadataModel, b: NestableMetadataModel)
    ensures SameForRegeneration(a, b) <==> a == b
  {
  }
}
