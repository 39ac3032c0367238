/**
 * The older `NestableMetadataModel` in namespace `OrmGenerator` (over the
 * legacy `DataType`, with no `GenerateToString`). Its `Equals` compares name
 * and namespace but not the lengths of the property lists, and then reads
 * `other.Properties[i]` for every index of its own list.
 */
module LegacyNestableMetadataModels {
  import opened Wrappers
  import opened LegacyDataTypes

  datatype LegacyProperty = LegacyProperty(name: string, dataType: DataType, customType: Option<string>)

  datatype LegacyNestableMetadataModel = LegacyNestableMetadataModel(
    name: string,
    namespace: string,
    properties: seq<LegacyProperty>)

  /** The exception an out-of-bounds `ImmutableArray` index throws. */
  datatype EqualsException = IndexOutOfRange

  predicate IsPrefix<T(==)>(p: seq<T>, s: seq<T>) {
    |p| <= |s| && s[..|p|] == p
  }

  /**
   * What `Equals` does, stated without its loop: false on a different name or
   * namespace; true when this model's properties are a prefix of the other's
   * (extra trailing properties on the other side are never looked at); an
   * index-out-of-range exception when the other's properties are a proper
   * prefix of this one's; false otherwise (a mismatch is met first).
   */
  function LegacyEquals(a: LegacyNestableMetadataModel, b: LegacyNestableMetadataModel): Result<bool, EqualsException> {
    if a.name != b.name || a.namespace != b.namespace then Ok(false)
    else if IsPrefix(a.properties, b.properties) then Ok(true)
    else if IsPrefix(b.properties, a.properties) then Err(IndexOutOfRange)
    else Ok(false)
  }

  /** `Equals` as written: the loop runs over this model's properties and reads the other's at the same index. */
  method Equals(self: LegacyNestableMetadataModel, other: LegacyNestableMetadataModel)
    returns (r: Result<bool, EqualsException>)
    ensures r == LegacyEquals(self, other)
  {
    if self.name != other.name || self.namespace != other.namespace {
      return Ok(false);
    }
    var i := 0;
    while i < |self.properties|
      invariant 0 <= i <= |self.properties|
      invariant i <= |other.properties|
      invariant self.properties[..i] == other.properties[..i]
    {
      if i >= |other.properties| {
        assert other.properties == self.properties[..i];
        return Err(IndexOutOfRange);
      }
      if self.properties[i].name != other.properties[i].name
         || self.properties[i].dataType != other.properties[i].dataType
         || self.properties[i].customType != other.properties[i].customType {
        assert self.properties[..i + 1] != other.properties[..i + 1] by {
          assert self.properties[..i + 1][i] != other.properties[..i + 1][i];
        }
        assert !IsPrefix(self.properties, other.properties);
        assert !IsPrefix(other.properties, self.properties);
        return Ok(false);
      }
      assert self.properties[..i + 1] == self.properties[..i] + [self.properties[i]];
      assert other.properties[..i + 1] == other.properties[..i] + [other.properties[i]];
      i := i + 1;
    }
    assert self.properties[..i] == self.properties;
    return Ok(true);
  }

  /** A different name or namespace returns false before any property is read. */
  lemma DifferentIdentityIsUnequal(a: LegacyNestableMetadataModel, b: LegacyNestableMetadataModel)
    requires a.name != b.name || a.namespace != b.namespace
    ensures LegacyEquals(a, b) == Ok(false)
  {
  }

  /** Extra trailing properties on the other model are not noticed. */
  lemma TrailingPropertiesIgnored(a: LegacyNestableMetadataModel, extra: seq<LegacyProperty>)
    ensures LegacyEquals(a, a.(properties := a.properties + extra)) == Ok(true)
  {
    assert (a.properties + extra)[..|a.properties|] == a.properties;
  }

  /** A model without properties equals every model with the same name and namespace. */
  lemma EmptyEqualsEverything(a: LegacyNestableMetadataModel, b: LegacyNestableMetadataModel)
    requires a.name == b.name && a.namespace == b.namespace && a.properties == []
    ensures LegacyEquals(a, b) == Ok(true)
  {
  }

  /** Indexing is safe exactly when the other model has at least as many properties. */
  lemma ThrowsOnlyWhenOtherIsShorter(a: LegacyNestableMetadataModel, b: LegacyNestableMetadataModel)
    ensures LegacyEquals(a, b).Err? ==> |b.properties| < |a.properties|
    ensures |b.properties| >= |a.properties| ==> LegacyEquals(a, b).Ok?
  {
  }

  /** With equal lengths the comparison is plain structural equality. */
  lemma EqualLengthsIsStructural(a: LegacyNestableMetadataModel, b: LegacyNestableMetadataModel)
    requires |a.properties| == |b.properties|
    ensures LegacyEquals(a, b) == Ok(a == b)
  {
    if a.name == b.name && a.namespace == b.namespace && IsPrefix(a.properties, b.properties) {
      assert b.properties[..|a.properties|] == b.properties;
    }
  }

  /**
   * `Equals` is not symmetric: a model with one property and the same model
   * with none compare equal one way and throw the other way.
   */
  lemma {:induction false} NotSymmetric()
    ensures
      var p := LegacyProperty("Id", Int32, None);
      var empty := LegacyNestableMetadataModel("DbModel", "Tests", []);
      var one := LegacyNestableMetadataModel("DbModel", "Tests", [p]);
      LegacyEquals(empty, one) == Ok(true) && LegacyEquals(one, empty) == Err(IndexOutOfRange)
  {
    var p := LegacyProperty("Id", Int32, None);
    assert [p][..0] == [];
  }
}
