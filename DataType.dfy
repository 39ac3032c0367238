/**
 * The legacy `DataType` enumeration: the thirteen scalar kinds in the same
 * order as `DbDataType`, with no `Unknown` member and an `ERROR` sentinel
 * placed last. `DateTimeOffset` is commented out in the declaration and is
 * therefore not a member.
 */
module LegacyDataTypes {
  import DbDataTypes

  datatype DataType =
    | Boolean
    | Byte
    | Char
    | DateTime
    | Decimal
    | Double
    | Single
    | Guid
    | Int16
    | Int32
    | Int64
    | String
    | TimeSpan
    | ERROR

  const Members: seq<DataType> :=
    [Boolean, Byte, Char, DateTime, Decimal, Double, Single,
     Guid, Int16, Int32, Int64, String, TimeSpan, ERROR]

  function Name(t: DataType): string {
    match t
    case Boolean => "Boolean"
    case Byte => "Byte"
    case Char => "Char"
    case DateTime => "DateTime"
    case Decimal => "Decimal"
    case Double => "Double"
    case Single => "Single"
    case Guid => "Guid"
    case Int16 => "Int16"
    case Int32 => "Int32"
    case Int64 => "Int64"
    case String => "String"
    case TimeSpan => "TimeSpan"
    case ERROR => "ERROR"
  }

  /** The underlying integer value: the declaration position. */
  function Ordinal(t: DataType): (i: nat)
    ensures i < |Members| && Members[i] == t
  {
    match t
    case Boolean => 0
    case Byte => 1
    case Char => 2
    case DateTime => 3
    case Decimal => 4
    case Double => 5
    case Single => 6
    case Guid => 7
    case Int16 => 8
    case Int32 => 9
    case Int64 => 10
    case String => 11
    case TimeSpan => 12
    case ERROR => 13
  }

  /** Every value is listed once; the sentinel is the last member, so the default (ordinal 0) is `Boolean`. */
  lemma ErrorIsLastNotDefault()
    ensures |Members| == 14
    ensures forall t: DataType :: t in Members
    ensures forall i, j :: 0 <= i < j < |Members| ==> Members[i] != Members[j]
    ensures Members[0] == Boolean && Ordinal(ERROR) == |Members| - 1
  {
    forall i, j | 0 <= i < j < |Members| ensures Members[i] != Members[j] {
      assert Ordinal(Members[i]) == i && Ordinal(Members[j]) == j;
    }
    forall t: DataType ensures t in Members {
      assert Members[Ordinal(t)] == t;
    }
  }

  /**
   * The scalars are those of `DbDataType` in the same order: dropping
   * `ERROR` here and `Unknown` there leaves the same names.
   */
  lemma SameScalarsAsDbDataType()
    ensures |Members| - 1 == |DbDataTypes.Members| - 1
    ensures forall i :: 0 <= i < |Members| - 1 ==>
      Name(Members[i]) == DbDataTypes.Name(DbDataTypes.Members[i + 1])
  {
    forall i | 0 <= i < |Members| - 1
      ensures Name(Members[i]) == DbDataTypes.Name(DbDataTypes.Members[i + 1])
    {
      if i < 7 {
        SameScalarNameBelow(i);
      } else {
        SameScalarNameFrom(i);
      }
    }
  }

  lemma SameScalarNameBelow(i: nat)
    requires i < 7
    ensures Name(Members[i]) == DbDataTypes.Name(DbDataTypes.Members[i + 1])
  {
  }

  lemma SameScalarNameFrom(i: nat)
    requires 7 <= i < |Members| - 1
    ensures Name(Members[i]) == DbDataTypes.Name(DbDataTypes.Members[i + 1])
  {
  }

  /** Neither `DateTimeOffset` (commented out) nor `Float` is a member; `Single` is. */
  lemma NoDateTimeOffsetNoFloat()
    ensures forall t: DataType :: Name(t) != "DateTimeOffset" && Name(t) != "Float"
    ensures Name(Single) == "Single"
  {
  }
}
