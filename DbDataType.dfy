/**
 * The `DbDataType` enumeration: the closed vocabulary of scalar column kinds
 * the generator recognises, with `Unknown` first as the "not a scalar"
 * sentinel. Generator/DbDataType.cs and Generator/Utility/DbDataType.cs
 * declare the same enumeration in two namespaces; it is modelled once.
 */
module DbDataTypes {
  import opened Wrappers

  datatype DbDataType =
    | Unknown
    | Boolean
    | Byte
    | Char
    | DateTime
    | Decimal
    | Double
    | Single
    | Guid
    | Int16
    | Int32
    | Int64
    | String
    | TimeSpan

  /** The members in declaration order; the index of a member is its ordinal. */
  const Members: seq<DbDataType> :=
    [Unknown, Boolean, Byte, Char, DateTime, Decimal, Double, Single,
     Guid, Int16, Int32, Int64, String, TimeSpan]

  /** The member's name, as `ToString()` and `Enum.GetNames` give it. */
  function Name(t: DbDataType): string {
    match t
    case Unknown => "Unknown"
    case Boolean => "Boolean"
    case Byte => "Byte"
    case Char => "Char"
    case DateTime => "DateTime"
    case Decimal => "Decimal"
    case Double => "Double"
    case Single => "Single"
    case Guid => "Guid"
    case Int16 => "Int16"
    case Int32 => "Int32"
    case Int64 => "Int64"
    case String => "String"
    case TimeSpan => "TimeSpan"
  }

  /** The underlying integer value the compiler assigns: the declaration position. */
  function Ordinal(t: DbDataType): (i: nat)
    ensures i < |Members| && Members[i] == t
  {
    match t
    case Unknown => 0
    case Boolean => 1
    case Byte => 2
    case Char => 3
    case DateTime => 4
    case Decimal => 5
    case Double => 6
    case Single => 7
    case Guid => 8
    case Int16 => 9
    case Int32 => 10
    case Int64 => 11
    case String => 12
    case TimeSpan => 13
  }

  /** `Enum.GetNames(typeof(DbDataType))`: the names in declaration order. */
  function Names(): (names: seq<string>)
    ensures |names| == |Members|
    ensures forall i :: 0 <= i < |Members| ==> names[i] == Name(Members[i])
  {
    seq(|Members|, i requires 0 <= i < |Members| => Name(Members[i]))
  }

  /** `Unknown` is member 0, so it is also the enumeration's default value. */
  lemma UnknownIsDefault()
    ensures Ordinal(Unknown) == 0 && Members[0] == Unknown
  {
  }

  /** Fourteen members, all distinct, every value listed: `Unknown` and thirteen scalars. */
  lemma MembersAreTheWholeEnumeration()
    ensures |Members| == 14
    ensures forall i, j :: 0 <= i < j < |Members| ==> Members[i] != Members[j]
    ensures forall t: DbDataType :: t in Members
  {
    forall i, j | 0 <= i < j < |Members| ensures Members[i] != Members[j] {
      assert Ordinal(Members[i]) == i && Ordinal(Members[j]) == j;
    }
    forall t: DbDataType ensures t in Members {
      assert Members[Ordinal(t)] == t;
    }
  }

  /** `Single` is a member name and `Float` is not: the accessor `GetFloat` cannot come from a name. */
  lemma SingleIsNamedButFloatIsNot()
    ensures Name(Single) == "Single"
    ensures forall t: DbDataType :: Name(t) != "Float"
  {
  }

  // Case-insensitive matching as `Enum.TryParse(name, ignoreCase: true, ...)` does it.

  /** Upper-case folding of one character; only ASCII letters change. */
  function FoldCase(c: char): (u: char)
    ensures 'a' <= c <= 'z' ==> u as int == c as int - 32
    ensures !('a' <= c <= 'z') ==> u == c
  {
    if 'a' <= c <= 'z' then (c as int - 32) as char else c
  }

  function Upper(s: string): (u: string)
    ensures |u| == |s|
    ensures forall i :: 0 <= i < |s| ==> u[i] == FoldCase(s[i])
  {
    seq(|s|, i requires 0 <= i < |s| => FoldCase(s[i]))
  }

  /** Two strings are equal ignoring (ASCII) case. */
  predicate EqualIgnoringCase(a: string, b: string) {
    Upper(a) == Upper(b)
  }

  /** The upper-cased member names, spelt out once so that comparisons against them are cheap. */
  function UpperName(t: DbDataType): (u: string)
    ensures u == Upper(Name(t))
  {
    if Ordinal(t) < 7 then UpperNameFirstHalf(t) else UpperNameSecondHalf(t)
  }

  function UpperNameFirstHalf(t: DbDataType): (u: string)
    requires Ordinal(t) < 7
    ensures u == Upper(Name(t))
  {
    var u := match t
      case Unknown => "UNKNOWN"
      case Boolean => "BOOLEAN"
      case Byte => "BYTE"
      case Char => "CHAR"
      case DateTime => "DATETIME"
      case Decimal => "DECIMAL"
      case Double => "DOUBLE"
      case _ => assert false; "";
    assert u == Upper(Name(t));
    u
  }

  function UpperNameSecondHalf(t: DbDataType): (u: string)
    requires Ordinal(t) >= 7
    ensures u == Upper(Name(t))
  {
    var u := match t
      case Single => "SINGLE"
      case Guid => "GUID"
      case Int16 => "INT16"
      case Int32 => "INT32"
      case Int64 => "INT64"
      case String => "STRING"
      case TimeSpan => "TIMESPAN"
      case _ => assert false; "";
    assert u == Upper(Name(t));
    u
  }

  /** No two members' names are equal ignoring case, so a case-insensitive parse is unambiguous. */
  lemma NamesDistinctIgnoringCase(t1: DbDataType, t2: DbDataType)
    requires EqualIgnoringCase(Name(t1), Name(t2))
    ensures t1 == t2
  {
    assert UpperName(t1) == UpperName(t2);
  }

  /** First member of `candidates` whose name equals `s` ignoring case. */
  function FindIgnoringCase(s: string, candidates: seq<DbDataType>): (r: Option<DbDataType>)
    ensures r.Some? ==> r.value in candidates && EqualIgnoringCase(s, Name(r.value))
    ensures r.None? ==> forall t :: t in candidates ==> !EqualIgnoringCase(s, Name(t))
  {
    if candidates == [] then None
    else if Upper(s) == UpperName(candidates[0]) then Some(candidates[0])
    else FindIgnoringCase(s, candidates[1..])
  }

  /**
   * `Enum.TryParse(s, true, out DbDataType t)` on a type short name: the member
   * whose name equals `s` ignoring case, or `None` when there is none.
   */
  function TryParse(s: string): (r: Option<DbDataType>)
    ensures r.Some? <==> exists t :: EqualIgnoringCase(s, Name(t))
    ensures forall t :: r == Some(t) <==> EqualIgnoringCase(s, Name(t))
  {
    var r := FindIgnoringCase(s, Members);
    MembersAreTheWholeEnumeration();
    forall t | EqualIgnoringCase(s, Name(t)) ensures r == Some(t) {
      assert r.Some?;
      NamesDistinctIgnoringCase(r.value, t);
    }
    r
  }

  /** Parsing does not depend on the case of the input: "string", "String" and "STRING" agree. */
  lemma TryParseIgnoresCase(a: string, b: string)
    requires EqualIgnoringCase(a, b)
    ensures TryParse(a) == TryParse(b)
  {
  }

  /** Every member name parses back to its member, in any case. */
  lemma TryParseName(t: DbDataType)
    ensures TryParse(Name(t)) == Some(t)
    ensures TryParse(Upper(Name(t))) == Some(t)
  {
    assert EqualIgnoringCase(Upper(Name(t)), Name(t));
  }

  /** A type literally named "Unknown", in any case, parses to the sentinel member. */
  lemma TryParseUnknown(s: string)
    requires EqualIgnoringCase(s, "Unknown")
    ensures TryParse(s) == Some(Unknown)
  {
  }
}
