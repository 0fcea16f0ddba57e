/** The columnar table (Header, Cell, Field, EmptyField), the enumerations the transformations
    use, and the type-dependent cell comparison. */
module DataTypes {
  import opened Wrappers
  import opened Text

  datatype FieldDataType = Bool | String | Number | Date

  datatype SortDirection = Ascending | Descending

  datatype Relation = Equals | NotEquals | LessThan | GreaterThan | InRange

  datatype Aggregation = GroupKey | CountAll | CountDistinct | ConcatValues | Sum | Mean

  /** A column: its name, the type inferred at ingestion and its position in the file. */
  datatype Header = Header(name: string, fieldType: FieldDataType, index: int)

  /** A raw value kept as text, and its current row position. */
  datatype Cell = Cell(content: string, index: int)

  /** A column with its cells. */
  datatype Field = Field(header: Header, data: seq<Cell>)

  /** A column without data: the schema-only view used for look-ahead. */
  datatype EmptyField = EmptyField(header: Header)

  datatype FilterCondition = FilterCondition(relation: Relation, sourceHeaderName: string, condition: string)

  /** The culture-dependent services of the runtime, left uninterpreted: every property proved
      here holds for every choice of them. Dates are represented by their tick count. */
  datatype Runtime = Runtime(
    parseBool: string -> Option<bool>,
    parseDate: string -> Option<int>,
    parseDouble: string -> bool,
    compareStrings: (string, string) -> int,
    sum: seq<string> -> string,
    mean: seq<string> -> string)

  /** The schema of a table: each field seen as an EmptyField. */
  function Schema(fields: seq<Field>): (s: seq<EmptyField>)
    ensures |s| == |fields|
    ensures forall i :: 0 <= i < |s| ==> s[i].header == fields[i].header
  {
    seq(|fields|, i requires 0 <= i < |fields| => EmptyField(fields[i].header))
  }

  /** Every cell's Index is its position. */
  predicate WellIndexed(cells: seq<Cell>)
  {
    forall j :: 0 <= j < |cells| ==> cells[j].index == j
  }

  /** A rectangular table as the parser builds it: every column holds n cells numbered 0..n-1. */
  predicate WellFormed(fields: seq<Field>, n: nat)
  {
    forall i :: 0 <= i < |fields| ==> |fields[i].data| == n && WellIndexed(fields[i].data)
  }

  /** Bool rule: when both sides parse, false before true and equal values tie; a parsed value
      ranks before an unparsed one, and an unparsed left side ranks after anything. */
  function CompareBools(a: Option<bool>, b: Option<bool>): int
  {
    if a.Some? && b.Some? then
      if !a.value && b.value then -1
      else if !a.value && !b.value then 0
      else if a.value && b.value then 0
      else 1
    else if a.Some? then -1
    else 1
  }

  /** Number and Date rule: integer (tick) order when both sides parse; a parsed value ranks
      before an unparsed one, and an unparsed left side ranks after anything. */
  function CompareOrdered(a: Option<int>, b: Option<int>): int
  {
    if a.Some? && b.Some? then
      if a.value < b.value then -1
      else if a.value == b.value then 0
      else 1
    else if a.Some? then -1
    else 1
  }

  /** Cell.CompareTo_TypeDependent: compares a cell's content with a text (None stands for a
      null text) according to the column type. */
  function CompareTo_TypeDependent(rt: Runtime, cell: Cell, fieldType: FieldDataType, other: Option<string>): (r: int)
    ensures other.None? ==> r == -1
    ensures fieldType != String ==> -1 <= r <= 1
    ensures other.Some? && fieldType == String ==> r == rt.compareStrings(cell.content, other.value)
  {
    if other.None? then -1
    else
      match fieldType
      case Bool => CompareBools(rt.parseBool(cell.content), rt.parseBool(other.value))
      case String => rt.compareStrings(cell.content, other.value)
      case Number => CompareOrdered(ParseInt(cell.content), ParseInt(other.value))
      case Date => CompareOrdered(rt.parseDate(cell.content), rt.parseDate(other.value))
  }

  /** Cell.CompareToTypeDependent: the same comparison against another cell (None is a null
      cell); the source repeats the body of CompareTo_TypeDependent, the model shares it. */
  function CompareToTypeDependent(rt: Runtime, cell: Cell, fieldType: FieldDataType, other: Option<Cell>): (r: int)
    ensures other.None? ==> r == -1
    ensures other.Some? ==> r == CompareTo_TypeDependent(rt, cell, fieldType, Some(other.value.content))
  {
    if other.None? then -1 else CompareTo_TypeDependent(rt, cell, fieldType, Some(other.value.content))
  }

  /** Cell.CompareTo: culture string comparison of the contents, -1 against a null cell. */
  function CompareTo(rt: Runtime, cell: Cell, other: Option<Cell>): (r: int)
    ensures other.None? ==> r == -1
    ensures other.Some? ==> r == rt.compareStrings(cell.content, other.value.content)
  {
    if other.None? then -1 else rt.compareStrings(cell.content, other.value.content)
  }

  /** Whether a text parses under the parser of the given (non-String) column type. */
  function Parses(rt: Runtime, fieldType: FieldDataType, s: string): bool
  {
    match fieldType
    case Bool => rt.parseBool(s).Some?
    case String => true
    case Number => ParseInt(s).Some?
    case Date => rt.parseDate(s).Some?
  }

  /** For Bool, Number and Date: an unparsed left side compares as 1 whatever the right side is,
      and a parsed left side against an unparsed right side compares as -1. */
  lemma UnparsedRanksLast(rt: Runtime, cell: Cell, fieldType: FieldDataType, other: string)
    requires fieldType != String
    ensures !Parses(rt, fieldType, cell.content) ==> CompareTo_TypeDependent(rt, cell, fieldType, Some(other)) == 1
    ensures Parses(rt, fieldType, cell.content) && !Parses(rt, fieldType, other) ==>
              CompareTo_TypeDependent(rt, cell, fieldType, Some(other)) == -1
  {
  }

  /** Two unparsed values each compare as 1 against the other: the comparison is not an order
      on unparsed values. */
  lemma UnparsedPairNotAntisymmetric(rt: Runtime, a: Cell, b: Cell, fieldType: FieldDataType)
    requires fieldType != String
    requires !Parses(rt, fieldType, a.content) && !Parses(rt, fieldType, b.content)
    ensures CompareTo_TypeDependent(rt, a, fieldType, Some(b.content)) == 1
    ensures CompareTo_TypeDependent(rt, b, fieldType, Some(a.content)) == 1
  {
  }

  /** Number cells that both parse compare by integer order. */
  lemma NumberFollowsIntegerOrder(rt: Runtime, a: Cell, b: string)
    requires ParseInt(a.content).Some? && ParseInt(b).Some?
    ensures var x, y, r := ParseInt(a.content).value, ParseInt(b).value, CompareTo_TypeDependent(rt, a, Number, Some(b));
            (r == -1 <==> x < y) && (r == 0 <==> x == y) && (r == 1 <==> x > y)
  {
  }

  /** Bool cells that both parse: false against true is -1, true against false is 1, equal
      values give 0. */
  lemma BoolRule(rt: Runtime, a: Cell, b: string)
    requires rt.parseBool(a.content).Some? && rt.parseBool(b).Some?
    ensures var x, y, r := rt.parseBool(a.content).value, rt.parseBool(b).value, CompareTo_TypeDependent(rt, a, Bool, Some(b));
            (!x && y ==> r == -1) && (x && !y ==> r == 1) && (x == y ==> r == 0)
  {
  }

  /** When both sides parse, swapping them negates the result (Bool, Number and Date). */
  lemma AntisymmetricWhenParsed(rt: Runtime, a: Cell, b: Cell, fieldType: FieldDataType)
    requires fieldType != String
    requires Parses(rt, fieldType, a.content) && Parses(rt, fieldType, b.content)
    ensures CompareTo_TypeDependent(rt, a, fieldType, Some(b.content)) == -CompareTo_TypeDependent(rt, b, fieldType, Some(a.content))
  {
  }
}
