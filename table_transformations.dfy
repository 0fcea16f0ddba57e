/** PerformTransformation of the five variants over a table, and Transformator's left-to-right
    fold of a transformation list. The functions are the specification; the methods follow the
    loops of the repository and are proved equal to them. */
module TableTransformations {
  import opened Wrappers
  import opened Text
  import opened DataTypes
  import opened ListExtensions
  import opened Transformations

  /** The position of the first field with the given name (FirstOrDefault), if any. */
  function FirstIndexOf(fields: seq<Field>, name: string): (r: Option<nat>)
    ensures r.Some? ==>
              r.value < |fields| && fields[r.value].header.name == name &&
              forall q :: 0 <= q < r.value ==> fields[q].header.name != name
    ensures r.None? ==> forall q :: 0 <= q < |fields| ==> fields[q].header.name != name
  {
    if fields == [] then None
    else if fields[0].header.name == name then Some(0)
    else
      match FirstIndexOf(fields[1..], name)
      case None => None
      case Some(p) => Some(p + 1)
  }

  /** The cells a predicate keeps, in order (a LINQ where clause). */
  function FilterCells(cells: seq<Cell>, keep: Cell -> bool): (r: seq<Cell>)
    ensures |r| <= |cells|
  {
    if cells == [] then []
    else
      var init := FilterCells(cells[..|cells| - 1], keep);
      if keep(cells[|cells| - 1]) then init + [cells[|cells| - 1]] else init
  }

  function Contents(cells: seq<Cell>): (r: seq<string>)
    ensures |r| == |cells|
    ensures forall j :: 0 <= j < |r| ==> r[j] == cells[j].content
  {
    seq(|cells|, j requires 0 <= j < |cells| => cells[j].content)
  }

  // ------------------------------------------------------------------ SortBy

  /** SortByTransformation.PerformTransformation: sort the first column of that name, then
      re-slice every other field by the sorted cells' original row positions. */
  function SortByResult(rt: Runtime, fields: seq<Field>, column: string, direction: SortDirection): Result<seq<Field>>
  {
    match FirstIndexOf(fields, column)
    case None => Failure(ArgumentException("Field to SortBy not found."))
    case Some(p) =>
      var sortedAndIndexes := SortAndGetIndexes(rt, fields[p], direction);
      SelectRows(fields[p := sortedAndIndexes.0], sortedAndIndexes.1, Some(p))
  }

  // ------------------------------------------------------------------ FilterBy

  /** Whether a comparison result satisfies the relation. */
  function Holds(relation: Relation, comparison: int): bool
  {
    match relation
    case Equals => comparison == 0
    case NotEquals => comparison != 0
    case LessThan => comparison < 0
    case GreaterThan => comparison > 0
    case InRange => false
  }

  /** The where clause of the FilterBy queries: the cell compared with the literal. */
  function Matches(rt: Runtime, fieldType: FieldDataType, relation: Relation, condition: string): Cell -> bool
  {
    (c: Cell) => Holds(relation, CompareTo_TypeDependent(rt, c, fieldType, Some(condition)))
  }

  /** The row positions the FilterBy query selects: the Index of every matching cell. */
  function FilterIndexes(rt: Runtime, source: Field, condition: FilterCondition): seq<int>
  {
    GetIndexes(FilterCells(source.data, Matches(rt, source.header.fieldType, condition.relation, condition.condition)))
  }

  /** FilterByTransformation.PerformTransformation, with the selected positions computed once. */
  function FilterByResult(rt: Runtime, fields: seq<Field>, condition: FilterCondition): Result<seq<Field>>
  {
    match FirstIndexOf(fields, condition.sourceHeaderName)
    case None => Failure(ArgumentException("Field to FilterBy not found."))
    case Some(p) =>
      if condition.relation == InRange then Failure(NotImplementedException("Relation.InRange not implemented"))
      else SelectRows(fields, FilterIndexes(rt, fields[p], condition), None)
  }

  // ------------------------------------------------------------------ GroupBy

  /** The distinct contents of the cells in the order they are first seen: the keys of the
      dictionary built from the grouping. */
  function GroupKeys(cells: seq<Cell>): seq<string>
  {
    if cells == [] then []
    else
      var init := GroupKeys(cells[..|cells| - 1]);
      if cells[|cells| - 1].content in init then init else init + [cells[|cells| - 1].content]
  }

  function HasContent(key: string): Cell -> bool
  {
    (c: Cell) => c.content == key
  }

  /** For every key, the Index of the target cells holding it, in order. */
  function GroupIndexes(cells: seq<Cell>, keys: seq<string>): (r: seq<seq<int>>)
    ensures |r| == |keys|
    ensures forall j :: 0 <= j < |r| ==> r[j] == GetIndexes(FilterCells(cells, HasContent(keys[j])))
  {
    seq(|keys|, j requires 0 <= j < |keys| => GetIndexes(FilterCells(cells, HasContent(keys[j]))))
  }

  /** The cells of a field at the positions of one group. */
  function GroupCells(field: Field, group: seq<int>): (r: seq<Cell>)
    requires AllInRange(group, |field.data|)
    ensures |r| == |group|
    ensures forall j :: 0 <= j < |r| ==> r[j] == field.data[group[j]]
  {
    seq(|group|, j requires 0 <= j < |group| => field.data[group[j]])
  }

  /** The number of distinct texts. */
  function DistinctCount(s: seq<string>): nat
  {
    |set x | x in s|
  }

  /** The aggregate of one group. Sum and Mean go through the runtime's floating-point
      services; GroupKey is not implemented. */
  function AggregateCells(rt: Runtime, aggregation: Aggregation, cells: seq<Cell>): Result<string>
  {
    match aggregation
    case CountAll => Success(IntToString(|cells|))
    case CountDistinct => Success(IntToString(DistinctCount(Contents(cells))))
    case ConcatValues => Success(Join(", ", Contents(cells)))
    case Sum => Success(rt.sum(Contents(cells)))
    case Mean => Success(rt.mean(Contents(cells)))
    case GroupKey => Failure(NotImplementedException("Aggregation GroupKey not implemented."))
  }

  /** A non-target column of the output: one aggregated cell per group, numbered in group
      order; the first group whose positions fall outside the field throws. */
  function AggregateColumn(rt: Runtime, aggregation: Aggregation, field: Field, groups: seq<seq<int>>): Result<seq<Cell>>
  {
    if groups == [] then Success([])
    else
      var last := |groups| - 1;
      match AggregateColumn(rt, aggregation, field, groups[..last])
      case Failure(e) => Failure(e)
      case Success(init) =>
        if !AllInRange(groups[last], |field.data|) then Failure(ArgumentException(IndexOutOfRangeMessage))
        else
          match AggregateCells(rt, aggregation, GroupCells(field, groups[last]))
          case Failure(e) => Failure(e)
          case Success(v) => Success(init + [Cell(v, last)])
  }

  /** The target column of the output: the keys, numbered from 0. */
  function KeyColumn(keys: seq<string>): (r: seq<Cell>)
    ensures |r| == |keys|
    ensures forall j :: 0 <= j < |r| ==> r[j] == Cell(keys[j], j)
  {
    seq(|keys|, j requires 0 <= j < |keys| => Cell(keys[j], j))
  }

  /** One output field: the target column (by name) gets the keys, any other the aggregates. */
  function GroupField(rt: Runtime, aggregation: Aggregation, field: Field, target: string, keys: seq<string>, groups: seq<seq<int>>): Result<Field>
  {
    if field.header.name == target then Success(Field(field.header, KeyColumn(keys)))
    else
      match AggregateColumn(rt, aggregation, field, groups)
      case Failure(e) => Failure(e)
      case Success(cells) => Success(Field(field.header, cells))
  }

  /** Every field transformed in order; the first one that throws ends the transformation. */
  function GroupFields(rt: Runtime, aggregation: Aggregation, fields: seq<Field>, target: string, keys: seq<string>, groups: seq<seq<int>>): Result<seq<Field>>
  {
    if fields == [] then Success([])
    else
      var last := |fields| - 1;
      match GroupFields(rt, aggregation, fields[..last], target, keys, groups)
      case Failure(e) => Failure(e)
      case Success(init) =>
        match GroupField(rt, aggregation, fields[last], target, keys, groups)
        case Failure(e) => Failure(e)
        case Success(f) => Success(init + [f])
  }

  /** GroupByTransformation.PerformTransformation. */
  function GroupByResult(rt: Runtime, fields: seq<Field>, target: string, aggregation: Aggregation): Result<seq<Field>>
  {
    match FirstIndexOf(fields, target)
    case None => Failure(ArgumentException("Field to GroupBy not found."))
    case Some(p) =>
      var keys := GroupKeys(fields[p].data);
      GroupFields(rt, aggregation, fields, target, keys, GroupIndexes(fields[p].data, keys))
  }

  // ------------------------------------------------------------------ dispatch and fold

  /** PerformTransformation of each variant. */
  function TransformationResult(rt: Runtime, t: Transformation, fields: seq<Field>): Result<seq<Field>>
  {
    match t
    case EmptyTransformation => Success(fields)
    case DropColumnTransformation(names) => Success(DropFields(fields, names))
    case SortByTransformation(column, direction) => SortByResult(rt, fields, column, direction)
    case GroupByTransformation(_, aggregation, target) => GroupByResult(rt, fields, target, aggregation)
    case FilterByTransformation(condition) => FilterByResult(rt, fields, condition)
  }

  /** Transformator.TransformFields: the transformations applied left to right; the first
      exception escapes. */
  function Pipeline(rt: Runtime, fields: seq<Field>, transformations: seq<Transformation>): Result<seq<Field>>
    decreases |transformations|
  {
    if transformations == [] then Success(fields)
    else
      var step := TransformationResult(rt, transformations[0], fields);
      if step.Failure? then Failure(step.error) else Pipeline(rt, step.value, transformations[1..])
  }

  // ------------------------------------------------------------------ prefix failures

  lemma {:induction false} AggregateColumnPrefixFailure(rt: Runtime, aggregation: Aggregation, field: Field, groups: seq<seq<int>>, k: nat)
    requires k <= |groups| && AggregateColumn(rt, aggregation, field, groups[..k]).Failure?
    ensures AggregateColumn(rt, aggregation, field, groups) == AggregateColumn(rt, aggregation, field, groups[..k])
    decreases |groups|
  {
    if k < |groups| {
      var last := |groups| - 1;
      assert groups[..last][..k] == groups[..k];
      AggregateColumnPrefixFailure(rt, aggregation, field, groups[..last], k);
    } else {
      assert groups[..k] == groups;
    }
  }

  lemma {:induction false} GroupFieldsPrefixFailure(rt: Runtime, aggregation: Aggregation, fields: seq<Field>, target: string, keys: seq<string>, groups: seq<seq<int>>, k: nat)
    requires k <= |fields| && GroupFields(rt, aggregation, fields[..k], target, keys, groups).Failure?
    ensures GroupFields(rt, aggregation, fields, target, keys, groups) == GroupFields(rt, aggregation, fields[..k], target, keys, groups)
    decreases |fields|
  {
    if k < |fields| {
      var last := |fields| - 1;
      assert fields[..last][..k] == fields[..k];
      GroupFieldsPrefixFailure(rt, aggregation, fields[..last], target, keys, groups, k);
    } else {
      assert fields[..k] == fields;
    }
  }

  /** GroupFields on a prefix one field longer: the previous prefix, then the next field. */
  lemma GroupFieldsStep(rt: Runtime, aggregation: Aggregation, fields: seq<Field>, target: string, keys: seq<string>, groups: seq<seq<int>>, i: nat)
    requires i < |fields|
    ensures GroupFields(rt, aggregation, fields[..i + 1], target, keys, groups) ==
            match GroupFields(rt, aggregation, fields[..i], target, keys, groups)
            case Failure(e) => Failure(e)
            case Success(init) =>
              match GroupField(rt, aggregation, fields[i], target, keys, groups)
              case Failure(e) => Failure(e)
              case Success(f) => Success(init + [f])
  {
    assert fields[..i + 1][..i] == fields[..i];
  }

  // ------------------------------------------------------------------ the loops

  /** The aggregation loop over the groups of one non-target field. */
  method AggregateGroups(rt: Runtime, aggregation: Aggregation, current: Field, groups: seq<seq<int>>)
    returns (r: Result<seq<Cell>>)
    ensures r == AggregateColumn(rt, aggregation, current, groups)
  {
    var data: seq<Cell> := [];
    var rowIndex := 0;
    while rowIndex < |groups|
      invariant 0 <= rowIndex <= |groups|
      invariant AggregateColumn(rt, aggregation, current, groups[..rowIndex]) == Success(data)
    {
      var group := groups[rowIndex];
      assert groups[..rowIndex + 1][..rowIndex] == groups[..rowIndex];
      var cells: seq<Cell> := [];
      var k := 0;
      while k < |group|
        invariant 0 <= k <= |group|
        invariant AllInRange(group[..k], |current.data|)
        invariant cells == GroupCells(current, group[..k])
      {
        var index := group[k];
        if index < 0 || index >= |current.data| {
          r := Failure(ArgumentException(IndexOutOfRangeMessage));
          assert AggregateColumn(rt, aggregation, current, groups[..rowIndex + 1]) == r;
          AggregateColumnPrefixFailure(rt, aggregation, current, groups, rowIndex + 1);
          return;
        }
        cells := cells + [current.data[index]];
        k := k + 1;
        assert group[..k] == group[..k - 1] + [index];
      }
      assert group[..k] == group;
      var value := AggregateCells(rt, aggregation, cells);
      if value.Failure? {
        r := Failure(value.error);
        assert AggregateColumn(rt, aggregation, current, groups[..rowIndex + 1]) == r;
        AggregateColumnPrefixFailure(rt, aggregation, current, groups, rowIndex + 1);
        return;
      }
      data := data + [Cell(value.value, rowIndex)];
      rowIndex := rowIndex + 1;
    }
    assert groups[..rowIndex] == groups;
    r := Success(data);
  }

  /** The key column loop of GroupBy: the row numbers count the keys from zero. */
  method BuildKeyColumn(keys: seq<string>) returns (data: seq<Cell>)
    ensures |data| == |keys| && forall j :: 0 <= j < |data| ==> data[j] == Cell(keys[j], j)
  {
    data := [];
    var rowIndex := 0;
    while rowIndex < |keys|
      invariant 0 <= rowIndex <= |keys|
      invariant |data| == rowIndex && forall j :: 0 <= j < rowIndex ==> data[j] == Cell(keys[j], j)
    {
      data := data + [Cell(keys[rowIndex], rowIndex)];
      rowIndex := rowIndex + 1;
    }
  }

  /** GroupByTransformation.PerformTransformation as the repository writes it: one pass over
      the fields, a row counter per output field. */
  method PerformGroupBy(rt: Runtime, fields: seq<Field>, target: string, aggregation: Aggregation)
    returns (r: Result<seq<Field>>)
    ensures r == GroupByResult(rt, fields, target, aggregation)
  {
    var targetIndex := FirstIndexOf(fields, target);
    if targetIndex.None? {
      return Failure(ArgumentException("Field to GroupBy not found."));
    }
    var keys := GroupKeys(fields[targetIndex.value].data);
    var groups := GroupIndexes(fields[targetIndex.value].data, keys);
    var transformedFields: seq<Field> := [];
    var i := 0;
    while i < |fields|
      invariant 0 <= i <= |fields|
      invariant GroupFields(rt, aggregation, fields[..i], target, keys, groups) == Success(transformedFields)
    {
      var current := fields[i];
      GroupFieldsStep(rt, aggregation, fields, target, keys, groups, i);
      if current.header.name == target {
        var data := BuildKeyColumn(keys);
        assert data == KeyColumn(keys);
        transformedFields := transformedFields + [Field(current.header, data)];
      } else {
        var column := AggregateGroups(rt, aggregation, current, groups);
        if column.Failure? {
          r := Failure(column.error);
          GroupFieldsPrefixFailure(rt, aggregation, fields, target, keys, groups, i + 1);
          return;
        }
        transformedFields := transformedFields + [Field(current.header, column.value)];
      }
      i := i + 1;
    }
    assert fields[..i] == fields;
    r := Success(transformedFields);
  }

  /** PerformTransformation, dispatched to the loops of each variant. */
  method PerformTransformation(rt: Runtime, t: Transformation, fields: seq<Field>) returns (r: Result<seq<Field>>)
    ensures r == TransformationResult(rt, t, fields)
  {
    match t
    case EmptyTransformation =>
      r := Success(fields);
    case DropColumnTransformation(names) =>
      r := Success(DropFields(fields, names));
    case SortByTransformation(column, direction) =>
      var source := FirstIndexOf(fields, column);
      if source.None? {
        r := Failure(ArgumentException("Field to SortBy not found."));
      } else {
        var p := source.value;
        var sortedAndIndexes := SortAndGetIndexes(rt, fields[p], direction);
        r := ReArrangeAndSelectByIndex(fields[p := sortedAndIndexes.0], sortedAndIndexes.1, Some(p));
      }
    case GroupByTransformation(_, aggregation, target) =>
      r := PerformGroupBy(rt, fields, target, aggregation);
    case FilterByTransformation(condition) =>
      var source := FirstIndexOf(fields, condition.sourceHeaderName);
      if source.None? {
        r := Failure(ArgumentException("Field to FilterBy not found."));
      } else if condition.relation == InRange {
        r := Failure(NotImplementedException("Relation.InRange not implemented"));
      } else {
        r := ReArrangeAndSelectByIndex(fields, FilterIndexes(rt, fields[source.value], condition), None);
      }
  }

  /** Transformator.TransformFields: each transformation applied to the previous result. */
  method TransformFields(rt: Runtime, fields: seq<Field>, transformations: seq<Transformation>)
    returns (r: Result<seq<Field>>)
    ensures r == Pipeline(rt, fields, transformations)
    ensures transformations == [] ==> r == Success(fields)
  {
    var transformedFields := fields;
    var i := 0;
    while i < |transformations|
      invariant 0 <= i <= |transformations|
      invariant Pipeline(rt, fields, transformations) == Pipeline(rt, transformedFields, transformations[i..])
    {
      assert transformations[i..][1..] == transformations[i + 1..];
      var next := PerformTransformation(rt, transformations[i], transformedFields);
      if next.Failure? {
        return Failure(next.error);
      }
      transformedFields := next.value;
      i := i + 1;
    }
    r := Success(transformedFields);
  }
}
