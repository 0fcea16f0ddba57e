/** What the transformations promise about a table: row counts, row order, renumbering, the
    row permutation of SortBy, the selection of FilterBy, the groups of GroupBy, the schema
    Preprocess predicts, and the fold of a transformation list. */
module TransformationProperties {
  import opened Wrappers
  import opened Text
  import opened DataTypes
  import opened ListExtensions
  import opened Transformations
  import opened TableTransformations

  /** n distinct positions below n. */
  predicate IsPermutation(s: seq<int>, n: nat)
  {
    |s| == n && AllInRange(s, n) && forall a, b :: 0 <= a < b < |s| ==> s[a] != s[b]
  }

  predicate Distinct<T(==)>(s: seq<T>)
  {
    forall a, b :: 0 <= a < b < |s| ==> s[a] != s[b]
  }

  // ------------------------------------------------------------------ filters

  /** kept lists, in increasing row order, exactly the cells of the column that keep holds of;
      each kept cell's Index is its row. */
  predicate SelectsRows(cells: seq<Cell>, kept: seq<Cell>, keep: Cell -> bool)
  {
    (forall j :: 0 <= j < |kept| ==> 0 <= kept[j].index < |cells| && cells[kept[j].index] == kept[j] && keep(kept[j])) &&
    (forall j, k :: 0 <= j < k < |kept| ==> kept[j].index < kept[k].index) &&
    (forall row :: 0 <= row < |cells| && keep(cells[row]) ==> cells[row] in kept)
  }

  /** Over cells numbered by position, a filter keeps, in row order, exactly the cells the
      predicate holds of. */
  lemma {:induction false} FilterSelectsRows(cells: seq<Cell>, keep: Cell -> bool)
    requires WellIndexed(cells)
    ensures SelectsRows(cells, FilterCells(cells, keep), keep)
  {
    if cells != [] {
      var m := |cells| - 1;
      var init := cells[..m];
      assert WellIndexed(init);
      FilterSelectsRows(init, keep);
      var keptInit := FilterCells(init, keep);
      var kept := FilterCells(cells, keep);
      if keep(cells[m]) {
        assert kept == keptInit + [cells[m]];
      } else {
        assert kept == keptInit;
      }
      assert forall j :: 0 <= j < |keptInit| ==> kept[j] == keptInit[j];
      forall j | 0 <= j < |kept|
        ensures 0 <= kept[j].index < |cells| && cells[kept[j].index] == kept[j] && keep(kept[j])
      {
        if j < |keptInit| {
          assert init[keptInit[j].index] == keptInit[j];
        }
      }
      forall j, k | 0 <= j < k < |kept|
        ensures kept[j].index < kept[k].index
      {
        if k < |keptInit| {
          assert keptInit[j].index < keptInit[k].index;
        } else {
          assert keptInit[j].index < m;
        }
      }
      forall row | 0 <= row < |cells| && keep(cells[row])
        ensures cells[row] in kept
      {
        if row < m {
          assert init[row] == cells[row];
        }
      }
    }
  }

  /** Two complementary filters split the cells between them. */
  lemma {:induction false} FilterComplement(cells: seq<Cell>, keep: Cell -> bool, other: Cell -> bool)
    requires forall c :: keep(c) != other(c)
    ensures |FilterCells(cells, keep)| + |FilterCells(cells, other)| == |cells|
  {
    if cells != [] {
      FilterComplement(cells[..|cells| - 1], keep, other);
    }
  }

  // ------------------------------------------------------------------ re-slicing

  /** Re-slicing a rectangular table by in-range positions succeeds and leaves a rectangular
      table of that many rows, numbered 0..k-1, whose row j is the input's row indexes[j]
      (the ignored column keeps its own order). */
  lemma SelectRowsRectangular(fields: seq<Field>, n: nat, indexes: seq<int>, ignore: Option<nat>)
    requires forall i :: 0 <= i < |fields| ==> |fields[i].data| == n
    requires AllInRange(indexes, n)
    requires ignore.Some? ==> |indexes| == n
    ensures SelectRows(fields, indexes, ignore).Success?
    ensures var out := SelectRows(fields, indexes, ignore).value;
            |out| == |fields| && WellFormed(out, |indexes|) &&
            (forall i :: 0 <= i < |out| ==> out[i].header == fields[i].header) &&
            (forall i, j :: 0 <= i < |out| && 0 <= j < |indexes| ==>
               out[i].data[j].content ==
                 (if ignore == Some(i) then fields[i].data[j].content else fields[i].data[indexes[j]].content))
  {
    var out := SelectRows(fields, indexes, ignore).value;
    forall i | 0 <= i < |out|
      ensures |out[i].data| == |indexes| && WellIndexed(out[i].data)
      ensures out[i].header == fields[i].header
      ensures forall j :: 0 <= j < |indexes| ==>
                out[i].data[j].content ==
                  (if ignore == Some(i) then fields[i].data[j].content else fields[i].data[indexes[j]].content)
    {
      assert SelectField(fields[i], indexes, ignore == Some(i)) == Success(out[i]);
    }
  }

  // ------------------------------------------------------------------ SortBy

  lemma {:induction false} DistinctCount1<T>(s: seq<T>, x: T)
    requires Distinct(s)
    ensures multiset(s)[x] <= 1
  {
    if s != [] {
      var m := |s| - 1;
      assert s == s[..m] + [s[m]];
      assert Distinct(s[..m]);
      DistinctCount1(s[..m], x);
      if x == s[m] {
        assert x !in s[..m];
      }
    }
  }

  lemma SameMultisetDistinct(s: seq<Cell>, t: seq<Cell>)
    requires Distinct(s) && multiset(s) == multiset(t)
    ensures Distinct(t)
  {
    forall a, b | 0 <= a < b < |t|
      ensures t[a] != t[b]
    {
      if t[a] == t[b] {
        assert t == t[..b] + t[b..];
        assert t[a] in t[..b] && t[b] in t[b..];
        assert multiset(t)[t[a]] == multiset(t[..b])[t[a]] + multiset(t[b..])[t[a]];
        DistinctCount1(s, t[a]);
        assert false;
      }
    }
  }

  /** The comparer only reads the contents of the cells. */
  lemma ComparerReadsContents(rt: Runtime, fieldType: FieldDataType, direction: SortDirection, a: Cell, b: Cell, a': Cell, b': Cell)
    requires a.content == a'.content && b.content == b'.content
    ensures Comparer(rt, fieldType, direction)(a, b) == Comparer(rt, fieldType, direction)(a', b')
  {
  }

  /** The sorted column holds the column's cells, and each sorted cell's Index names the row it
      came from: the positions form a permutation, and the cell at position j is the input's
      cell at row order[j]. */
  lemma SortedColumnOrigins(rt: Runtime, field: Field, n: nat, direction: SortDirection)
    requires |field.data| == n && WellIndexed(field.data)
    ensures var sorted := SortAndGetIndexes(rt, field, direction);
            |sorted.0.data| == n && IsPermutation(sorted.1, n) &&
            forall j :: 0 <= j < n ==> field.data[sorted.1[j]] == sorted.0.data[j]
  {
    var data := field.data;
    var sorted := SortAndGetIndexes(rt, field, direction).0.data;
    var order := SortAndGetIndexes(rt, field, direction).1;
    assert |sorted| == n by {
      assert |multiset(sorted)| == |multiset(data)|;
    }
    forall j | 0 <= j < n
      ensures 0 <= order[j] < n && data[order[j]] == sorted[j]
    {
      assert sorted[j] in multiset(data);
      var k :| 0 <= k < n && data[k] == sorted[j];
      assert order[j] == sorted[j].index == k;
    }
    assert Distinct(data) by {
      forall a, b | 0 <= a < b < |data|
        ensures data[a] != data[b]
      {
        assert data[a].index == a && data[b].index == b;
      }
    }
    SameMultisetDistinct(data, sorted);
  }

  /** SortBy on a rectangular table: the result is rectangular with the same headers, renumbered
      0..n-1, and its rows are the input rows in the order of a permutation, the same for every
      column, including the sorted one. */
  lemma SortByRowPermutation(rt: Runtime, fields: seq<Field>, n: nat, column: string, direction: SortDirection)
    requires WellFormed(fields, n) && FirstIndexOf(fields, column).Some?
    ensures var p := FirstIndexOf(fields, column).value;
            var order := SortAndGetIndexes(rt, fields[p], direction).1;
            var r := SortByResult(rt, fields, column, direction);
            r.Success? && |r.value| == |fields| && WellFormed(r.value, n) && IsPermutation(order, n) &&
            (forall i :: 0 <= i < |fields| ==> r.value[i].header == fields[i].header) &&
            (forall i, j :: 0 <= i < |fields| && 0 <= j < n ==>
               r.value[i].data[j].content == fields[i].data[order[j]].content)
  {
    var p := FirstIndexOf(fields, column).value;
    var sortedAndIndexes := SortAndGetIndexes(rt, fields[p], direction);
    var order := sortedAndIndexes.1;
    SortedColumnOrigins(rt, fields[p], n, direction);
    var table := fields[p := sortedAndIndexes.0];
    assert forall i :: 0 <= i < |table| ==> |table[i].data| == n;
    SelectRowsRectangular(table, n, order, Some(p));
    assert SortByResult(rt, fields, column, direction) == SelectRows(table, order, Some(p));
    SortedRowsFollowOrder(fields, n, p, sortedAndIndexes.0, order, SelectRows(table, order, Some(p)).value);
  }

  /** The re-slice of the table whose column p was sorted: every column, the sorted one
      included, holds the input's rows in the sorted order. */
  lemma SortedRowsFollowOrder(fields: seq<Field>, n: nat, p: nat, sorted: Field, order: seq<int>, out: seq<Field>)
    requires p < |fields| && |order| == n && |out| == |fields| && |sorted.data| == n
    requires forall i :: 0 <= i < |fields| ==> |fields[i].data| == n
    requires forall i :: 0 <= i < |out| ==> |out[i].data| == n
    requires forall j :: 0 <= j < n ==> 0 <= order[j] < n && fields[p].data[order[j]] == sorted.data[j]
    requires forall i :: 0 <= i < |out| ==> out[i].header == fields[p := sorted][i].header
    requires forall i, j :: 0 <= i < |out| && 0 <= j < n ==>
               out[i].data[j].content ==
                 (if Some(p) == Some(i) then fields[p := sorted][i].data[j].content
                  else fields[p := sorted][i].data[order[j]].content)
    ensures forall i, j :: 0 <= i < |fields| && 0 <= j < n ==>
              out[i].data[j].content == fields[i].data[order[j]].content
  {
    forall i, j | 0 <= i < |fields| && 0 <= j < n
      ensures out[i].data[j].content == fields[i].data[order[j]].content
    {
      if i == p {
        assert out[i].data[j].content == sorted.data[j].content;
      } else {
        assert fields[p := sorted][i] == fields[i];
      }
    }
  }

  /** When every cell of a Bool, Number or Date column parses, SortBy leaves that column ordered
      by the comparer (ascending, or descending with the arguments swapped). */
  lemma SortByOrdersColumn(rt: Runtime, fields: seq<Field>, column: string, direction: SortDirection)
    requires FirstIndexOf(fields, column).Some?
    requires var p := FirstIndexOf(fields, column).value;
             fields[p].header.fieldType != String &&
             forall c :: c in fields[p].data ==> Parses(rt, fields[p].header.fieldType, c.content)
    requires SortByResult(rt, fields, column, direction).Success?
    ensures var p := FirstIndexOf(fields, column).value;
            Ordered(Comparer(rt, fields[p].header.fieldType, direction), SortByResult(rt, fields, column, direction).value[p].data)
  {
    var p := FirstIndexOf(fields, column).value;
    var fieldType := fields[p].header.fieldType;
    var cmp := Comparer(rt, fieldType, direction);
    var data := fields[p].data;
    var sortedColumn := SortAndGetIndexes(rt, fields[p], direction).0;
    var sorted := sortedColumn.data;
    ParsedCellsComparable(rt, fieldType, direction, multiset(data));
    SortCellsOrdered(cmp, data);
    var order := SortAndGetIndexes(rt, fields[p], direction).1;
    var table := fields[p := sortedColumn];
    var out := SortByResult(rt, fields, column, direction).value;
    assert SelectField(table[p], order, true) == Success(out[p]);
    var column' := out[p].data;
    assert column' == Reindexed(sorted);
    forall i | 0 <= i < |column'| - 1
      ensures cmp(column'[i], column'[i + 1]) <= 0
    {
      ComparerReadsContents(rt, fieldType, direction, column'[i], column'[i + 1], sorted[i], sorted[i + 1]);
    }
  }

  // ------------------------------------------------------------------ lookups by name

  lemma {:induction false} FirstIndexOfSameNames(fields: seq<Field>, other: seq<Field>, name: string)
    requires |fields| == |other| && forall i :: 0 <= i < |fields| ==> fields[i].header == other[i].header
    ensures FirstIndexOf(fields, name) == FirstIndexOf(other, name)
  {
    if fields != [] && fields[0].header.name != name {
      FirstIndexOfSameNames(fields[1..], other[1..], name);
    }
  }

  /** SortBy, FilterBy and GroupBy throw ArgumentException when no column has the name. */
  lemma MissingColumnThrows(rt: Runtime, fields: seq<Field>, name: string, direction: SortDirection, relation: Relation, literal: string, aggregation: Aggregation)
    requires forall i :: 0 <= i < |fields| ==> fields[i].header.name != name
    ensures SortByResult(rt, fields, name, direction) == Failure(ArgumentException("Field to SortBy not found."))
    ensures FilterByResult(rt, fields, FilterCondition(relation, name, literal)) == Failure(ArgumentException("Field to FilterBy not found."))
    ensures GroupByResult(rt, fields, name, aggregation) == Failure(ArgumentException("Field to GroupBy not found."))
  {
  }

  // ------------------------------------------------------------------ FilterBy

  /** FilterBy on a rectangular table with the column present and a relation other than InRange
      succeeds; the result is rectangular with the same headers, one row per matching source
      cell in row order, row j being the input row of the j-th match. InRange throws
      NotImplementedException. */
  lemma FilterByRows(rt: Runtime, fields: seq<Field>, n: nat, condition: FilterCondition)
    requires WellFormed(fields, n) && FirstIndexOf(fields, condition.sourceHeaderName).Some?
    ensures condition.relation == InRange ==>
              FilterByResult(rt, fields, condition) == Failure(NotImplementedException("Relation.InRange not implemented"))
    ensures condition.relation != InRange ==>
              var p := FirstIndexOf(fields, condition.sourceHeaderName).value;
              var keep := Matches(rt, fields[p].header.fieldType, condition.relation, condition.condition);
              var kept := FilterCells(fields[p].data, keep);
              var r := FilterByResult(rt, fields, condition);
              r.Success? && |r.value| == |fields| && WellFormed(r.value, |kept|) &&
              SelectsRows(fields[p].data, kept, keep) &&
              (forall i :: 0 <= i < |fields| ==> r.value[i].header == fields[i].header) &&
              (forall i, j :: 0 <= i < |fields| && 0 <= j < |kept| ==>
                 r.value[i].data[j].content == fields[i].data[kept[j].index].content)
  {
    if condition.relation != InRange {
      var p := FirstIndexOf(fields, condition.sourceHeaderName).value;
      var keep := Matches(rt, fields[p].header.fieldType, condition.relation, condition.condition);
      var kept := FilterCells(fields[p].data, keep);
      FilterSelectsRows(fields[p].data, keep);
      var indexes := GetIndexes(kept);
      assert AllInRange(indexes, n);
      SelectRowsRectangular(fields, n, indexes, None);
    }
  }

  /** Over a column numbered by position, the positions a filter selects are rows of it. */
  lemma FilterIndexesInRange(rt: Runtime, source: Field, condition: FilterCondition)
    requires WellIndexed(source.data)
    ensures AllInRange(FilterIndexes(rt, source, condition), |source.data|)
  {
    FilterSelectsRows(source.data, Matches(rt, source.header.fieldType, condition.relation, condition.condition));
  }

  /** Equals and NotEquals with the same literal split the rows of the table between them. */
  lemma EqualsNotEqualsSplitRows(rt: Runtime, fields: seq<Field>, n: nat, column: string, literal: string)
    requires WellFormed(fields, n) && FirstIndexOf(fields, column).Some?
    ensures var eq := FilterByResult(rt, fields, FilterCondition(Equals, column, literal));
            var ne := FilterByResult(rt, fields, FilterCondition(NotEquals, column, literal));
            eq.Success? && ne.Success? && |eq.value| == |ne.value| == |fields| &&
            forall i :: 0 <= i < |fields| ==> |eq.value[i].data| + |ne.value[i].data| == n
  {
    var p := FirstIndexOf(fields, column).value;
    var t := fields[p].header.fieldType;
    FilterByRows(rt, fields, n, FilterCondition(Equals, column, literal));
    FilterByRows(rt, fields, n, FilterCondition(NotEquals, column, literal));
    FilterComplement(fields[p].data, Matches(rt, t, Equals, literal), Matches(rt, t, NotEquals, literal));
  }

  /** The comparison with a literal only reads the cell's content. */
  lemma CompareReadsContent(rt: Runtime, a: Cell, b: Cell, fieldType: FieldDataType, other: Option<string>)
    requires a.content == b.content
    ensures CompareTo_TypeDependent(rt, a, fieldType, other) == CompareTo_TypeDependent(rt, b, fieldType, other)
  {
  }

  /** After filtering by Equals, no cell of the filtered column differs from the literal. */
  lemma EqualsLeavesOnlyMatches(rt: Runtime, fields: seq<Field>, n: nat, column: string, literal: string)
    requires WellFormed(fields, n) && FirstIndexOf(fields, column).Some?
    ensures var p := FirstIndexOf(fields, column).value;
            var mid := FilterByResult(rt, fields, FilterCondition(Equals, column, literal));
            mid.Success? && |mid.value| == |fields| && FirstIndexOf(mid.value, column) == Some(p) &&
            mid.value[p].header == fields[p].header &&
            WellFormed(mid.value, |mid.value[p].data|) &&
            forall j :: 0 <= j < |mid.value[p].data| ==>
              !Matches(rt, fields[p].header.fieldType, NotEquals, literal)(mid.value[p].data[j])
  {
    var p := FirstIndexOf(fields, column).value;
    var t := fields[p].header.fieldType;
    var keep := Matches(rt, t, Equals, literal);
    var kept := FilterCells(fields[p].data, keep);
    FilterByRows(rt, fields, n, FilterCondition(Equals, column, literal));
    var mid := FilterByResult(rt, fields, FilterCondition(Equals, column, literal)).value;
    FirstIndexOfSameNames(fields, mid, column);
    forall j | 0 <= j < |mid[p].data|
      ensures !Matches(rt, t, NotEquals, literal)(mid[p].data[j])
    {
      assert mid[p].data[j].content == fields[p].data[kept[j].index].content == kept[j].content;
      assert keep(kept[j]);
      CompareReadsContent(rt, mid[p].data[j], kept[j], t, Some(literal));
    }
  }

  /** A filter that no cell satisfies keeps nothing. */
  lemma {:induction false} FilterKeepsNone(cells: seq<Cell>, keep: Cell -> bool)
    requires forall j :: 0 <= j < |cells| ==> !keep(cells[j])
    ensures FilterCells(cells, keep) == []
  {
    if cells != [] {
      FilterKeepsNone(cells[..|cells| - 1], keep);
    }
  }

  /** A filter that no row of the table satisfies empties every column and keeps the headers. */
  lemma FilterWithoutMatchesEmpties(rt: Runtime, fields: seq<Field>, n: nat, condition: FilterCondition)
    requires WellFormed(fields, n) && FirstIndexOf(fields, condition.sourceHeaderName).Some? && condition.relation != InRange
    requires var p := FirstIndexOf(fields, condition.sourceHeaderName).value;
             forall j :: 0 <= j < n ==>
               !Matches(rt, fields[p].header.fieldType, condition.relation, condition.condition)(fields[p].data[j])
    ensures var r := FilterByResult(rt, fields, condition);
            r.Success? && |r.value| == |fields| &&
            forall i :: 0 <= i < |fields| ==> r.value[i].header == fields[i].header && r.value[i].data == []
  {
    var p := FirstIndexOf(fields, condition.sourceHeaderName).value;
    FilterKeepsNone(fields[p].data, Matches(rt, fields[p].header.fieldType, condition.relation, condition.condition));
    SelectRowsRectangular(fields, n, [], None);
  }

  /** Filtering by Equals and then, on its result, by NotEquals with the same column and literal
      leaves every column empty. */
  lemma EqualsThenNotEqualsIsEmpty(rt: Runtime, fields: seq<Field>, n: nat, column: string, literal: string)
    requires WellFormed(fields, n) && FirstIndexOf(fields, column).Some?
    ensures FilterByResult(rt, fields, FilterCondition(Equals, column, literal)).Success?
    ensures var mid := FilterByResult(rt, fields, FilterCondition(Equals, column, literal)).value;
            var last := FilterByResult(rt, mid, FilterCondition(NotEquals, column, literal));
            last.Success? && |last.value| == |fields| && forall i :: 0 <= i < |fields| ==> last.value[i].data == []
  {
    EqualsLeavesOnlyMatches(rt, fields, n, column, literal);
    var mid := FilterByResult(rt, fields, FilterCondition(Equals, column, literal)).value;
    var p := FirstIndexOf(fields, column).value;
    FilterWithoutMatchesEmpties(rt, mid, |mid[p].data|, FilterCondition(NotEquals, column, literal));
  }

  /** A two-step pipeline is the second transformation applied to the first one's result. */
  lemma PipelineOfTwo(rt: Runtime, fields: seq<Field>, a: Transformation, b: Transformation)
    ensures Pipeline(rt, fields, [a, b]) ==
              (var r := TransformationResult(rt, a, fields); if r.Failure? then r else TransformationResult(rt, b, r.value))
  {
    var r := TransformationResult(rt, a, fields);
    assert [a, b][1..] == [b];
    if r.Success? {
      var r2 := TransformationResult(rt, b, r.value);
      if r2.Success? {
        assert Pipeline(rt, r.value, [b]) == Pipeline(rt, r2.value, []);
      }
    }
  }

  // ------------------------------------------------------------------ the pipeline

  /** Running a + b is running a and then, on its result, b; the first exception stops both. */
  lemma {:induction false} PipelineAppend(rt: Runtime, fields: seq<Field>, a: seq<Transformation>, b: seq<Transformation>)
    ensures Pipeline(rt, fields, a + b) ==
              (var r := Pipeline(rt, fields, a); if r.Failure? then r else Pipeline(rt, r.value, b))
    decreases |a|
  {
    if a == [] {
      assert a + b == b;
    } else {
      assert (a + b)[0] == a[0] && (a + b)[1..] == a[1..] + b;
      var step := TransformationResult(rt, a[0], fields);
      if step.Success? {
        PipelineAppend(rt, step.value, a[1..], b);
      }
    }
  }

  // ------------------------------------------------------------------ look-ahead schema

  lemma SelectRowsHeaders(fields: seq<Field>, indexes: seq<int>, ignore: Option<nat>)
    requires SelectRows(fields, indexes, ignore).Success?
    ensures Schema(SelectRows(fields, indexes, ignore).value) == Schema(fields)
  {
    var out := SelectRows(fields, indexes, ignore).value;
    forall i | 0 <= i < |fields|
      ensures out[i].header == fields[i].header
    {
      assert SelectField(fields[i], indexes, ignore == Some(i)) == Success(out[i]);
    }
  }

  /** For every transformation but GroupBy, Preprocess predicts exactly the schema of the table
      the transformation produces whenever it succeeds. */
  lemma PreprocessPredictsSchema(rt: Runtime, t: Transformation, fields: seq<Field>)
    requires !t.GroupByTransformation? && TransformationResult(rt, t, fields).Success?
    ensures Preprocess(t, Schema(fields)) == Success(Schema(TransformationResult(rt, t, fields).value))
  {
    match t
    case EmptyTransformation =>
    case DropColumnTransformation(names) =>
      DropSchemaOfFields(fields, names);
    case SortByTransformation(column, direction) =>
      SortByPredictsSchema(rt, t, fields);
    case FilterByTransformation(condition) =>
      FilterByPredictsSchema(rt, t, fields);
  }

  /** PreprocessPredictsSchema for SortBy: the sorted table keeps every header. */
  lemma SortByPredictsSchema(rt: Runtime, t: Transformation, fields: seq<Field>)
    requires t.SortByTransformation? && TransformationResult(rt, t, fields).Success?
    ensures Preprocess(t, Schema(fields)) == Success(Schema(TransformationResult(rt, t, fields).value))
  {
    var p := FirstIndexOf(fields, t.sortByHeaderName).value;
    var sorted := SortAndGetIndexes(rt, fields[p], t.direction);
    assert TransformationResult(rt, t, fields) == SelectRows(fields[p := sorted.0], sorted.1, Some(p));
    SelectRowsHeaders(fields[p := sorted.0], sorted.1, Some(p));
    assert Schema(fields[p := sorted.0]) == Schema(fields);
  }

  /** PreprocessPredictsSchema for FilterBy: the filtered table keeps every header. */
  lemma FilterByPredictsSchema(rt: Runtime, t: Transformation, fields: seq<Field>)
    requires t.FilterByTransformation? && TransformationResult(rt, t, fields).Success?
    ensures Preprocess(t, Schema(fields)) == Success(Schema(TransformationResult(rt, t, fields).value))
  {
    var p := FirstIndexOf(fields, t.filterCondition.sourceHeaderName).value;
    assert TransformationResult(rt, t, fields) == SelectRows(fields, FilterIndexes(rt, fields[p], t.filterCondition), None);
    SelectRowsHeaders(fields, FilterIndexes(rt, fields[p], t.filterCondition), None);
  }
}
