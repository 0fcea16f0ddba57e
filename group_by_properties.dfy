/** Properties of GroupByTransformation: the keys, the groups they induce, and the shape and
    values of the grouped table. */
module GroupByProperties {
  import opened Wrappers
  import opened Text
  import opened DataTypes
  import opened ListExtensions
  import opened Transformations
  import opened TableTransformations
  import opened TransformationProperties

  // ------------------------------------------------------------------ keys

  /** The keys are distinct, every cell's content is a key, and every key is some cell's content. */
  lemma {:induction false} GroupKeysCover(cells: seq<Cell>)
    ensures Distinct(GroupKeys(cells))
    ensures forall j :: 0 <= j < |cells| ==> cells[j].content in GroupKeys(cells)
    ensures forall a :: 0 <= a < |GroupKeys(cells)| ==>
              exists j :: 0 <= j < |cells| && cells[j].content == GroupKeys(cells)[a]
  {
    if cells != [] {
      var m := |cells| - 1;
      var init := cells[..m];
      GroupKeysCover(init);
      var before := GroupKeys(init);
      var keys := GroupKeys(cells);
      assert forall j :: 0 <= j < m ==> cells[j] == init[j];
      assert forall a :: 0 <= a < |before| ==> keys[a] == before[a];
      forall a | 0 <= a < |keys|
        ensures exists j :: 0 <= j < |cells| && cells[j].content == keys[a]
      {
        if a < |before| {
          var j :| 0 <= j < m && init[j].content == before[a];
          assert cells[j].content == keys[a];
        } else {
          assert cells[m].content == keys[a];
        }
      }
      forall a, b | 0 <= a < b < |keys|
        ensures keys[a] != keys[b]
      {
        if b == |before| {
          assert keys[a] in before && keys[b] !in before;
        }
      }
    }
  }

  /** The position of the first cell holding key, or the length of the column when none does. */
  function FirstOccurrence(cells: seq<Cell>, key: string): (r: nat)
    ensures r <= |cells|
    ensures r < |cells| ==> cells[r].content == key
  {
    if cells == [] then 0
    else
      var m := |cells| - 1;
      var r := FirstOccurrence(cells[..m], key);
      if r < m then r else if cells[m].content == key then m else m + 1
  }

  /** No cell before the first occurrence holds the key. */
  lemma {:induction false} FirstOccurrenceIsFirst(cells: seq<Cell>, key: string, j: nat)
    requires j < |cells| && cells[j].content == key
    ensures FirstOccurrence(cells, key) <= j
  {
    var m := |cells| - 1;
    if j < m {
      FirstOccurrenceIsFirst(cells[..m], key, j);
    }
  }

  /** The keys come in the order of their first occurrences in the column. */
  predicate FirstSeenOrder(cells: seq<Cell>, keys: seq<string>)
  {
    forall a, b :: 0 <= a < b < |keys| ==> FirstOccurrence(cells, keys[a]) < FirstOccurrence(cells, keys[b])
  }

  lemma {:induction false} GroupKeysFirstSeen(cells: seq<Cell>)
    ensures FirstSeenOrder(cells, GroupKeys(cells))
  {
    if cells != [] {
      var m := |cells| - 1;
      var init := cells[..m];
      GroupKeysFirstSeen(init);
      GroupKeysCover(init);
      var before := GroupKeys(init);
      var keys := GroupKeys(cells);
      assert forall j :: 0 <= j < m ==> cells[j] == init[j];
      forall a | 0 <= a < |before|
        ensures FirstOccurrence(cells, before[a]) == FirstOccurrence(init, before[a]) < m
      {
        var j :| 0 <= j < m && init[j].content == before[a];
        FirstOccurrenceIsFirst(init, before[a], j);
      }
      if cells[m].content !in before {
        var x := cells[m].content;
        assert FirstOccurrence(cells, x) == m;
        assert forall a :: 0 <= a < |before| ==> keys[a] == before[a];
      }
    }
  }

  // ------------------------------------------------------------------ groups

  /** The number of rows the keys select, summed over the keys. */
  function GroupSizes(cells: seq<Cell>, keys: seq<string>): nat
  {
    if keys == [] then 0
    else GroupSizes(cells, keys[..|keys| - 1]) + |FilterCells(cells, HasContent(keys[|keys| - 1]))|
  }

  /** The number of positions held by the groups, summed over the groups. */
  function TotalSize(groups: seq<seq<int>>): nat
  {
    if groups == [] then 0 else TotalSize(groups[..|groups| - 1]) + |groups[|groups| - 1]|
  }

  lemma {:induction false} GroupSizesStep(init: seq<Cell>, c: Cell, keys: seq<string>)
    ensures GroupSizes(init + [c], keys) == GroupSizes(init, keys) + multiset(keys)[c.content]
  {
    if keys != [] {
      var m := |keys| - 1;
      assert keys == keys[..m] + [keys[m]];
      assert (init + [c])[..|init|] == init;
      GroupSizesStep(init, c, keys[..m]);
    }
  }

  lemma {:induction false} TotalSizeOfGroups(cells: seq<Cell>, keys: seq<string>)
    ensures TotalSize(GroupIndexes(cells, keys)) == GroupSizes(cells, keys)
  {
    if keys != [] {
      var m := |keys| - 1;
      assert GroupIndexes(cells, keys)[..m] == GroupIndexes(cells, keys[..m]);
      TotalSizeOfGroups(cells, keys[..m]);
    }
  }

  /** Every row falls in exactly one group: the group sizes add up to the number of rows. */
  lemma {:induction false} GroupSizesCoverRows(cells: seq<Cell>)
    ensures GroupSizes(cells, GroupKeys(cells)) == |cells|
  {
    if cells != [] {
      var m := |cells| - 1;
      var init := cells[..m];
      var c := cells[m];
      assert cells == init + [c];
      GroupSizesCoverRows(init);
      GroupKeysCover(init);
      var before := GroupKeys(init);
      GroupSizesStep(init, c, before);
      DistinctCount1(before, c.content);
      if c.content !in before {
        var keys := before + [c.content];
        assert keys[..|before|] == before;
        assert forall j :: 0 <= j < m ==> init[j].content in before;
        FilterKeepsNone(init, HasContent(c.content));
      }
    }
  }

  /** GroupBy's groups partition the target column: each group lists, in row order, exactly
      the rows holding its key; no group is empty; and the group sizes sum to the row count. */
  lemma GroupsPartitionRows(cells: seq<Cell>)
    requires WellIndexed(cells)
    ensures var keys := GroupKeys(cells);
            var groups := GroupIndexes(cells, keys);
            TotalSize(groups) == |cells| &&
            forall a :: 0 <= a < |keys| ==>
              |groups[a]| > 0 && SelectsRows(cells, FilterCells(cells, HasContent(keys[a])), HasContent(keys[a]))
  {
    var keys := GroupKeys(cells);
    GroupSizesCoverRows(cells);
    TotalSizeOfGroups(cells, keys);
    GroupKeysCover(cells);
    forall a | 0 <= a < |keys|
      ensures |GroupIndexes(cells, keys)[a]| > 0
      ensures SelectsRows(cells, FilterCells(cells, HasContent(keys[a])), HasContent(keys[a]))
    {
      FilterSelectsRows(cells, HasContent(keys[a]));
      var j :| 0 <= j < |cells| && cells[j].content == keys[a];
      assert HasContent(keys[a])(cells[j]);
      assert cells[j] in FilterCells(cells, HasContent(keys[a]));
    }
  }

  // ------------------------------------------------------------------ the grouped table

  lemma {:induction false} AggregateColumnValues(rt: Runtime, aggregation: Aggregation, field: Field, groups: seq<seq<int>>)
    requires aggregation != GroupKey
    requires forall j :: 0 <= j < |groups| ==> AllInRange(groups[j], |field.data|)
    ensures var r := AggregateColumn(rt, aggregation, field, groups);
            r.Success? && |r.value| == |groups| &&
            forall j :: 0 <= j < |groups| ==>
              r.value[j] == Cell(AggregateCells(rt, aggregation, GroupCells(field, groups[j])).value, j)
  {
    if groups != [] {
      var last := |groups| - 1;
      AggregateColumnValues(rt, aggregation, field, groups[..last]);
    }
  }

  lemma {:induction false} GroupFieldsValues(rt: Runtime, aggregation: Aggregation, fields: seq<Field>, target: string, keys: seq<string>, groups: seq<seq<int>>)
    requires forall i :: 0 <= i < |fields| ==> GroupField(rt, aggregation, fields[i], target, keys, groups).Success?
    ensures var r := GroupFields(rt, aggregation, fields, target, keys, groups);
            r.Success? && |r.value| == |fields| &&
            forall i :: 0 <= i < |fields| ==> r.value[i] == GroupField(rt, aggregation, fields[i], target, keys, groups).value
  {
    if fields != [] {
      var last := |fields| - 1;
      GroupFieldsValues(rt, aggregation, fields[..last], target, keys, groups);
    }
  }

  /** A column of aggregates: one cell per group, numbered from 0, holding the aggregate of
      the field's cells at the group's positions. */
  predicate AggregatedColumn(rt: Runtime, aggregation: Aggregation, field: Field, groups: seq<seq<int>>, out: seq<Cell>)
  {
    |out| == |groups| &&
    forall j :: 0 <= j < |groups| ==>
      AllInRange(groups[j], |field.data|) &&
      AggregateCells(rt, aggregation, GroupCells(field, groups[j])) == Success(out[j].content) &&
      out[j].index == j
  }

  /** Every group of a well-indexed target column holds positions of that column. */
  lemma GroupsInRange(cells: seq<Cell>)
    requires WellIndexed(cells)
    ensures forall j :: 0 <= j < |GroupKeys(cells)| ==> AllInRange(GroupIndexes(cells, GroupKeys(cells))[j], |cells|)
  {
    var keys := GroupKeys(cells);
    forall j | 0 <= j < |keys|
      ensures AllInRange(GroupIndexes(cells, keys)[j], |cells|)
    {
      FilterSelectsRows(cells, HasContent(keys[j]));
    }
  }

  /** GroupBy on a rectangular table with the target present and an aggregation other than
      GroupKey succeeds and keeps the headers; the target column becomes the keys numbered from
      0, and every other column holds one cell per key, numbered from 0, whose content is the
      aggregate of that column's cells in the key's group. */
  lemma GroupByShape(rt: Runtime, fields: seq<Field>, n: nat, target: string, aggregation: Aggregation)
    requires WellFormed(fields, n) && FirstIndexOf(fields, target).Some? && aggregation != GroupKey
    ensures var p := FirstIndexOf(fields, target).value;
            var keys := GroupKeys(fields[p].data);
            var groups := GroupIndexes(fields[p].data, keys);
            var r := GroupByResult(rt, fields, target, aggregation);
            r.Success? && |r.value| == |fields| &&
            (forall i :: 0 <= i < |fields| ==> r.value[i].header == fields[i].header) &&
            (forall i :: 0 <= i < |fields| && fields[i].header.name == target ==> r.value[i].data == KeyColumn(keys)) &&
            (forall i :: 0 <= i < |fields| && fields[i].header.name != target ==>
               AggregatedColumn(rt, aggregation, fields[i], groups, r.value[i].data))
  {
    var p := FirstIndexOf(fields, target).value;
    var cells := fields[p].data;
    var keys := GroupKeys(cells);
    var groups := GroupIndexes(cells, keys);
    GroupsInRange(cells);
    forall i | 0 <= i < |fields|
      ensures GroupField(rt, aggregation, fields[i], target, keys, groups).Success?
      ensures GroupFieldShape(rt, aggregation, fields[i], target, keys, groups,
                              GroupField(rt, aggregation, fields[i], target, keys, groups).value)
    {
      assert |fields[i].data| == |cells|;
      GroupFieldShaped(rt, aggregation, fields[i], target, keys, groups);
    }
    GroupFieldsValues(rt, aggregation, fields, target, keys, groups);
    var r := GroupByResult(rt, fields, target, aggregation);
    assert r == GroupFields(rt, aggregation, fields, target, keys, groups);
    forall i | 0 <= i < |fields|
      ensures GroupFieldShape(rt, aggregation, fields[i], target, keys, groups, r.value[i])
    {
    }
  }

  lemma GroupFieldShaped(rt: Runtime, aggregation: Aggregation, field: Field, target: string, keys: seq<string>,
                         groups: seq<seq<int>>)
    requires aggregation != GroupKey
    requires forall j :: 0 <= j < |groups| ==> AllInRange(groups[j], |field.data|)
    ensures GroupField(rt, aggregation, field, target, keys, groups).Success?
    ensures GroupFieldShape(rt, aggregation, field, target, keys, groups, GroupField(rt, aggregation, field, target, keys, groups).value)
  {
    if field.header.name != target {
      AggregateColumnValues(rt, aggregation, field, groups);
    }
  }

  /** One output field of GroupBy: the input's header, the keys for the target, the aggregates
      otherwise. */
  predicate GroupFieldShape(rt: Runtime, aggregation: Aggregation, field: Field, target: string, keys: seq<string>,
                            groups: seq<seq<int>>, out: Field)
  {
    out.header == field.header &&
    (field.header.name == target ==> out.data == KeyColumn(keys)) &&
    (field.header.name != target ==> AggregatedColumn(rt, aggregation, field, groups, out.data))
  }

  /** GroupBy with GroupKey throws NotImplementedException as soon as a non-target column has a
      group to aggregate. */
  lemma GroupKeyThrows(rt: Runtime, fields: seq<Field>, n: nat, target: string)
    requires WellFormed(fields, n) && n > 0 && FirstIndexOf(fields, target).Some?
    requires exists i :: 0 <= i < |fields| && fields[i].header.name != target
    ensures GroupByResult(rt, fields, target, GroupKey) == Failure(NotImplementedException("Aggregation GroupKey not implemented."))
  {
    var p := FirstIndexOf(fields, target).value;
    var cells := fields[p].data;
    var keys := GroupKeys(cells);
    var groups := GroupIndexes(cells, keys);
    GroupKeysCover(cells);
    assert cells[0].content in keys;
    GroupsInRange(cells);
    forall k | 0 <= k < |fields| && fields[k].header.name != target
      ensures AggregateColumn(rt, GroupKey, fields[k], groups) == Failure(NotImplementedException("Aggregation GroupKey not implemented."))
    {
      GroupKeyFieldThrows(rt, fields[k], groups, n);
    }
    GroupFieldsFailWith(rt, GroupKey, fields, target, keys, groups, NotImplementedException("Aggregation GroupKey not implemented."));
  }

  /** With GroupKey, a non-target column with at least one in-range group throws. */
  lemma {:induction false} GroupKeyFieldThrows(rt: Runtime, field: Field, groups: seq<seq<int>>, n: nat)
    requires |field.data| == n && |groups| > 0
    requires forall j :: 0 <= j < |groups| ==> AllInRange(groups[j], n)
    ensures AggregateColumn(rt, GroupKey, field, groups) == Failure(NotImplementedException("Aggregation GroupKey not implemented."))
  {
    var last := |groups| - 1;
    if last > 0 {
      GroupKeyFieldThrows(rt, field, groups[..last], n);
    } else {
      assert groups[..last] == [];
    }
  }

  /** When every non-target column throws the same exception, GroupFields throws it if there
      is a non-target column and succeeds otherwise. */
  lemma {:induction false} GroupFieldsFailWith(rt: Runtime, aggregation: Aggregation, fields: seq<Field>, target: string, keys: seq<string>, groups: seq<seq<int>>, e: Error)
    requires forall k :: 0 <= k < |fields| && fields[k].header.name != target ==>
               AggregateColumn(rt, aggregation, fields[k], groups) == Failure(e)
    ensures (exists k :: 0 <= k < |fields| && fields[k].header.name != target) ==>
              GroupFields(rt, aggregation, fields, target, keys, groups) == Failure(e)
    ensures (forall k :: 0 <= k < |fields| ==> fields[k].header.name == target) ==>
              GroupFields(rt, aggregation, fields, target, keys, groups).Success?
  {
    if fields != [] {
      var last := |fields| - 1;
      var init := fields[..last];
      assert forall k :: 0 <= k < last ==> init[k] == fields[k];
      GroupFieldsFailWith(rt, aggregation, init, target, keys, groups, e);
      if exists k :: 0 <= k < last && init[k].header.name != target {
        assert GroupFields(rt, aggregation, init, target, keys, groups) == Failure(e);
      }
    }
  }

  // ------------------------------------------------------------------ aggregate values

  /** The sum of a column's contents read as Int32 (a content that does not parse counts 0). */
  function SumOfCounts(cells: seq<Cell>): int
  {
    if cells == [] then 0
    else
      var c := ParseInt(cells[|cells| - 1].content);
      SumOfCounts(cells[..|cells| - 1]) + (if c.Some? then c.value else 0)
  }

  lemma {:induction false} SumOfCountsIsTotal(out: seq<Cell>, groups: seq<seq<int>>)
    requires |out| == |groups| && forall j :: 0 <= j < |groups| ==> ParseInt(out[j].content) == Some(|groups[j]|)
    ensures SumOfCounts(out) == TotalSize(groups)
  {
    if out != [] {
      var m := |out| - 1;
      SumOfCountsIsTotal(out[..m], groups[..m]);
    }
  }

  /** With CountAll, the counts in any non-target column add up to the number of rows. */
  lemma CountAllSumsToRows(rt: Runtime, fields: seq<Field>, n: nat, target: string, i: nat)
    requires WellFormed(fields, n) && FirstIndexOf(fields, target).Some? && n <= Int32Max
    requires i < |fields| && fields[i].header.name != target
    ensures var r := GroupByResult(rt, fields, target, CountAll);
            r.Success? && |r.value| == |fields| && SumOfCounts(r.value[i].data) == n
  {
    var p := FirstIndexOf(fields, target).value;
    var cells := fields[p].data;
    var keys := GroupKeys(cells);
    var groups := GroupIndexes(cells, keys);
    GroupByShape(rt, fields, n, target, CountAll);
    var out := GroupByResult(rt, fields, target, CountAll).value[i].data;
    assert AggregatedColumn(rt, CountAll, fields[i], groups, out);
    forall j | 0 <= j < |groups|
      ensures ParseInt(out[j].content) == Some(|groups[j]|)
    {
      assert out[j].content == IntToString(|GroupCells(fields[i], groups[j])|);
      ParseIntOfIntToString(|groups[j]|);
    }
    SumOfCountsIsTotal(out, groups);
    GroupsPartitionRows(cells);
  }

  lemma {:induction false} DistinctAtMostLength(s: seq<string>)
    ensures DistinctCount(s) <= |s|
    ensures s != [] ==> DistinctCount(s) >= 1
  {
    if s != [] {
      var m := |s| - 1;
      DistinctAtMostLength(s[..m]);
      assert (set x | x in s) == (set x | x in s[..m]) + {s[m]} by {
        assert s == s[..m] + [s[m]];
      }
      assert s[m] in (set x | x in s);
    }
  }

  /** The CountDistinct of a group is at least 1 when the group is not empty and never exceeds
      its CountAll. */
  lemma CountDistinctAtMostCountAll(rt: Runtime, cells: seq<Cell>)
    requires |cells| <= Int32Max
    ensures var distinct := ParseInt(AggregateCells(rt, CountDistinct, cells).value);
            var all := ParseInt(AggregateCells(rt, CountAll, cells).value);
            distinct.Some? && all.Some? && distinct.value <= all.value == |cells| &&
            (|cells| > 0 ==> distinct.value >= 1)
  {
    var contents := Contents(cells);
    DistinctAtMostLength(contents);
    ParseIntOfIntToString(|cells|);
    ParseIntOfIntToString(DistinctCount(contents));
  }

  // ------------------------------------------------------------------ schema

  lemma {:induction false} GroupFieldsHeaders(rt: Runtime, aggregation: Aggregation, fields: seq<Field>, target: string, keys: seq<string>, groups: seq<seq<int>>)
    requires GroupFields(rt, aggregation, fields, target, keys, groups).Success?
    ensures Schema(GroupFields(rt, aggregation, fields, target, keys, groups).value) == Schema(fields)
  {
    if fields != [] {
      var last := |fields| - 1;
      GroupFieldsHeaders(rt, aggregation, fields[..last], target, keys, groups);
    }
  }

  /** A successful GroupBy keeps every header, names and types alike. */
  lemma GroupByKeepsHeaders(rt: Runtime, fields: seq<Field>, target: string, aggregation: Aggregation)
    requires GroupByResult(rt, fields, target, aggregation).Success?
    ensures Schema(GroupByResult(rt, fields, target, aggregation).value) == Schema(fields)
  {
    var p := FirstIndexOf(fields, target).value;
    var keys := GroupKeys(fields[p].data);
    GroupFieldsHeaders(rt, aggregation, fields, target, keys, GroupIndexes(fields[p].data, keys));
  }

  /** For GroupBy the look-ahead schema is not the schema of the table the transformation
      produces: Preprocess retypes every column, the target included, to Number (or drops every
      column for ConcatValues), while the grouped table keeps all headers unchanged. */
  lemma GroupByPreprocessDiverges(rt: Runtime, fields: seq<Field>, t: Transformation)
    requires t.GroupByTransformation? && t.groupAggregation != GroupKey
    requires GroupByResult(rt, fields, t.targetHeaderName, t.groupAggregation).Success?
    requires exists i :: 0 <= i < |fields| && fields[i].header.fieldType != Number
    ensures var actual := Schema(GroupByResult(rt, fields, t.targetHeaderName, t.groupAggregation).value);
            Preprocess(t, Schema(fields)).Success? && Preprocess(t, Schema(fields)).value != actual
  {
    GroupByKeepsHeaders(rt, fields, t.targetHeaderName, t.groupAggregation);
    var i :| 0 <= i < |fields| && fields[i].header.fieldType != Number;
    var predicted := Preprocess(t, Schema(fields)).value;
    if t.groupAggregation != ConcatValues {
      assert predicted[i].header.fieldType == Number;
    }
  }
}
