/** ListExtensions: reading the row positions of cells, sorting a column, and re-slicing every
    column of a table by a sequence of row positions. */
module ListExtensions {
  import opened Wrappers
  import opened DataTypes

  /** The message of the ArgumentOutOfRangeException that List<T>'s indexer throws. */
  const IndexOutOfRangeMessage: string :=
    "Index was out of range. Must be non-negative and less than the size of the collection. (Parameter 'index')"

  /** GetIndexes: the Index of every cell, in order. */
  function GetIndexes(cells: seq<Cell>): (r: seq<int>)
    ensures |r| == |cells|
    ensures forall j :: 0 <= j < |r| ==> r[j] == cells[j].index
  {
    seq(|cells|, j requires 0 <= j < |cells| => cells[j].index)
  }

  /** The comparison the sort uses: ascending compares a with b, descending b with a. */
  function SortComparer(rt: Runtime, fieldType: FieldDataType, direction: SortDirection, a: Cell, b: Cell): int
  {
    match direction
    case Ascending => CompareToTypeDependent(rt, a, fieldType, Some(b))
    case Descending => CompareToTypeDependent(rt, b, fieldType, Some(a))
  }

  /** The comparer as a value, for the sort. */
  function Comparer(rt: Runtime, fieldType: FieldDataType, direction: SortDirection): (Cell, Cell) -> int
  {
    (a: Cell, b: Cell) => SortComparer(rt, fieldType, direction, a, b)
  }

  /** Inserts c before the first element it does not compare above. */
  function InsertCell(cmp: (Cell, Cell) -> int, c: Cell, s: seq<Cell>): (r: seq<Cell>)
    ensures multiset(r) == multiset(s) + multiset{c}
    ensures |r| == |s| + 1
  {
    if s == [] then [c]
    else if cmp(c, s[0]) <= 0 then [c] + s
    else
      assert s == [s[0]] + s[1..];
      [s[0]] + InsertCell(cmp, c, s[1..])
  }

  /** The sort List<Cell>.Sort performs, as an insertion sort; the order it gives to cells that
      compare equal is not the runtime's. */
  function SortCells(cmp: (Cell, Cell) -> int, cells: seq<Cell>): (r: seq<Cell>)
    ensures multiset(r) == multiset(cells)
    ensures |r| == |cells|
  {
    if cells == [] then []
    else
      assert cells == [cells[0]] + cells[1..];
      InsertCell(cmp, cells[0], SortCells(cmp, cells[1..]))
  }

  /** Every cell compares at most 0 against its successor. */
  ghost predicate Ordered(cmp: (Cell, Cell) -> int, s: seq<Cell>)
  {
    forall i :: 0 <= i < |s| - 1 ==> cmp(s[i], s[i + 1]) <= 0
  }

  /** Of any two cells of m, one compares at most 0 against the other. */
  ghost predicate Comparable(cmp: (Cell, Cell) -> int, m: multiset<Cell>)
  {
    forall a, b :: a in m && b in m && cmp(a, b) > 0 ==> cmp(b, a) <= 0
  }

  /** c and each element of s compare at most 0 one way round. */
  ghost predicate ComparableWith(cmp: (Cell, Cell) -> int, c: Cell, s: seq<Cell>)
  {
    forall i :: 0 <= i < |s| && cmp(c, s[i]) > 0 ==> cmp(s[i], c) <= 0
  }

  lemma OrderedTail(cmp: (Cell, Cell) -> int, s: seq<Cell>)
    requires |s| > 0 && Ordered(cmp, s)
    ensures Ordered(cmp, s[1..])
  {
    forall i | 0 <= i < |s| - 2
      ensures cmp(s[1..][i], s[1..][i + 1]) <= 0
    {
      assert s[1..][i] == s[i + 1] && s[1..][i + 1] == s[i + 2];
    }
  }

  lemma InsertCellHead(cmp: (Cell, Cell) -> int, c: Cell, s: seq<Cell>)
    requires |s| > 0
    ensures InsertCell(cmp, c, s)[0] == c || InsertCell(cmp, c, s)[0] == s[0]
  {
  }

  lemma {:induction false} InsertCellOrdered(cmp: (Cell, Cell) -> int, c: Cell, s: seq<Cell>)
    requires Ordered(cmp, s)
    requires ComparableWith(cmp, c, s)
    ensures Ordered(cmp, InsertCell(cmp, c, s))
  {
    if s != [] && cmp(c, s[0]) > 0 {
      assert cmp(s[0], c) <= 0;
      OrderedTail(cmp, s);
      assert ComparableWith(cmp, c, s[1..]) by {
        forall i | 0 <= i < |s[1..]| && cmp(c, s[1..][i]) > 0
          ensures cmp(s[1..][i], c) <= 0
        {
          assert s[1..][i] == s[i + 1];
        }
      }
      InsertCellOrdered(cmp, c, s[1..]);
      var rest := InsertCell(cmp, c, s[1..]);
      var r := [s[0]] + rest;
      assert InsertCell(cmp, c, s) == r;
      if |s| > 1 {
        InsertCellHead(cmp, c, s[1..]);
        assert cmp(r[0], r[1]) <= 0;
      }
      forall i | 0 <= i < |r| - 1
        ensures cmp(r[i], r[i + 1]) <= 0
      {
        if i > 0 {
          assert r[i] == rest[i - 1] && r[i + 1] == rest[i];
        }
      }
    }
  }

  /** When any two cells of the column are comparable one way round, the sort leaves the column
      ordered. */
  lemma {:induction false} SortCellsOrdered(cmp: (Cell, Cell) -> int, cells: seq<Cell>)
    requires Comparable(cmp, multiset(cells))
    ensures Ordered(cmp, SortCells(cmp, cells))
  {
    if cells != [] {
      assert cells == [cells[0]] + cells[1..];
      ComparableSub(cmp, multiset(cells), multiset(cells[1..]));
      SortCellsOrdered(cmp, cells[1..]);
      var sorted := SortCells(cmp, cells[1..]);
      ComparableMember(cmp, multiset(cells), cells[0], sorted);
      InsertCellOrdered(cmp, cells[0], sorted);
    }
  }

  lemma ComparableSub(cmp: (Cell, Cell) -> int, m: multiset<Cell>, sub: multiset<Cell>)
    requires Comparable(cmp, m) && sub <= m
    ensures Comparable(cmp, sub)
  {
  }

  lemma ComparableMember(cmp: (Cell, Cell) -> int, m: multiset<Cell>, c: Cell, s: seq<Cell>)
    requires Comparable(cmp, m) && c in m && multiset(s) <= m
    ensures ComparableWith(cmp, c, s)
  {
    forall i | 0 <= i < |s| && cmp(c, s[i]) > 0
      ensures cmp(s[i], c) <= 0
    {
      assert s[i] in multiset(s);
    }
  }

  /** For Bool, Number and Date, cells that all parse are comparable. */
  lemma ParsedCellsComparable(rt: Runtime, fieldType: FieldDataType, direction: SortDirection, m: multiset<Cell>)
    requires fieldType != String
    requires forall c :: c in m ==> Parses(rt, fieldType, c.content)
    ensures Comparable(Comparer(rt, fieldType, direction), m)
  {
    var cmp := Comparer(rt, fieldType, direction);
    forall a, b | a in m && b in m
      ensures cmp(a, b) > 0 ==> cmp(b, a) <= 0
    {
      AntisymmetricWhenParsed(rt, a, b, fieldType);
    }
  }

  /** SortAndGetIndexes: the column sorted by the comparer, and the original Index of each cell
      in its new order. */
  function SortAndGetIndexes(rt: Runtime, field: Field, direction: SortDirection): (r: (Field, seq<int>))
    ensures r.0.header == field.header
    ensures multiset(r.0.data) == multiset(field.data)
    ensures r.1 == GetIndexes(r.0.data)
  {
    var sorted := SortCells(Comparer(rt, field.header.fieldType, direction), field.data);
    (Field(field.header, sorted), GetIndexes(sorted))
  }

  /** Cells renumbered 0..n-1, contents unchanged. */
  function Reindexed(cells: seq<Cell>): (r: seq<Cell>)
    ensures |r| == |cells|
    ensures forall j :: 0 <= j < |r| ==> r[j] == Cell(cells[j].content, j)
  {
    seq(|cells|, j requires 0 <= j < |cells| => Cell(cells[j].content, j))
  }

  predicate AllInRange(indexes: seq<int>, n: int)
  {
    forall j :: 0 <= j < |indexes| ==> 0 <= indexes[j] < n
  }

  /** The cells at the given positions, renumbered 0..k-1. */
  function Pick(cells: seq<Cell>, indexes: seq<int>): (r: seq<Cell>)
    requires AllInRange(indexes, |cells|)
    ensures |r| == |indexes|
    ensures forall j :: 0 <= j < |r| ==> r[j] == Cell(cells[indexes[j]].content, j)
  {
    seq(|indexes|, j requires 0 <= j < |indexes| => Cell(cells[indexes[j]].content, j))
  }

  /** What ReArrangeAndSelectByIndex does to one field: the ignored field keeps its cells,
      renumbered; any other field is re-sliced by the positions. */
  function SelectField(f: Field, indexes: seq<int>, ignored: bool): (r: Result<Field>)
    ensures r.Success? <==> ignored || AllInRange(indexes, |f.data|)
    ensures r.Success? ==>
              r.value.header == f.header &&
              r.value.data == if ignored then Reindexed(f.data) else Pick(f.data, indexes)
    ensures r.Failure? ==> r.error == ArgumentException(IndexOutOfRangeMessage)
  {
    if ignored then Success(Field(f.header, Reindexed(f.data)))
    else if AllInRange(indexes, |f.data|) then Success(Field(f.header, Pick(f.data, indexes)))
    else Failure(ArgumentException(IndexOutOfRangeMessage))
  }

  /** The specification of ReArrangeAndSelectByIndex: every field processed in order, the first
      out-of-range position raising ArgumentOutOfRangeException. */
  function SelectRows(fields: seq<Field>, indexes: seq<int>, ignore: Option<nat>): (r: Result<seq<Field>>)
    ensures r.Success? <==>
              forall i :: 0 <= i < |fields| && ignore != Some(i) ==> AllInRange(indexes, |fields[i].data|)
    ensures r.Failure? ==> r.error == ArgumentException(IndexOutOfRangeMessage)
    ensures r.Success? ==>
              |r.value| == |fields| &&
              forall i :: 0 <= i < |fields| ==> SelectField(fields[i], indexes, ignore == Some(i)) == Success(r.value[i])
  {
    if fields == [] then Success([])
    else
      var last := |fields| - 1;
      match SelectRows(fields[..last], indexes, ignore)
      case Failure(e) =>
        SelectPrefixRejects(fields, indexes, ignore);
        Failure(e)
      case Success(init) =>
        match SelectField(fields[last], indexes, ignore == Some(last))
        case Failure(e) => Failure(e)
        case Success(f) =>
          SelectAppend(fields, indexes, ignore, init, f);
          Success(init + [f])
  }

  /** A field of the prefix that rejects the positions is a field of the whole list. */
  lemma SelectPrefixRejects(fields: seq<Field>, indexes: seq<int>, ignore: Option<nat>)
    requires fields != []
    requires !forall i :: 0 <= i < |fields| - 1 && ignore != Some(i) ==>
                           AllInRange(indexes, |fields[..|fields| - 1][i].data|)
    ensures !forall i :: 0 <= i < |fields| && ignore != Some(i) ==> AllInRange(indexes, |fields[i].data|)
  {
    var i :| 0 <= i < |fields| - 1 && ignore != Some(i) && !AllInRange(indexes, |fields[..|fields| - 1][i].data|);
    assert fields[..|fields| - 1][i] == fields[i];
  }

  /** The re-sliced prefix followed by the re-sliced last field re-slices the whole list. */
  lemma SelectAppend(fields: seq<Field>, indexes: seq<int>, ignore: Option<nat>, init: seq<Field>, f: Field)
    requires fields != [] && |init| == |fields| - 1
    requires forall i :: 0 <= i < |init| ==>
               SelectField(fields[..|init|][i], indexes, ignore == Some(i)) == Success(init[i])
    requires SelectField(fields[|init|], indexes, ignore == Some(|init|)) == Success(f)
    ensures forall i :: 0 <= i < |fields| ==>
              SelectField(fields[i], indexes, ignore == Some(i)) == Success((init + [f])[i])
    ensures forall i :: 0 <= i < |fields| && ignore != Some(i) ==> AllInRange(indexes, |fields[i].data|)
  {
    forall i | 0 <= i < |fields|
      ensures SelectField(fields[i], indexes, ignore == Some(i)) == Success((init + [f])[i])
    {
      if i < |init| {
        assert fields[..|init|][i] == fields[i];
      }
    }
  }

  /** After a successful re-slice every field's cells are numbered 0..len-1 and the re-sliced
      fields all hold one cell per position. */
  lemma SelectRowsReindexes(fields: seq<Field>, indexes: seq<int>, ignore: Option<nat>)
    requires SelectRows(fields, indexes, ignore).Success?
    ensures var out := SelectRows(fields, indexes, ignore).value;
            forall i, j :: 0 <= i < |out| && 0 <= j < |out[i].data| ==> out[i].data[j].index == j
    ensures var out := SelectRows(fields, indexes, ignore).value;
            forall i :: 0 <= i < |out| && ignore != Some(i) ==> |out[i].data| == |indexes|
  {
    var out := SelectRows(fields, indexes, ignore).value;
    forall i | 0 <= i < |out|
      ensures forall j :: 0 <= j < |out[i].data| ==> out[i].data[j].index == j
      ensures ignore != Some(i) ==> |out[i].data| == |indexes|
    {
      assert SelectField(fields[i], indexes, ignore == Some(i)) == Success(out[i]);
    }
  }

  /** The copying loop of ReArrangeAndSelectByIndex: the cells at the positions, numbered in
      order; None at the first position outside the field (the IndexOutOfRangeException). */
  method PickCells(data: seq<Cell>, indexes: seq<int>) returns (r: Option<seq<Cell>>)
    ensures r.Some? <==> AllInRange(indexes, |data|)
    ensures r.Some? ==> r.value == Pick(data, indexes)
  {
    var newData: seq<Cell> := [];
    var newIndex := 0;
    while newIndex < |indexes|
      invariant 0 <= newIndex <= |indexes|
      invariant |newData| == newIndex
      invariant forall j :: 0 <= j < newIndex ==> 0 <= indexes[j] < |data|
      invariant forall j :: 0 <= j < newIndex ==> newData[j] == Cell(data[indexes[j]].content, j)
    {
      var index := indexes[newIndex];
      if index < 0 || index >= |data| {
        return None;
      }
      newData := newData + [Cell(data[index].content, newIndex)];
      newIndex := newIndex + 1;
    }
    assert newData == Pick(data, indexes);
    r := Some(newData);
  }

  /** The default indexing loop: every cell keeps its content and gets its position. */
  method ReindexCells(cells: seq<Cell>) returns (data: seq<Cell>)
    ensures data == Reindexed(cells)
  {
    data := cells;
    var cellIndex := 0;
    while cellIndex < |data|
      invariant 0 <= cellIndex <= |data| == |cells|
      invariant forall j :: 0 <= j < cellIndex ==> data[j] == Cell(cells[j].content, j)
      invariant forall j :: cellIndex <= j < |data| ==> data[j] == cells[j]
    {
      data := data[cellIndex := Cell(data[cellIndex].content, cellIndex)];
      cellIndex := cellIndex + 1;
    }
  }

  /** ReArrangeAndSelectByIndex: for each field not ignored, copy the cells at the given
      positions into a new field, then renumber the field's cells from 0. */
  method ReArrangeAndSelectByIndex(fieldList: seq<Field>, indexes: seq<int>, fieldToIgnore: Option<nat>)
    returns (r: Result<seq<Field>>)
    ensures r == SelectRows(fieldList, indexes, fieldToIgnore)
  {
    var fields := fieldList;
    var i := 0;
    while i < |fields|
      invariant 0 <= i <= |fields| == |fieldList|
      invariant forall k :: 0 <= k < i ==> SelectField(fieldList[k], indexes, fieldToIgnore == Some(k)) == Success(fields[k])
      invariant fields[i..] == fieldList[i..]
    {
      assert fields[i] == fieldList[i];
      if fieldToIgnore != Some(i) {
        var newData := PickCells(fields[i].data, indexes);
        if newData.None? {
          return Failure(ArgumentException(IndexOutOfRangeMessage));
        }
        fields := fields[i := Field(fields[i].header, newData.value)];
      }
      // set the default indexing
      var data := ReindexCells(fields[i].data);
      if fieldToIgnore != Some(i) {
        assert Reindexed(fields[i].data) == fields[i].data;
      }
      fields := fields[i := Field(fields[i].header, data)];
      i := i + 1;
    }
    r := Success(fields);
    var expected := SelectRows(fieldList, indexes, fieldToIgnore);
    assert expected.Success?;
    assert expected.value == fields;
  }
}
