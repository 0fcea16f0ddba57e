/** FilterByTransformation.PerformTransformation as written. It hands ReArrangeAndSelectByIndex
    a deferred query ("from cell in field.Data where ... select cell.Index") instead of a list.
    ReArrangeAndSelectByIndex runs that query once per column, and while it handles the filtered
    column it renumbers that column's kept cells to 0..k-1. So the query yields the matching
    rows S for every column up to and including the filtered one, and the positions 0..k-1 for
    every later column. This module models that behaviour for a filtered column whose Index
    values are its positions (the layout the parser and every transformation leave behind),
    and compares it with FilterByResult, which computes S once. */
module FilterByDeferred {
  import opened Wrappers
  import opened DataTypes
  import opened ListExtensions
  import opened TableTransformations
  import opened TransformationProperties

  /** The positions 0..k-1. */
  function Renumbered(k: nat): (r: seq<int>)
    ensures |r| == k && forall j :: 0 <= j < k ==> r[j] == j
  {
    seq(k, j requires 0 <= j < k => j)
  }

  /** FilterBy as written: the columns up to the filtered one p take the matching rows S; the
      columns after p take rows 0..|S|-1. */
  function FilterByAsWritten(rt: Runtime, fields: seq<Field>, condition: FilterCondition): Result<seq<Field>>
  {
    match FirstIndexOf(fields, condition.sourceHeaderName)
    case None => Failure(ArgumentException("Field to FilterBy not found."))
    case Some(p) =>
      if condition.relation == InRange then Failure(NotImplementedException("Relation.InRange not implemented"))
      else SplitSelect(fields, p, FilterIndexes(rt, fields[p], condition))
  }

  /** The positions the deferred query yields while column i is handled. */
  function QueryAt(i: nat, p: nat, rows: seq<int>): seq<int>
  {
    if i <= p then rows else Renumbered(|rows|)
  }

  /** ReArrangeAndSelectByIndex driven by the deferred query: every column processed in order,
      column i re-sliced by QueryAt(i, p, rows); the first out-of-range position throws. */
  function SplitSelect(fields: seq<Field>, p: nat, rows: seq<int>): (r: Result<seq<Field>>)
    ensures r.Success? <==> forall i :: 0 <= i < |fields| ==> AllInRange(QueryAt(i, p, rows), |fields[i].data|)
    ensures r.Success? ==>
              |r.value| == |fields| &&
              forall i :: 0 <= i < |fields| ==> SelectField(fields[i], QueryAt(i, p, rows), false) == Success(r.value[i])
  {
    if fields == [] then Success([])
    else
      var last := |fields| - 1;
      match SplitSelect(fields[..last], p, rows)
      case Failure(e) =>
        SplitPrefixRejects(fields, p, rows);
        Failure(e)
      case Success(init) =>
        match SelectField(fields[last], QueryAt(last, p, rows), false)
        case Failure(e) => Failure(e)
        case Success(f) =>
          SplitAppend(fields, p, rows, init, f);
          Success(init + [f])
  }

  /** A column of the prefix that rejects its positions is a column of the whole list. */
  lemma SplitPrefixRejects(fields: seq<Field>, p: nat, rows: seq<int>)
    requires fields != []
    requires !forall i :: 0 <= i < |fields| - 1 ==> AllInRange(QueryAt(i, p, rows), |fields[..|fields| - 1][i].data|)
    ensures !forall i :: 0 <= i < |fields| ==> AllInRange(QueryAt(i, p, rows), |fields[i].data|)
  {
    var i :| 0 <= i < |fields| - 1 && !AllInRange(QueryAt(i, p, rows), |fields[..|fields| - 1][i].data|);
    assert fields[..|fields| - 1][i] == fields[i];
  }

  /** The re-sliced prefix followed by the re-sliced last column re-slices the whole list. */
  lemma SplitAppend(fields: seq<Field>, p: nat, rows: seq<int>, init: seq<Field>, f: Field)
    requires fields != [] && |init| == |fields| - 1
    requires forall i :: 0 <= i < |init| ==>
               SelectField(fields[..|init|][i], QueryAt(i, p, rows), false) == Success(init[i])
    requires SelectField(fields[|init|], QueryAt(|init|, p, rows), false) == Success(f)
    ensures forall i :: 0 <= i < |fields| ==>
              SelectField(fields[i], QueryAt(i, p, rows), false) == Success((init + [f])[i])
    ensures forall i :: 0 <= i < |fields| ==> AllInRange(QueryAt(i, p, rows), |fields[i].data|)
  {
    forall i | 0 <= i < |fields|
      ensures SelectField(fields[i], QueryAt(i, p, rows), false) == Success((init + [f])[i])
    {
      if i < |init| {
        assert fields[..|init|][i] == fields[i];
      }
    }
  }

  /** On columns of n cells, with the selected rows inside them, SplitSelect succeeds: the
      columns up to p are re-sliced by the rows, every later column holds its first k cells'
      contents, k being the number of selected rows. */
  lemma SplitSelectRows(fields: seq<Field>, n: nat, p: nat, rows: seq<int>)
    requires forall i :: 0 <= i < |fields| ==> |fields[i].data| == n
    requires AllInRange(rows, n) && |rows| <= n
    ensures var r := SplitSelect(fields, p, rows);
            r.Success? && |r.value| == |fields| &&
            (forall i :: 0 <= i < |fields| && i <= p ==> SelectField(fields[i], rows, false) == Success(r.value[i])) &&
            (forall i, j :: p < i < |fields| && 0 <= j < |rows| ==>
               |r.value[i].data| == |rows| && r.value[i].data[j].content == fields[i].data[j].content)
  {
    assert forall i :: 0 <= i < |fields| ==> AllInRange(QueryAt(i, p, rows), |fields[i].data|);
    var r := SplitSelect(fields, p, rows).value;
    forall i, j | p < i < |fields| && 0 <= j < |rows|
      ensures |r[i].data| == |rows| && r[i].data[j].content == fields[i].data[j].content
    {
      assert SelectField(fields[i], Renumbered(|rows|), false) == Success(r[i]);
    }
  }

  /** On a rectangular table, the as-written FilterBy succeeds and agrees with FilterByResult
      on every column up to and including the filtered one. */
  lemma AsWrittenAgreesUpToSource(rt: Runtime, fields: seq<Field>, n: nat, condition: FilterCondition)
    requires WellFormed(fields, n) && FirstIndexOf(fields, condition.sourceHeaderName).Some?
    requires condition.relation != InRange
    ensures var p := FirstIndexOf(fields, condition.sourceHeaderName).value;
            var written := FilterByAsWritten(rt, fields, condition);
            var intended := FilterByResult(rt, fields, condition);
            written.Success? && intended.Success? && |written.value| == |intended.value| == |fields| &&
            forall i :: 0 <= i <= p ==> written.value[i] == intended.value[i]
  {
    var p := FirstIndexOf(fields, condition.sourceHeaderName).value;
    var rows := FilterIndexes(rt, fields[p], condition);
    FilterIndexesInRange(rt, fields[p], condition);
    SplitSelectRows(fields, n, p, rows);
    var written := SplitSelect(fields, p, rows);
    var intended := SelectRows(fields, rows, None);
    assert FilterByAsWritten(rt, fields, condition) == written;
    assert FilterByResult(rt, fields, condition) == intended;
    assert intended.Success?;
    forall i | 0 <= i <= p
      ensures written.value[i] == intended.value[i]
    {
      assert SelectField(fields[i], rows, None == Some(i)) == Success(intended.value[i]);
    }
  }

  /** On a rectangular table, every column after the filtered one gets, from the as-written
      FilterBy, the contents of its first k rows, k being the number of matches. */
  lemma AsWrittenTakesLeadingRows(rt: Runtime, fields: seq<Field>, n: nat, condition: FilterCondition)
    requires WellFormed(fields, n) && FirstIndexOf(fields, condition.sourceHeaderName).Some?
    requires condition.relation != InRange
    ensures var p := FirstIndexOf(fields, condition.sourceHeaderName).value;
            var k := |FilterIndexes(rt, fields[p], condition)|;
            var written := FilterByAsWritten(rt, fields, condition);
            written.Success? && |written.value| == |fields| &&
            forall i, j :: p < i < |fields| && 0 <= j < k ==>
              |written.value[i].data| == k && written.value[i].data[j].content == fields[i].data[j].content
  {
    var p := FirstIndexOf(fields, condition.sourceHeaderName).value;
    var rows := FilterIndexes(rt, fields[p], condition);
    FilterIndexesInRange(rt, fields[p], condition);
    SplitSelectRows(fields, n, p, rows);
  }

  /** On a rectangular table the as-written FilterBy keeps every header and gives every column
      as many cells as the corrected one, numbered by position: the two differ only in the
      contents of the columns after the filtered one. */
  lemma AsWrittenShape(rt: Runtime, fields: seq<Field>, n: nat, condition: FilterCondition)
    requires WellFormed(fields, n) && FirstIndexOf(fields, condition.sourceHeaderName).Some?
    requires condition.relation != InRange
    ensures var written := FilterByAsWritten(rt, fields, condition);
            var intended := FilterByResult(rt, fields, condition);
            written.Success? && intended.Success? && |written.value| == |intended.value| == |fields| &&
            forall i :: 0 <= i < |fields| ==>
              written.value[i].header == intended.value[i].header == fields[i].header &&
              |written.value[i].data| == |intended.value[i].data| && WellIndexed(written.value[i].data)
  {
    var p := FirstIndexOf(fields, condition.sourceHeaderName).value;
    var rows := FilterIndexes(rt, fields[p], condition);
    FilterIndexesInRange(rt, fields[p], condition);
    SplitSelectRows(fields, n, p, rows);
    var written := SplitSelect(fields, p, rows).value;
    var intended := SelectRows(fields, rows, None);
    assert FilterByResult(rt, fields, condition) == intended;
    assert intended.Success?;
    forall i | 0 <= i < |fields|
      ensures written[i].header == intended.value[i].header == fields[i].header
      ensures |written[i].data| == |intended.value[i].data| && WellIndexed(written[i].data)
    {
      assert SelectField(fields[i], QueryAt(i, p, rows), false) == Success(written[i]);
      assert SelectField(fields[i], rows, None == Some(i)) == Success(intended.value[i]);
    }
  }

  /** EqualsNotEqualsSplitRows holds of the as-written FilterBy too: the row counts add up to n. */
  lemma AsWrittenEqualsNotEqualsSplitRows(rt: Runtime, fields: seq<Field>, n: nat, column: string, literal: string)
    requires WellFormed(fields, n) && FirstIndexOf(fields, column).Some?
    ensures var eq := FilterByAsWritten(rt, fields, FilterCondition(Equals, column, literal));
            var ne := FilterByAsWritten(rt, fields, FilterCondition(NotEquals, column, literal));
            eq.Success? && ne.Success? && |eq.value| == |ne.value| == |fields| &&
            forall i :: 0 <= i < |fields| ==> |eq.value[i].data| + |ne.value[i].data| == n
  {
    AsWrittenShape(rt, fields, n, FilterCondition(Equals, column, literal));
    AsWrittenShape(rt, fields, n, FilterCondition(NotEquals, column, literal));
    EqualsNotEqualsSplitRows(rt, fields, n, column, literal);
  }

  /** FilterWithoutMatchesEmpties holds of the as-written FilterBy too. */
  lemma AsWrittenWithoutMatchesEmpties(rt: Runtime, fields: seq<Field>, n: nat, condition: FilterCondition)
    requires WellFormed(fields, n) && FirstIndexOf(fields, condition.sourceHeaderName).Some? && condition.relation != InRange
    requires var p := FirstIndexOf(fields, condition.sourceHeaderName).value;
             forall j :: 0 <= j < n ==>
               !Matches(rt, fields[p].header.fieldType, condition.relation, condition.condition)(fields[p].data[j])
    ensures var r := FilterByAsWritten(rt, fields, condition);
            r.Success? && |r.value| == |fields| &&
            forall i :: 0 <= i < |fields| ==> r.value[i].header == fields[i].header && r.value[i].data == []
  {
    AsWrittenShape(rt, fields, n, condition);
    FilterWithoutMatchesEmpties(rt, fields, n, condition);
  }

  /** EqualsLeavesOnlyMatches holds of the as-written FilterBy too: its filtered column is the
      corrected one's, and the result is again rectangular. */
  lemma AsWrittenEqualsLeavesOnlyMatches(rt: Runtime, fields: seq<Field>, n: nat, column: string, literal: string)
    requires WellFormed(fields, n) && FirstIndexOf(fields, column).Some?
    ensures var p := FirstIndexOf(fields, column).value;
            var mid := FilterByAsWritten(rt, fields, FilterCondition(Equals, column, literal));
            mid.Success? && |mid.value| == |fields| && FirstIndexOf(mid.value, column) == Some(p) &&
            mid.value[p].header == fields[p].header &&
            WellFormed(mid.value, |mid.value[p].data|) &&
            forall j :: 0 <= j < |mid.value[p].data| ==>
              !Matches(rt, fields[p].header.fieldType, NotEquals, literal)(mid.value[p].data[j])
  {
    var condition := FilterCondition(Equals, column, literal);
    var p := FirstIndexOf(fields, column).value;
    AsWrittenShape(rt, fields, n, condition);
    AsWrittenAgreesUpToSource(rt, fields, n, condition);
    EqualsLeavesOnlyMatches(rt, fields, n, column, literal);
    var mid := FilterByAsWritten(rt, fields, condition).value;
    var intended := FilterByResult(rt, fields, condition).value;
    assert mid[p] == intended[p];
    FirstIndexOfSameNames(fields, mid, column);
  }

  /** EqualsThenNotEqualsIsEmpty holds of the as-written FilterBy too. */
  lemma AsWrittenEqualsThenNotEqualsIsEmpty(rt: Runtime, fields: seq<Field>, n: nat, column: string, literal: string)
    requires WellFormed(fields, n) && FirstIndexOf(fields, column).Some?
    ensures FilterByAsWritten(rt, fields, FilterCondition(Equals, column, literal)).Success?
    ensures var mid := FilterByAsWritten(rt, fields, FilterCondition(Equals, column, literal)).value;
            var last := FilterByAsWritten(rt, mid, FilterCondition(NotEquals, column, literal));
            last.Success? && |last.value| == |fields| && forall i :: 0 <= i < |fields| ==> last.value[i].data == []
  {
    AsWrittenEqualsLeavesOnlyMatches(rt, fields, n, column, literal);
    var mid := FilterByAsWritten(rt, fields, FilterCondition(Equals, column, literal)).value;
    var p := FirstIndexOf(fields, column).value;
    AsWrittenWithoutMatchesEmpties(rt, mid, |mid[p].data|, FilterCondition(NotEquals, column, literal));
  }

  /** A runtime whose string comparison is 0 exactly on equal texts. */
  function PlainRuntime(): Runtime
  {
    Runtime(
      s => None,
      s => None,
      s => false,
      (a, b) => if a == b then 0 else 1,
      values => "",
      values => "")
  }

  function Names(): seq<Cell> { [Cell("Alice", 0), Cell("Bob", 1)] }

  function Ages(): seq<Cell> { [Cell("30", 0), Cell("25", 1)] }

  function People(): seq<Field>
  {
    [Field(Header("Name", String, 0), Names()), Field(Header("Age", Number, 1), Ages())]
  }

  lemma BobIsRowOne()
    ensures FirstIndexOf(People(), "Name") == Some(0)
    ensures FilterIndexes(PlainRuntime(), People()[0], FilterCondition(Equals, "Name", "Bob")) == [1]
  {
    var keep := Matches(PlainRuntime(), String, Equals, "Bob");
    assert Names()[..1] == [Cell("Alice", 0)];
    assert [Cell("Alice", 0)][..0] == [];
    assert !keep(Cell("Alice", 0)) && keep(Cell("Bob", 1));
    assert FilterCells(Names(), keep) == [Cell("Bob", 1)];
  }

  /** Names Alice and Bob with ages 30 and 25, filtered by Name == "Bob": the as-written
      FilterBy pairs Bob with Alice's age 30. */
  lemma AsWrittenMisalignsRows()
    ensures FilterByAsWritten(PlainRuntime(), People(), FilterCondition(Equals, "Name", "Bob")) ==
              Success([Field(Header("Name", String, 0), [Cell("Bob", 0)]), Field(Header("Age", Number, 1), [Cell("30", 0)])])
  {
    BobIsRowOne();
    var rows := FilterIndexes(PlainRuntime(), People()[0], FilterCondition(Equals, "Name", "Bob"));
    assert Renumbered(|rows|) == [0];
    assert AllInRange([1], 2) && AllInRange([0], 2);
    var r := SplitSelect(People(), 0, rows);
    assert QueryAt(0, 0, rows) == [1] && QueryAt(1, 0, rows) == [0];
    assert SelectField(People()[0], [1], false) == Success(r.value[0]);
    assert Pick(Names(), [1]) == [Cell("Bob", 0)];
    assert SelectField(People()[1], [0], false) == Success(r.value[1]);
    assert Pick(Ages(), [0]) == [Cell("30", 0)];
    assert r.value == [r.value[0], r.value[1]];
  }

  /** On the same table the corrected FilterBy gives Bob aged 25. */
  lemma IntendedKeepsRowsAligned()
    ensures FilterByResult(PlainRuntime(), People(), FilterCondition(Equals, "Name", "Bob")) ==
              Success([Field(Header("Name", String, 0), [Cell("Bob", 0)]), Field(Header("Age", Number, 1), [Cell("25", 0)])])
  {
    BobIsRowOne();
    var r := SelectRows(People(), [1], None);
    assert AllInRange([1], 2);
    assert SelectField(People()[0], [1], false) == Success(r.value[0]);
    assert Pick(Names(), [1]) == [Cell("Bob", 0)];
    assert SelectField(People()[1], [1], false) == Success(r.value[1]);
    assert Pick(Ages(), [1]) == [Cell("25", 0)];
    assert r.value == [r.value[0], r.value[1]];
  }
}
