/** CsvParser: records read from a CSV file become fields (column types inferred from the first
    data record), and fields are written back as CSV records. The CSV text itself (quoting,
    delimiters, encoding) belongs to the CSV library: the reader hands over the header names and
    the records as sequences of texts, and the writer receives records as sequences of texts. */
module CsvParser {
  import opened DataTypes

  /** Every record holds one value per header, as the reader's dictionary records do. */
  predicate Rectangular(rows: seq<seq<string>>, width: nat)
  {
    forall r :: 0 <= r < |rows| ==> |rows[r]| == width
  }

  // ----- ingestion -----

  /** The type inferred from one value: Number when it parses as a double, else Date when it
      parses as a date, else Bool when it parses as a boolean, else String. */
  function InferType(rt: Runtime, s: string): (t: FieldDataType)
    ensures t == Number <==> rt.parseDouble(s)
    ensures t == Date <==> !rt.parseDouble(s) && rt.parseDate(s).Some?
    ensures t == Bool <==> !rt.parseDouble(s) && rt.parseDate(s).None? && rt.parseBool(s).Some?
  {
    if rt.parseDouble(s) then Number
    else if rt.parseDate(s).Some? then Date
    else if rt.parseBool(s).Some? then Bool
    else String
  }

  /** Column i of the records: one cell per record, numbered by the record's position. */
  function Column(rows: seq<seq<string>>, i: nat): seq<Cell>
    requires forall r :: 0 <= r < |rows| ==> i < |rows[r]|
  {
    if rows == [] then []
    else Column(rows[..|rows| - 1], i) + [Cell(rows[|rows| - 1][i], |rows| - 1)]
  }

  /** The fields ParseCsvStream builds: none without a data record; otherwise field i is named
      headers[i], typed by the first record's value, indexed i, and holds column i. */
  function Table(rt: Runtime, headers: seq<string>, rows: seq<seq<string>>): seq<Field>
    requires Rectangular(rows, |headers|)
  {
    if rows == [] then []
    else seq(|headers|, i requires 0 <= i < |headers| =>
               Field(Header(headers[i], InferType(rt, rows[0][i]), i), Column(rows, i)))
  }

  lemma {:induction false} ColumnCells(rows: seq<seq<string>>, i: nat)
    requires forall r :: 0 <= r < |rows| ==> i < |rows[r]|
    ensures |Column(rows, i)| == |rows|
    ensures forall r :: 0 <= r < |rows| ==> Column(rows, i)[r] == Cell(rows[r][i], r)
  {
    if rows != [] {
      ColumnCells(rows[..|rows| - 1], i);
    }
  }

  lemma ColumnStep(rows: seq<seq<string>>, index: nat, i: nat)
    requires index < |rows|
    requires forall r :: 0 <= r < |rows| ==> i < |rows[r]|
    ensures Column(rows[..index + 1], i) == Column(rows[..index], i) + [Cell(rows[index][i], index)]
  {
    assert rows[..index + 1][..index] == rows[..index];
  }

  /** The parsed table is rectangular and numbered as the transformations expect: every field
      holds one cell per record, cell r has Index r and the contents of record r; field i is
      named after header i, has Index i and the type of the first record's value. */
  lemma TableShape(rt: Runtime, headers: seq<string>, rows: seq<seq<string>>)
    requires Rectangular(rows, |headers|) && rows != []
    ensures var t := Table(rt, headers, rows);
            |t| == |headers| && WellFormed(t, |rows|) &&
            (forall i :: 0 <= i < |t| ==>
               t[i].header == Header(headers[i], InferType(rt, rows[0][i]), i)) &&
            (forall i, r :: 0 <= i < |t| && 0 <= r < |rows| ==> t[i].data[r].content == rows[r][i])
  {
    var t := Table(rt, headers, rows);
    forall i | 0 <= i < |t|
      ensures |t[i].data| == |rows| && WellIndexed(t[i].data)
      ensures forall r :: 0 <= r < |rows| ==> t[i].data[r].content == rows[r][i]
    {
      ColumnCells(rows, i);
    }
  }

  /** Without a data record there is no header either: the result is empty. */
  lemma NoRecordNoFields(rt: Runtime, headers: seq<string>)
    ensures Table(rt, headers, []) == []
  {
  }

  /** The fields ParseCsvStream creates from the first record: header i, the type inferred from
      value i, position i, no cells yet. */
  method CreateFields(rt: Runtime, headers: seq<string>, row: seq<string>) returns (fieldDict: seq<Field>)
    requires |row| == |headers|
    ensures |fieldDict| == |headers|
    ensures forall k :: 0 <= k < |headers| ==> fieldDict[k] == Field(Header(headers[k], InferType(rt, row[k]), k), [])
  {
    var dataTypes := new FieldDataType[|headers|];
    for i := 0 to |headers|
      invariant forall k :: 0 <= k < i ==> dataTypes[k] == InferType(rt, row[k])
    {
      dataTypes[i] := InferType(rt, row[i]);
    }
    fieldDict := [];
    for i := 0 to |headers|
      invariant |fieldDict| == i
      invariant forall k :: 0 <= k < i ==> fieldDict[k] == Field(Header(headers[k], InferType(rt, row[k]), k), [])
    {
      fieldDict := fieldDict + [Field(Header(headers[i], dataTypes[i], i), [])];
    }
  }

  /** One record appended by ParseCsvStream: value i goes to the end of field i, with the
      record's position as Index; a field without a value keeps its cells. */
  method AppendRecord(fieldDict: seq<Field>, row: seq<string>, index: int) returns (fieldDict': seq<Field>)
    ensures |fieldDict'| == |fieldDict|
    ensures forall k :: 0 <= k < |fieldDict| ==>
              fieldDict'[k] == if k < |row| then fieldDict[k].(data := fieldDict[k].data + [Cell(row[k], index)]) else fieldDict[k]
  {
    fieldDict' := fieldDict;
    for i := 0 to |row|
      invariant |fieldDict'| == |fieldDict|
      invariant forall k :: 0 <= k < |fieldDict| ==>
                  fieldDict'[k] == if k < i then fieldDict[k].(data := fieldDict[k].data + [Cell(row[k], index)]) else fieldDict[k]
    {
      if i < |fieldDict'| {
        fieldDict' := fieldDict'[i := fieldDict'[i].(data := fieldDict'[i].data + [Cell(row[i], index)])];
      }
    }
  }

  /** ParseCsvStream: the first record fixes the types and creates the fields; every record's
      values are then appended, value i to field i, with the record's position as Index. */
  method ParseCsvStream(rt: Runtime, headers: seq<string>, rows: seq<seq<string>>) returns (result: seq<Field>)
    requires Rectangular(rows, |headers|)
    ensures result == Table(rt, headers, rows)
  {
    var fieldDict: seq<Field> := [];
    var index := 0;
    while index < |rows|
      invariant 0 <= index <= |rows|
      invariant index == 0 ==> fieldDict == []
      invariant index > 0 ==> |fieldDict| == |headers|
      invariant index > 0 ==> forall k :: 0 <= k < |headers| ==>
                  fieldDict[k] == Field(Header(headers[k], InferType(rt, rows[0][k]), k), Column(rows[..index], k))
    {
      var row := rows[index];
      if index == 0 {
        fieldDict := CreateFields(rt, headers, row);
      }
      fieldDict := AppendRecord(fieldDict, row, index);
      forall k | 0 <= k < |headers|
        ensures Column(rows[..index + 1], k) == Column(rows[..index], k) + [Cell(rows[index][k], index)]
      {
        ColumnStep(rows, index, k);
      }
      index := index + 1;
    }
    result := [];
    for k := 0 to |fieldDict|
      invariant result == fieldDict[..k]
    {
      result := result + [fieldDict[k]];
    }
    assert rows[..|rows|] == rows;
  }

  // ----- egress -----

  /** The header record: the field names in order. */
  function HeaderRecord(fields: seq<Field>): (r: seq<string>)
    ensures |r| == |fields|
  {
    seq(|fields|, i requires 0 <= i < |fields| => fields[i].header.name)
  }

  /** The record written for row r: the row-r content of every field that has one, in field
      order; a field without a cell at row r writes nothing. */
  function RowRecord(fields: seq<Field>, r: nat): seq<string>
  {
    if fields == [] then []
    else
      var last := fields[|fields| - 1];
      RowRecord(fields[..|fields| - 1], r) + (if r < |last.data| then [last.data[r].content] else [])
  }

  /** The records for rows 0..k-1. */
  function Rows(fields: seq<Field>, k: nat): seq<seq<string>>
  {
    if k == 0 then [] else Rows(fields, k - 1) + [RowRecord(fields, k - 1)]
  }

  /** What ParseFieldsIntoCsv writes: the header record, then one record per row up to and
      including the first row at which the last field has no cell. */
  function Records(fields: seq<Field>): seq<seq<string>>
    requires fields != []
  {
    [HeaderRecord(fields)] + Rows(fields, |fields[|fields| - 1].data| + 1)
  }

  /** One row of ParseFieldsIntoCsv: each field in turn writes its cell at the row, if it has
      one; rowEmpty is what the last field set, so it says whether the last field is short. */
  method WriteRow(fields: seq<Field>, currentRow: nat) returns (record: seq<string>, rowEmpty: bool)
    requires fields != []
    ensures record == RowRecord(fields, currentRow)
    ensures rowEmpty <==> currentRow >= |fields[|fields| - 1].data|
  {
    record, rowEmpty := [], false;
    for k := 0 to |fields|
      invariant record == RowRecord(fields[..k], currentRow)
      invariant k > 0 ==> (rowEmpty <==> currentRow >= |fields[k - 1].data|)
    {
      assert fields[..k + 1][..k] == fields[..k];
      var field := fields[k];
      if currentRow < |field.data| {
        record := record + [field.data[currentRow].content];
        rowEmpty := false;
      } else {
        rowEmpty := true;
      }
    }
    assert fields[..|fields|] == fields;
  }

  /** ParseFieldsIntoCsv: writes the header record, then row after row; each field in turn
      either writes its cell and clears rowEmpty or sets rowEmpty, so the last field decides
      whether another row follows. With no field rowEmpty is never set and the loop would not
      end, hence the precondition. */
  method ParseFieldsIntoCsv(fields: seq<Field>) returns (records: seq<seq<string>>)
    requires fields != []
    ensures records == Records(fields)
  {
    var header: seq<string> := [];
    var fieldList: seq<Field> := [];
    for i := 0 to |fields|
      invariant fieldList == fields[..i]
      invariant |header| == i && forall k :: 0 <= k < i ==> header[k] == fields[k].header.name
    {
      header := header + [fields[i].header.name];
      fieldList := fieldList + [fields[i]];
    }
    assert fieldList == fields && header == HeaderRecord(fields);
    records := [header];
    ghost var lastLen := |fields[|fields| - 1].data|;
    var currentRow := 0;
    var rowEmpty := false;
    while !rowEmpty
      invariant !rowEmpty ==> currentRow <= lastLen
      invariant rowEmpty ==> currentRow == lastLen + 1
      invariant records == [HeaderRecord(fields)] + Rows(fields, currentRow)
      decreases lastLen + 1 - currentRow
    {
      var record;
      record, rowEmpty := WriteRow(fieldList, currentRow);
      records := records + [record];
      currentRow := currentRow + 1;
    }
  }

  // ----- properties of the written records -----

  lemma {:induction false} RowRecordConcat(a: seq<Field>, b: seq<Field>, r: nat)
    ensures RowRecord(a + b, r) == RowRecord(a, r) + RowRecord(b, r)
  {
    if b != [] {
      assert (a + b)[..|a + b| - 1] == a + b[..|b| - 1];
      RowRecordConcat(a, b[..|b| - 1], r);
    } else {
      assert a + b == a;
    }
  }

  /** A field without a cell at row r is skipped in that row's record, not padded: the record
      is that of the fields before it followed by that of the fields after it. */
  lemma ShortFieldSkipped(fields: seq<Field>, r: nat, i: nat)
    requires i < |fields| && |fields[i].data| <= r
    ensures RowRecord(fields, r) == RowRecord(fields[..i], r) + RowRecord(fields[i + 1..], r)
  {
    assert fields == fields[..i] + [fields[i]] + fields[i + 1..];
    RowRecordConcat(fields[..i] + [fields[i]], fields[i + 1..], r);
    RowRecordConcat(fields[..i], [fields[i]], r);
    assert [fields[i]][..0] == [];
  }

  /** When every field has a cell at row r, the record lists them all, in field order. */
  lemma {:induction false} RowRecordFull(fields: seq<Field>, r: nat)
    requires forall i :: 0 <= i < |fields| ==> r < |fields[i].data|
    ensures RowRecord(fields, r) == seq(|fields|, i requires 0 <= i < |fields| => fields[i].data[r].content)
  {
    if fields != [] {
      RowRecordFull(fields[..|fields| - 1], r);
    }
  }

  /** When no field has a cell at row r, the record is empty. */
  lemma {:induction false} RowRecordEmpty(fields: seq<Field>, r: nat)
    requires forall i :: 0 <= i < |fields| ==> |fields[i].data| <= r
    ensures RowRecord(fields, r) == []
  {
    if fields != [] {
      RowRecordEmpty(fields[..|fields| - 1], r);
    }
  }

  lemma {:induction false} RowsEach(fields: seq<Field>, k: nat)
    ensures |Rows(fields, k)| == k
    ensures forall r :: 0 <= r < k ==> Rows(fields, k)[r] == RowRecord(fields, r)
  {
    if k > 0 {
      RowsEach(fields, k - 1);
    }
  }

  /** The writer stops on the last field alone: whatever the other fields hold, it writes the
      header record and |last field| + 1 row records, so cells of earlier fields beyond that
      row are never written. */
  lemma StopsOnLastField(fields: seq<Field>)
    requires fields != []
    ensures |Records(fields)| == |fields[|fields| - 1].data| + 2
    ensures Records(fields)[0] == HeaderRecord(fields)
  {
    RowsEach(fields, |fields[|fields| - 1].data| + 1);
  }

  /** For fields that all hold n cells, the records are the names, then rows 0..n-1 each
      holding that row's contents in field order, then one empty record. */
  lemma RectangularRecords(fields: seq<Field>, n: nat)
    requires fields != [] && forall i :: 0 <= i < |fields| ==> |fields[i].data| == n
    ensures |Records(fields)| == n + 2
    ensures Records(fields)[0] == HeaderRecord(fields)
    ensures forall r :: 1 <= r <= n ==>
              Records(fields)[r] == seq(|fields|, i requires 0 <= i < |fields| => fields[i].data[r - 1].content)
    ensures Records(fields)[n + 1] == []
  {
    RowsEach(fields, n + 1);
    forall r | 1 <= r <= n
      ensures Records(fields)[r] == seq(|fields|, i requires 0 <= i < |fields| => fields[i].data[r - 1].content)
    {
      RowRecordFull(fields, r - 1);
    }
    RowRecordEmpty(fields, n);
  }

  /** Reading records and writing the parsed fields back gives the header names, the same
      records in the same order, and one trailing empty record. */
  lemma ParseThenWrite(rt: Runtime, headers: seq<string>, rows: seq<seq<string>>)
    requires Rectangular(rows, |headers|) && headers != [] && rows != []
    ensures Records(Table(rt, headers, rows)) == [headers] + rows + [[]]
  {
    var t := Table(rt, headers, rows);
    TableShape(rt, headers, rows);
    RectangularRecords(t, |rows|);
    var out := Records(t);
    var expected := [headers] + rows + [[]];
    assert HeaderRecord(t) == headers;
    forall r | 1 <= r <= |rows|
      ensures out[r] == rows[r - 1]
    {
      assert out[r] == seq(|t|, i requires 0 <= i < |t| => t[i].data[r - 1].content);
    }
    assert |out| == |expected|;
    forall j | 0 <= j < |out|
      ensures out[j] == expected[j]
    {
      if 0 < j <= |rows| {
        assert expected[j] == rows[j - 1];
      }
    }
  }

  // ----- the stop condition -----

  /** The value rowEmpty has after the writer's pass over the fields at row r, starting from
      the given value: each field overwrites it, so with no field it keeps its value. */
  function RowEmptyAfter(fields: seq<Field>, r: nat, rowEmpty: bool): bool
  {
    if fields == [] then rowEmpty
    else RowEmptyAfter(fields[1..], r, |fields[0].data| <= r)
  }

  /** With at least one field, the pass leaves rowEmpty set exactly when the last field has no
      cell at row r, whatever the earlier fields hold. */
  lemma {:induction false} RowEmptyFollowsLastField(fields: seq<Field>, r: nat, rowEmpty: bool)
    requires fields != []
    ensures RowEmptyAfter(fields, r, rowEmpty) <==> |fields[|fields| - 1].data| <= r
  {
    if |fields| > 1 {
      RowEmptyFollowsLastField(fields[1..], r, |fields[0].data| <= r);
    }
  }

  /** With no field the pass leaves rowEmpty false at every row, so the loop that starts with
      rowEmpty false never ends. */
  lemma NoFieldNeverStops(r: nat)
    ensures !RowEmptyAfter([], r, false)
  {
  }

  function Cells(contents: seq<string>): (r: seq<Cell>)
    ensures |r| == |contents|
  {
    seq(|contents|, j requires 0 <= j < |contents| => Cell(contents[j], j))
  }

  /** A first field of three cells and a last field of one: the third row of the first field
      is never written. */
  lemma ShortLastFieldLosesRows()
    ensures var fields := [Field(Header("A", String, 0), Cells(["x", "y", "z"])),
                           Field(Header("B", String, 1), Cells(["u"]))];
            Records(fields) == [["A", "B"], ["x", "u"], ["y"]] &&
            forall k :: 0 <= k < |Records(fields)| ==> "z" !in Records(fields)[k]
  {
    var a := Field(Header("A", String, 0), Cells(["x", "y", "z"]));
    var b := Field(Header("B", String, 1), Cells(["u"]));
    var fields := [a, b];
    assert fields[..1] == [a] && [a][..0] == [];
    assert HeaderRecord(fields) == ["A", "B"];
    assert |a.data| == 3 && a.data[0].content == "x" && a.data[1].content == "y" && a.data[2].content == "z";
    assert |b.data| == 1 && b.data[0].content == "u";
    assert RowRecord([a], 0) == ["x"] && RowRecord([a], 1) == ["y"];
    assert RowRecord(fields, 0) == ["x", "u"];
    assert RowRecord(fields, 1) == ["y"];
    assert Rows(fields, 1) == [["x", "u"]];
    assert Rows(fields, 2) == [["x", "u"], ["y"]];
  }

  // ----- the writer stopping when every field is exhausted -----

  /** The length of the longest field, 0 for none. */
  function MaxLen(fields: seq<Field>): nat
  {
    if fields == [] then 0
    else
      var m := MaxLen(fields[..|fields| - 1]);
      var n := |fields[|fields| - 1].data|;
      if n > m then n else m
  }

  /** MaxLen is the least bound of the field lengths. */
  lemma {:induction false} MaxLenLeast(fields: seq<Field>, m: nat)
    ensures (forall i :: 0 <= i < |fields| ==> |fields[i].data| <= m) <==> MaxLen(fields) <= m
  {
    if fields != [] {
      var init := fields[..|fields| - 1];
      MaxLenLeast(init, m);
      assert forall i :: 0 <= i < |init| ==> init[i] == fields[i];
    }
  }

  lemma MaxLenBounds(fields: seq<Field>)
    ensures forall i :: 0 <= i < |fields| ==> |fields[i].data| <= MaxLen(fields)
  {
    MaxLenLeast(fields, MaxLen(fields));
  }

  /** The records written when the loop goes on until no field has a cell left: the header
      record, then rows 0..MaxLen, the last of them empty. */
  function RecordsUntilAllEmpty(fields: seq<Field>): seq<seq<string>>
  {
    [HeaderRecord(fields)] + Rows(fields, MaxLen(fields) + 1)
  }

  lemma RowRecordHas(fields: seq<Field>, r: nat, i: nat)
    requires i < |fields| && r < |fields[i].data|
    ensures fields[i].data[r].content in RowRecord(fields, r)
  {
    assert fields == fields[..i] + [fields[i]] + fields[i + 1..];
    RowRecordConcat(fields[..i] + [fields[i]], fields[i + 1..], r);
    RowRecordConcat(fields[..i], [fields[i]], r);
    assert [fields[i]][..0] == [];
  }

  /** Every cell of every field is written, in the record of its row, and the records end with
      one empty record. */
  lemma UntilAllEmptyWritesEveryCell(fields: seq<Field>)
    ensures |RecordsUntilAllEmpty(fields)| == MaxLen(fields) + 2
    ensures RecordsUntilAllEmpty(fields)[0] == HeaderRecord(fields)
    ensures forall i :: 0 <= i < |fields| ==> |fields[i].data| <= MaxLen(fields)
    ensures forall i, r :: 0 <= i < |fields| && 0 <= r < |fields[i].data| ==>
              fields[i].data[r].content in RecordsUntilAllEmpty(fields)[r + 1]
    ensures RecordsUntilAllEmpty(fields)[MaxLen(fields) + 1] == []
  {
    var m := MaxLen(fields);
    var rows := Rows(fields, m + 1);
    var records := RecordsUntilAllEmpty(fields);
    assert records == [HeaderRecord(fields)] + rows;
    RowsEach(fields, m + 1);
    MaxLenBounds(fields);
    forall i, r | 0 <= i < |fields| && 0 <= r < |fields[i].data|
      ensures fields[i].data[r].content in records[r + 1]
    {
      assert r < m + 1;
      assert records[r + 1] == rows[r];
      RowRecordHas(fields, r, i);
    }
    assert records[m + 1] == rows[m] == RowRecord(fields, m);
    RowRecordEmpty(fields, m);
  }

  /** When the last field is a longest one (in particular when all fields have the same
      length), the writer as written and the corrected one write the same records. */
  lemma UntilAllEmptyAgrees(fields: seq<Field>)
    requires fields != []
    requires forall i :: 0 <= i < |fields| ==> |fields[i].data| <= |fields[|fields| - 1].data|
    ensures Records(fields) == RecordsUntilAllEmpty(fields)
  {
    var n := |fields[|fields| - 1].data|;
    MaxLenLeast(fields, n);
    if MaxLen(fields) < n {
      MaxLenLeast(fields, MaxLen(fields));
    }
  }

  /** One row of the corrected writer: rowEmpty stays set only when no field has a cell there. */
  method WriteRowUntilAllEmpty(fields: seq<Field>, currentRow: nat) returns (record: seq<string>, rowEmpty: bool)
    ensures record == RowRecord(fields, currentRow)
    ensures rowEmpty <==> forall j :: 0 <= j < |fields| ==> |fields[j].data| <= currentRow
  {
    record, rowEmpty := [], true;
    for k := 0 to |fields|
      invariant record == RowRecord(fields[..k], currentRow)
      invariant rowEmpty <==> forall j :: 0 <= j < k ==> |fields[j].data| <= currentRow
    {
      assert fields[..k + 1][..k] == fields[..k];
      if currentRow < |fields[k].data| {
        record := record + [fields[k].data[currentRow].content];
        rowEmpty := false;
      }
    }
    assert fields[..|fields|] == fields;
  }

  /** The corrected writer: rowEmpty starts each row set and is cleared by any field that
      writes a cell, so the loop ends after the first row at which no field has a cell; it
      ends for every input, including none. */
  method WriteFieldsIntoCsv(fields: seq<Field>) returns (records: seq<seq<string>>)
    ensures records == RecordsUntilAllEmpty(fields)
  {
    var header: seq<string> := [];
    for i := 0 to |fields|
      invariant |header| == i && forall k :: 0 <= k < i ==> header[k] == fields[k].header.name
    {
      header := header + [fields[i].header.name];
    }
    assert header == HeaderRecord(fields);
    records := [header];
    ghost var m := MaxLen(fields);
    var currentRow := 0;
    var rowEmpty := false;
    while !rowEmpty
      invariant !rowEmpty ==> currentRow <= m
      invariant rowEmpty ==> currentRow == m + 1
      invariant records == [HeaderRecord(fields)] + Rows(fields, currentRow)
      decreases m + 1 - currentRow
    {
      var record;
      record, rowEmpty := WriteRowUntilAllEmpty(fields, currentRow);
      MaxLenLeast(fields, currentRow);
      records := records + [record];
      currentRow := currentRow + 1;
    }
  }
}
