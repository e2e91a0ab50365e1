/** `DescribeTableData`: the PowerShell hashtable literal written for a
    step's table argument, and a reader for that literal.

    A table is its header (column names in order) and its rows in order;
    a row maps every header column to a cell, and a cell may be absent
    (C# `null`). The literal is

      @{ Header = '<col>', '<col>'; Rows = <rows> }

    where each row is `@{ '<col>' = '<value>'; ... }` over the header in
    order (an absent cell written `'$Null'`), rows are separated by `, `,
    and a table of exactly one row gets one extra `,` in front of its
    record (PowerShell's unary array operator). Nothing is escaped. */
module Tables {
  import opened Text

  type Row = map<string, Option<string>>

  datatype TableData = TableData(header: seq<string>, rows: seq<Row>)

  function Columns(header: seq<string>): set<string> {
    set c | c in header
  }

  /** What SpecFlow's `Table` guarantees by construction: every row holds a
      cell for exactly the header's columns. */
  predicate WellFormed(t: TableData) {
    forall i :: 0 <= i < |t.rows| ==>
      (forall c :: c in t.rows[i] ==> c in t.header) && (forall c :: c in t.header ==> c in t.rows[i])
  }

  type Table = t: TableData | WellFormed(t) witness TableData([], [])

  predicate HasColumns(header: seq<string>, row: Row) {
    forall c :: c in header ==> c in row
  }

  predicate AllHaveColumns(header: seq<string>, rows: seq<Row>) {
    forall i :: 0 <= i < |rows| ==> HasColumns(header, rows[i])
  }

  /** What `row[columnName] ?? "$Null"` yields inside the quotes. */
  const NullSentinel: string := "$Null"

  function CellText(v: Option<string>): (r: string)
    ensures r == NullSentinel <==> v.None? || v == Some(NullSentinel)
  {
    match v
    case Some(s) => s
    case None => NullSentinel
  }

  /** `'<col>' = '<value>'` */
  function CellLiteral(column: string, v: Option<string>): string {
    Quoted(column) + " = " + Quoted(CellText(v))
  }

  /** The cells of one row, one per header column, in header order. */
  function CellLiterals(header: seq<string>, row: Row): (r: seq<string>)
    requires HasColumns(header, row)
    ensures |r| == |header|
    ensures forall i :: 0 <= i < |header| ==> r[i] == CellLiteral(header[i], row[header[i]])
    decreases |header|
  {
    if |header| == 0 then []
    else [CellLiteral(header[0], row[header[0]])] + CellLiterals(header[1..], row)
  }

  /** `@{ <cell>; <cell> }` */
  function RowLiteral(header: seq<string>, row: Row): string
    requires HasColumns(header, row)
  {
    "@{ " + Join("; ", CellLiterals(header, row)) + " }"
  }

  /** The row records, one per row, in row order. */
  function RowLiterals(header: seq<string>, rows: seq<Row>): (r: seq<string>)
    requires AllHaveColumns(header, rows)
    ensures |r| == |rows|
    ensures forall i :: 0 <= i < |rows| ==> r[i] == RowLiteral(header, rows[i])
    decreases |rows|
  {
    if |rows| == 0 then []
    else
      assert rows[0] in rows;
      [RowLiteral(header, rows[0])] + RowLiterals(header, rows[1..])
  }

  /** The text after `Rows = `: the records joined by `, `, with one extra
      leading `,` when there is exactly one row. */
  function RowsSegment(t: Table): string {
    var rowsData := Join(", ", RowLiterals(t.header, t.rows));
    if |t.rows| == 1 then "," + rowsData else rowsData
  }

  function DescribeTableData(t: Table): (r: string)
    ensures StartsWith(r, "@{ Header = '") && EndsWith(r, " }")
  {
    var r := "@{ Header = '" + Join("', '", t.header) + "'; Rows = " + RowsSegment(t) + " }";
    assert r[..|"@{ Header = '"|] == "@{ Header = '";
    assert r[|r| - 2..] == " }";
    r
  }

  // ---------------------------------------------------------------------
  // Properties of the literal

  /** Exactly one row: the rows segment is `,` followed by that row's record. */
  lemma SingleRowSegment(t: Table)
    requires |t.rows| == 1
    ensures RowsSegment(t) == "," + RowLiteral(t.header, t.rows[0])
  {
  }

  /** The segment starts with a comma exactly when there is one row; with
      no rows it is empty, with several it starts with the first record. */
  lemma LeadingCommaIffSingleRow(t: Table)
    ensures |t.rows| == 0 <==> RowsSegment(t) == ""
    ensures StartsWith(RowsSegment(t), ",") <==> |t.rows| == 1
  {
    if |t.rows| >= 2 {
      SeveralRowsOpenWithRecord(t);
    }
  }

  /** Every row's record occurs in the rows segment. */
  lemma SegmentHoldsEveryRecord(t: Table)
    ensures forall i :: 0 <= i < |t.rows| ==> Contains(RowsSegment(t), RowLiteral(t.header, t.rows[i]))
  {
    var records := RowLiterals(t.header, t.rows);
    JoinContains(", ", records);
    if |t.rows| == 1 {
      ContainsTail(",", Join(", ", records), records[0]);
    }
  }

  /** With two rows or more the segment opens on the first record's `@`. */
  lemma SeveralRowsOpenWithRecord(t: Table)
    requires |t.rows| >= 2
    ensures |RowsSegment(t)| > 0 && RowsSegment(t)[0] == '@'
  {
    var lits := RowLiterals(t.header, t.rows);
    RowLiteralOpens(t.header, t.rows[0]);
    assert RowsSegment(t) == Join(", ", lits);
    JoinOpensWithFirst(", ", lits);
  }

  lemma JoinOpensWithFirst(sep: string, parts: seq<string>)
    requires |parts| > 0 && |parts[0]| > 0
    ensures |Join(sep, parts)| > 0 && Join(sep, parts)[0] == parts[0][0]
  {
  }

  lemma RowLiteralOpens(header: seq<string>, row: Row)
    requires HasColumns(header, row)
    ensures |RowLiteral(header, row)| > 0 && RowLiteral(header, row)[0] == '@'
  {
    assert RowLiteral(header, row) == "@{ " + (Join("; ", CellLiterals(header, row)) + " }");
  }

  /** A table without rows renders `Rows = ` followed directly by ` }`. */
  lemma EmptyTableLiteral(t: Table)
    requires |t.rows| == 0
    ensures DescribeTableData(t) == "@{ Header = '" + Join("', '", t.header) + "'; Rows =  }"
  {
    LeadingCommaIffSingleRow(t);
  }

  /** Every header column appears in every row record, in header order, and
      an absent cell is written `'$Null'` rather than left out. */
  lemma RowLiteralCells(header: seq<string>, row: Row, i: nat)
    requires HasColumns(header, row) && i < |header|
    ensures |CellLiterals(header, row)| == |header|
    ensures CellLiterals(header, row)[i] == Quoted(header[i]) + " = " + Quoted(CellText(row[header[i]]))
    ensures row[header[i]].None? ==> CellLiterals(header, row)[i] == Quoted(header[i]) + " = " + Quoted(NullSentinel)
  {
  }

  /** The sentinel as it appears in the literal. */
  lemma NullLiteral()
    ensures Quoted(CellText(None)) == "'$Null'"
  {
    assert Quoted(NullSentinel) == "'" + NullSentinel + "'";
  }

  /** The null sentinel and a cell holding the text `$Null` render alike:
      the literal does not tell them apart. */
  lemma NullCellIndistinguishable()
    ensures var absent := TableData(["a"], [map["a" := None]]);
            var dollarNull := TableData(["a"], [map["a" := Some("$Null")]]);
            WellFormed(absent) && WellFormed(dollarNull) && absent != dollarNull
            && DescribeTableData(absent) == DescribeTableData(dollarNull)
  {
    var absent := TableData(["a"], [map["a" := None]]);
    var dollarNull := TableData(["a"], [map["a" := Some("$Null")]]);
    assert Columns(["a"]) == {"a"};
    assert absent.rows[0]["a"] != dollarNull.rows[0]["a"];
  }

  // ---------------------------------------------------------------------
  // Reading a literal back

  /** A cell as read back: the column and the quoted value text. */
  type Cell = (string, string)

  function DecodeCell(text: string): Option<string> {
    if text == NullSentinel then None else Some(text)
  }

  /** The row a list of read cells denotes (a repeated column keeps its
      first value). */
  function RowOf(cells: seq<Cell>): (row: Row)
    ensures row.Keys == set i | 0 <= i < |cells| :: cells[i].0
    decreases |cells|
  {
    if |cells| == 0 then map[]
    else
      var tail := RowOf(cells[1..]);
      assert tail.Keys + {cells[0].0} == set i | 0 <= i < |cells| :: cells[i].0 by {
        forall i | 0 <= i < |cells| ensures cells[i].0 in tail.Keys + {cells[0].0} {
          if i > 0 { assert cells[i].0 == cells[1..][i - 1].0; }
        }
        forall k | k in tail.Keys ensures k in set i | 0 <= i < |cells| :: cells[i].0 {
          var j :| 0 <= j < |cells[1..]| && cells[1..][j].0 == k;
          assert cells[j + 1].0 == k;
        }
      }
      tail[cells[0].0 := DecodeCell(cells[0].1)]
  }

  function RowsOf(records: seq<seq<Cell>>): (rows: seq<Row>)
    ensures |rows| == |records|
    ensures forall i :: 0 <= i < |records| ==> rows[i] == RowOf(records[i])
    decreases |records|
  {
    if |records| == 0 then [] else [RowOf(records[0])] + RowsOf(records[1..])
  }

  /** Quoted names separated by `, `. */
  function ParseNames(s: string): (r: Option<(seq<string>, string)>)
    ensures r.Some? ==> |r.value.1| < |s|
    decreases |s|
  {
    match ParseQuoted(s)
    case None => None
    case Some((name, rest)) =>
      if StartsWith(rest, ", ") then
        match ParseNames(rest[2..])
        case None => None
        case Some((names, tail)) => Some(([name] + names, tail))
      else Some(([name], rest))
  }

  /** `'<col>' = '<value>'` */
  function ParseCell(s: string): (r: Option<(Cell, string)>)
    ensures r.Some? ==> |r.value.1| < |s|
  {
    match ParseQuoted(s)
    case None => None
    case Some((column, s1)) =>
      match Expect(s1, " = ")
      case None => None
      case Some(s2) =>
        match ParseQuoted(s2)
        case None => None
        case Some((text, s3)) => Some(((column, text), s3))
  }

  /** Cells separated by `; `. */
  function ParseCells(s: string): (r: Option<(seq<Cell>, string)>)
    ensures r.Some? ==> |r.value.1| < |s|
    decreases |s|
  {
    match ParseCell(s)
    case None => None
    case Some((cell, rest)) =>
      if StartsWith(rest, "; ") then
        match ParseCells(rest[2..])
        case None => None
        case Some((cells, tail)) => Some(([cell] + cells, tail))
      else Some(([cell], rest))
  }

  /** `@{ <cells> }` */
  function ParseRecord(s: string): (r: Option<(seq<Cell>, string)>)
    ensures r.Some? ==> |r.value.1| < |s|
  {
    match Expect(s, "@{ ")
    case None => None
    case Some(s1) =>
      match ParseCells(s1)
      case None => None
      case Some((cells, s2)) =>
        match Expect(s2, " }")
        case None => None
        case Some(s3) => Some((cells, s3))
  }

  /** Records separated by `, `. */
  function ParseRecords(s: string): (r: Option<(seq<seq<Cell>>, string)>)
    ensures r.Some? ==> |r.value.0| > 0 && |r.value.1| < |s|
    decreases |s|
  {
    match ParseRecord(s)
    case None => None
    case Some((record, rest)) =>
      if StartsWith(rest, ", ") then
        match ParseRecords(rest[2..])
        case None => None
        case Some((records, tail)) => Some(([record] + records, tail))
      else Some(([record], rest))
  }

  /** The rows segment: `,` and exactly one record, two or more records, or
      nothing. */
  function ParseRows(s: string): Option<(seq<seq<Cell>>, string)> {
    if StartsWith(s, ",") then
      match ParseRecords(s[1..])
      case Some((records, rest)) => if |records| == 1 then Some((records, rest)) else None
      case None => None
    else if StartsWith(s, "@") then
      match ParseRecords(s)
      case Some((records, rest)) => if |records| >= 2 then Some((records, rest)) else None
      case None => None
    else Some(([], s))
  }

  /** Reads a whole table literal. */
  function ParseTable(s: string): Option<Table> {
    match Expect(s, "@{ Header = ")
    case None => None
    case Some(s1) =>
      match ParseNames(s1)
      case None => None
      case Some((header, s2)) =>
        match Expect(s2, "; Rows = ")
        case None => None
        case Some(s3) =>
          match ParseRows(s3)
          case None => None
          case Some((records, s4)) =>
            var t := TableData(header, RowsOf(records));
            if s4 == " }" && WellFormed(t) then var table: Table := t; Some(table) else None
  }

  // ---------------------------------------------------------------------
  // Round trip

  /** The tables whose literal can be read back unambiguously: at least one
      column, no quote in any name or value, and no cell holding the text
      `$Null` (see NullCellIndistinguishable). */
  predicate Unambiguous(t: Table) {
    && |t.header| > 0
    && QuoteFree(t.header, t.rows)
    && (forall i, c :: 0 <= i < |t.rows| && c in t.header ==> t.rows[i][c] != Some(NullSentinel))
  }

  /** No quote in any column name or cell text. */
  predicate QuoteFree(header: seq<string>, rows: seq<Row>)
    requires AllHaveColumns(header, rows)
  {
    && (forall c :: c in header ==> '\'' !in c)
    && (forall i, c :: 0 <= i < |rows| && c in header ==> '\'' !in CellText(rows[i][c]))
  }

  /** One row's share of `Unambiguous`: it has the header's columns, and no
      cell holds a quote or the null sentinel's text. */
  predicate RowReadable(header: seq<string>, row: Row) {
    forall c :: c in header ==> c in row && '\'' !in CellText(row[c]) && row[c] != Some(NullSentinel)
  }

  /** A table is unambiguous exactly when it has a header without quotes
      and every row is readable. */
  lemma UnambiguousByRows(t: Table)
    ensures Unambiguous(t) <==>
      && |t.header| > 0
      && (forall c :: c in t.header ==> '\'' !in c)
      && (forall i :: 0 <= i < |t.rows| ==> RowReadable(t.header, t.rows[i]))
  {
  }

  /** The cells of a row as the literal writes them. */
  function CellsOf(header: seq<string>, row: Row): (cells: seq<Cell>)
    requires HasColumns(header, row)
    ensures |cells| == |header|
    ensures forall i :: 0 <= i < |header| ==> cells[i] == (header[i], CellText(row[header[i]]))
    decreases |header|
  {
    if |header| == 0 then []
    else [(header[0], CellText(row[header[0]]))] + CellsOf(header[1..], row)
  }

  function RecordsOf(header: seq<string>, rows: seq<Row>): (records: seq<seq<Cell>>)
    requires AllHaveColumns(header, rows)
    ensures |records| == |rows|
    ensures forall i :: 0 <= i < |rows| ==> records[i] == CellsOf(header, rows[i])
    decreases |rows|
  {
    if |rows| == 0 then []
    else
      assert rows[0] in rows;
      [CellsOf(header, rows[0])] + RecordsOf(header, rows[1..])
  }

  lemma {:induction false} ParseNamesRoundTrip(names: seq<string>, rest: string)
    requires |names| > 0
    requires forall c :: c in names ==> '\'' !in c
    requires !StartsWith(rest, ", ")
    ensures ParseNames("'" + Join("', '", names) + "'" + rest) == Some((names, rest))
    decreases |names|
  {
    var s := "'" + Join("', '", names) + "'" + rest;
    assert names[0] in names;
    if |names| == 1 {
      assert names == [names[0]];
      assert s == Quoted(names[0]) + rest;
      ParseQuotedRoundTrip(names[0], rest);
    } else {
      var tail := "'" + Join("', '", names[1..]) + "'" + rest;
      JoinCons("', '", names[0], names[1..]);
      assert names == [names[0]] + names[1..];
      assert s == Quoted(names[0]) + (", " + tail);
      ParseQuotedRoundTrip(names[0], ", " + tail);
      assert (", " + tail)[2..] == tail;
      ParseNamesRoundTrip(names[1..], rest);
    }
  }

  lemma ParseCellRoundTrip(column: string, v: Option<string>, rest: string)
    requires '\'' !in column && '\'' !in CellText(v)
    ensures ParseCell(CellLiteral(column, v) + rest) == Some(((column, CellText(v)), rest))
  {
    var tail := Quoted(CellText(v)) + rest;
    assert CellLiteral(column, v) + rest == Quoted(column) + (" = " + tail);
    ParseQuotedRoundTrip(column, " = " + tail);
    assert Expect(" = " + tail, " = ") == Some(tail) by {
      assert (" = " + tail)[..3] == " = ";
    }
    ParseQuotedRoundTrip(CellText(v), rest);
  }

  lemma {:induction false} ParseCellsRoundTrip(header: seq<string>, row: Row, rest: string)
    requires |header| > 0 && HasColumns(header, row)
    requires forall c :: c in header ==> '\'' !in c && '\'' !in CellText(row[c])
    requires !StartsWith(rest, "; ")
    ensures ParseCells(Join("; ", CellLiterals(header, row)) + rest) == Some((CellsOf(header, row), rest))
    decreases |header|
  {
    if |header| == 1 {
      ParseLastCell(header, row, rest);
    } else {
      ParseCellsRoundTrip(header[1..], row, rest);
      ParseCellsCons(header, row, rest);
    }
  }

  lemma ParseLastCell(header: seq<string>, row: Row, rest: string)
    requires |header| == 1 && HasColumns(header, row)
    requires forall c :: c in header ==> '\'' !in c && '\'' !in CellText(row[c])
    requires !StartsWith(rest, "; ")
    ensures ParseCells(Join("; ", CellLiterals(header, row)) + rest) == Some((CellsOf(header, row), rest))
  {
    var h := header[0];
    assert h in header;
    assert Join("; ", CellLiterals(header, row)) == CellLiteral(h, row[h]);
    assert CellsOf(header, row) == [(h, CellText(row[h]))];
    ParseCellRoundTrip(h, row[h], rest);
  }

  /** One cell, `; `, and cells the reader already reads back. */
  lemma ParseCellsCons(header: seq<string>, row: Row, rest: string)
    requires |header| > 1 && HasColumns(header, row)
    requires forall c :: c in header ==> '\'' !in c && '\'' !in CellText(row[c])
    requires ParseCells(Join("; ", CellLiterals(header[1..], row)) + rest) == Some((CellsOf(header[1..], row), rest))
    ensures ParseCells(Join("; ", CellLiterals(header, row)) + rest) == Some((CellsOf(header, row), rest))
  {
    var h := header[0];
    assert h in header;
    var tail := Join("; ", CellLiterals(header[1..], row)) + rest;
    CellsLiteralCons(header, row, rest);
    ParseCellRoundTrip(h, row[h], "; " + tail);
    ParseCellsStep(CellLiteral(h, row[h]), tail, (h, CellText(row[h])), CellsOf(header[1..], row), rest);
    assert CellsOf(header, row) == [(h, CellText(row[h]))] + CellsOf(header[1..], row);
  }

  lemma CellsLiteralCons(header: seq<string>, row: Row, rest: string)
    requires |header| > 1 && HasColumns(header, row)
    ensures Join("; ", CellLiterals(header, row)) + rest
      == CellLiteral(header[0], row[header[0]]) + ("; " + (Join("; ", CellLiterals(header[1..], row)) + rest))
  {
    var lits := CellLiterals(header, row);
    var more := CellLiterals(header[1..], row);
    assert lits == [lits[0]] + more;
    JoinCons("; ", lits[0], more);
    ConcatAssoc(lits[0], "; ", Join("; ", more), rest);
  }

  /** The reader's step over one cell followed by `; `. */
  lemma ParseCellsStep(first: string, tail: string, cell: Cell, cells: seq<Cell>, rest: string)
    requires ParseCell(first + ("; " + tail)) == Some((cell, "; " + tail))
    requires ParseCells(tail) == Some((cells, rest))
    ensures ParseCells(first + ("; " + tail)) == Some(([cell] + cells, rest))
  {
    StartsWithConcat("; ", tail);
    assert ("; " + tail)[2..] == tail;
  }

  lemma ParseRecordRoundTrip(header: seq<string>, row: Row, rest: string)
    requires |header| > 0 && HasColumns(header, row)
    requires forall c :: c in header ==> '\'' !in c && '\'' !in CellText(row[c])
    ensures ParseRecord(RowLiteral(header, row) + rest) == Some((CellsOf(header, row), rest))
  {
    var cells := Join("; ", CellLiterals(header, row));
    ConcatAssoc("@{ ", cells, " }", rest);
    ExpectRoundTrip("@{ ", cells + (" }" + rest));
    ParseCellsRoundTrip(header, row, " }" + rest);
    ExpectRoundTrip(" }", rest);
  }

  lemma QuoteFreeRow(header: seq<string>, rows: seq<Row>, i: nat)
    requires AllHaveColumns(header, rows) && QuoteFree(header, rows) && i < |rows|
    ensures HasColumns(header, rows[i])
    ensures forall c :: c in header ==> '\'' !in c && '\'' !in CellText(rows[i][c])
  {
  }

  lemma QuoteFreeTail(header: seq<string>, rows: seq<Row>)
    requires AllHaveColumns(header, rows) && QuoteFree(header, rows) && |rows| > 0
    ensures AllHaveColumns(header, rows[1..]) && QuoteFree(header, rows[1..])
  {
    forall i, c | 0 <= i < |rows[1..]| && c in header
      ensures c in rows[1..][i] && '\'' !in CellText(rows[1..][i][c])
    {
      assert rows[1..][i] == rows[i + 1];
    }
  }

  lemma {:induction false} ParseRecordsRoundTrip(header: seq<string>, rows: seq<Row>, rest: string)
    requires |header| > 0 && |rows| > 0 && AllHaveColumns(header, rows)
    requires QuoteFree(header, rows)
    requires !StartsWith(rest, ", ")
    ensures ParseRecords(Join(", ", RowLiterals(header, rows)) + rest) == Some((RecordsOf(header, rows), rest))
    decreases |rows|
  {
    if |rows| == 1 {
      ParseLastRecord(header, rows, rest);
    } else {
      QuoteFreeTail(header, rows);
      ParseRecordsRoundTrip(header, rows[1..], rest);
      ParseRecordsCons(header, rows, rest);
    }
  }

  lemma ParseLastRecord(header: seq<string>, rows: seq<Row>, rest: string)
    requires |header| > 0 && |rows| == 1 && AllHaveColumns(header, rows)
    requires QuoteFree(header, rows)
    requires !StartsWith(rest, ", ")
    ensures ParseRecords(Join(", ", RowLiterals(header, rows)) + rest) == Some((RecordsOf(header, rows), rest))
  {
    QuoteFreeRow(header, rows, 0);
    assert Join(", ", RowLiterals(header, rows)) == RowLiteral(header, rows[0]);
    assert RecordsOf(header, rows) == [CellsOf(header, rows[0])];
    ParseRecordRoundTrip(header, rows[0], rest);
  }

  /** One record, `, `, and records the reader already reads back. */
  lemma ParseRecordsCons(header: seq<string>, rows: seq<Row>, rest: string)
    requires |header| > 0 && |rows| > 1 && AllHaveColumns(header, rows)
    requires QuoteFree(header, rows)
    requires AllHaveColumns(header, rows[1..])
    requires ParseRecords(Join(", ", RowLiterals(header, rows[1..])) + rest)
      == Some((RecordsOf(header, rows[1..]), rest))
    ensures ParseRecords(Join(", ", RowLiterals(header, rows)) + rest) == Some((RecordsOf(header, rows), rest))
  {
    QuoteFreeRow(header, rows, 0);
    var first := RowLiteral(header, rows[0]);
    var tail := Join(", ", RowLiterals(header, rows[1..])) + rest;
    RecordsLiteralCons(header, rows, rest);
    ParseRecordRoundTrip(header, rows[0], ", " + tail);
    ParseRecordsStep(first, tail, CellsOf(header, rows[0]), RecordsOf(header, rows[1..]), rest);
    assert RecordsOf(header, rows) == [CellsOf(header, rows[0])] + RecordsOf(header, rows[1..]);
  }

  lemma RecordsLiteralCons(header: seq<string>, rows: seq<Row>, rest: string)
    requires |rows| > 1 && AllHaveColumns(header, rows)
    ensures AllHaveColumns(header, rows[1..])
    ensures Join(", ", RowLiterals(header, rows)) + rest
      == RowLiteral(header, rows[0]) + (", " + (Join(", ", RowLiterals(header, rows[1..])) + rest))
  {
    var lits := RowLiterals(header, rows);
    var more := RowLiterals(header, rows[1..]);
    assert lits == [RowLiteral(header, rows[0])] + more;
    JoinCons(", ", RowLiteral(header, rows[0]), more);
    ConcatAssoc(RowLiteral(header, rows[0]), ", ", Join(", ", more), rest);
  }

  lemma ConcatAssoc(a: string, b: string, c: string, d: string)
    ensures a + b + c + d == a + (b + (c + d))
  {
  }

  /** The reader's step over one record followed by `, `. */
  lemma ParseRecordsStep(first: string, tail: string, record: seq<Cell>, records: seq<seq<Cell>>, rest: string)
    requires ParseRecord(first + (", " + tail)) == Some((record, ", " + tail))
    requires ParseRecords(tail) == Some((records, rest))
    ensures ParseRecords(first + (", " + tail)) == Some(([record] + records, rest))
  {
    StartsWithConcat(", ", tail);
    assert (", " + tail)[2..] == tail;
  }

  /** Reading back the cells of a row gives the row. */
  lemma {:induction false} RowOfCellsOf(header: seq<string>, row: Row)
    requires HasColumns(header, row)
    requires forall c :: c in header && row[c].Some? ==> row[c].value != NullSentinel
    ensures RowOf(CellsOf(header, row)).Keys == Columns(header)
    ensures forall c :: c in header ==> RowOf(CellsOf(header, row))[c] == row[c]
    decreases |header|
  {
    var cells := CellsOf(header, row);
    CellsOfKeys(header, row);
    if |header| > 0 {
      assert HasColumns(header[1..], row);
      RowOfCellsOf(header[1..], row);
      assert cells[1..] == CellsOf(header[1..], row);
      forall c | c in header ensures RowOf(cells)[c] == row[c] {
        if c != header[0] {
          var i :| 0 <= i < |header| && header[i] == c;
          assert header[1..][i - 1] == c;
        } else {
          assert header[0] in header;
        }
      }
    }
  }

  lemma CellsOfKeys(header: seq<string>, row: Row)
    requires HasColumns(header, row)
    ensures RowOf(CellsOf(header, row)).Keys == Columns(header)
  {
    var cells := CellsOf(header, row);
    forall c | c in Columns(header) ensures c in RowOf(cells).Keys {
      var i :| 0 <= i < |header| && header[i] == c;
      assert cells[i].0 == c;
    }
  }

  lemma RowOfKeys(t: Table, i: nat)
    requires Unambiguous(t) && i < |t.rows|
    ensures RowOf(CellsOf(t.header, t.rows[i])) == t.rows[i]
  {
    var row := t.rows[i];
    RowOfCellsOf(t.header, row);
    assert row.Keys == Columns(t.header);
  }

  lemma RowsOfRecordsOf(t: Table)
    requires Unambiguous(t)
    ensures RowsOf(RecordsOf(t.header, t.rows)) == t.rows
  {
    var rows := RowsOf(RecordsOf(t.header, t.rows));
    forall i | 0 <= i < |t.rows| ensures rows[i] == t.rows[i] {
      RowOfKeys(t, i);
    }
  }

  /** The rows segment, followed by the table's closing ` }`, reads back as
      the cells of every row. */
  lemma ParseRowsRoundTrip(t: Table)
    requires Unambiguous(t)
    ensures ParseRows(RowsSegment(t) + " }") == Some((RecordsOf(t.header, t.rows), " }"))
  {
    assert !StartsWith(" }", ", ") by {
      assert " }"[..2][0] != (", ")[0];
    }
    if |t.rows| == 0 {
      var s := RowsSegment(t) + " }";
      assert s == " }";
      assert !StartsWith(s, ",") && !StartsWith(s, "@") by {
        assert s[0] == ' ';
      }
    } else if |t.rows| == 1 {
      ParseOneRow(t);
    } else {
      ParseSeveralRows(t);
    }
  }

  lemma ParseOneRow(t: Table)
    requires Unambiguous(t) && |t.rows| == 1 && !StartsWith(" }", ", ")
    ensures ParseRows(RowsSegment(t) + " }") == Some((RecordsOf(t.header, t.rows), " }"))
  {
    var s := RowsSegment(t) + " }";
    var joined := Join(", ", RowLiterals(t.header, t.rows));
    assert StartsWith(s, ",") && s[1..] == joined + " }";
    ParseRecordsRoundTrip(t.header, t.rows, " }");
  }

  lemma ParseSeveralRows(t: Table)
    requires Unambiguous(t) && |t.rows| >= 2 && !StartsWith(" }", ", ")
    ensures ParseRows(RowsSegment(t) + " }") == Some((RecordsOf(t.header, t.rows), " }"))
  {
    var s := RowsSegment(t) + " }";
    SeveralRowsOpenWithRecord(t);
    assert s[0] == '@';
    assert !StartsWith(s, ",") && StartsWith(s, "@");
    assert s == Join(", ", RowLiterals(t.header, t.rows)) + " }";
    ParseRecordsRoundTrip(t.header, t.rows, " }");
  }

  lemma RegroupLiteral(j: string, seg: string)
    ensures "@{ Header = '" + j + "'; Rows = " + seg + " }"
      == "@{ Header = " + ("'" + j + "'" + ("; Rows = " + (seg + " }")))
  {
    assert "@{ Header = '" == "@{ Header = " + "'";
    assert "'; Rows = " == "'" + "; Rows = ";
  }

  /** The literal with its opening `@{ Header = ` taken off. */
  lemma DescribeTableDataHead(t: Table)
    ensures Expect(DescribeTableData(t), "@{ Header = ")
      == Some("'" + Join("', '", t.header) + "'" + ("; Rows = " + (RowsSegment(t) + " }")))
  {
    var s1 := "'" + Join("', '", t.header) + "'" + ("; Rows = " + (RowsSegment(t) + " }"));
    var s := DescribeTableData(t);
    RegroupLiteral(Join("', '", t.header), RowsSegment(t));
    assert s == "@{ Header = " + s1;
    assert s[..|"@{ Header = "|] == "@{ Header = ";
    assert s[|"@{ Header = "|..] == s1;
  }

  /** The header names read back, up to the rows segment. */
  lemma ParseHeaderRoundTrip(t: Table)
    requires Unambiguous(t)
    ensures var s2 := "; Rows = " + (RowsSegment(t) + " }");
      && ParseNames("'" + Join("', '", t.header) + "'" + s2) == Some((t.header, s2))
      && Expect(s2, "; Rows = ") == Some(RowsSegment(t) + " }")
  {
    var s3 := RowsSegment(t) + " }";
    var s2 := "; Rows = " + s3;
    assert s2[0] == ';';
    ParseNamesRoundTrip(t.header, s2);
    assert s2[..|"; Rows = "|] == "; Rows = ";
    assert s2[|"; Rows = "|..] == s3;
  }

  /** Reading back the literal of an unambiguous table gives the table. */
  lemma DescribeTableDataRoundTrip(t: Table)
    requires Unambiguous(t)
    ensures ParseTable(DescribeTableData(t)) == Some(t)
  {
    DescribeTableDataHead(t);
    ParseHeaderRoundTrip(t);
    ParseRowsRoundTrip(t);
    RowsOfRecordsOf(t);
  }
}
