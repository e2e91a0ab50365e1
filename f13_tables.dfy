/** The tables of scenario `s13` of the generated feature `f13` and the
    literals the recorder writes for them, with the amounts of the
    scenario's three examples. */
module F13Tables {
  import opened Text
  import opened Decimal
  import opened Tables
  import opened Steps

  const FriendColumns: seq<string> := ["Friend Name", "Age", "Gender"]
  const Sam: Row := map["Friend Name" := Some("Sam"), "Age" := Some("45"), "Gender" := Some("Male")]
  const Tom: Row := map["Friend Name" := Some("Tom"), "Age" := Some("18"), "Gender" := Some("Male")]
  /** The table of `Given I have these friends`. */
  const FriendsTable: Table := TableData(FriendColumns, [Sam, Tom])

  const BorrowColumns: seq<string> := ["Friend Name", "Borrow date"]
  const TomBorrowed: Row := map["Friend Name" := Some("Tom"), "Borrow date" := Some("08/13/2016")]
  /** The table of `When I borrow <amount> dollars from`. */
  const BorrowTable: Table := TableData(BorrowColumns, [TomBorrowed])

  const SamRecord: string := "@{ 'Friend Name' = 'Sam'; 'Age' = '45'; 'Gender' = 'Male' }"
  const TomRecord: string := "@{ 'Friend Name' = 'Tom'; 'Age' = '18'; 'Gender' = 'Male' }"
  const TomBorrowedRecord: string := "@{ 'Friend Name' = 'Tom'; 'Borrow date' = '08/13/2016' }"

  // ---------------------------------------------------------------------
  // The table literals

  /** Two rows: no leading comma, the records joined by `, ` in row order. */
  lemma FriendsTableLiteral()
    ensures DescribeTableData(FriendsTable)
      == "@{ Header = 'Friend Name', 'Age', 'Gender'; Rows = " + SamRecord + ", " + TomRecord + " }"
  {
    FriendsHeader();
    FriendsRecords();
    JoinTwo(", ", SamRecord, TomRecord);
    Assoc4("@{ Header = 'Friend Name', 'Age', 'Gender'; Rows = ", SamRecord, ", ", TomRecord);
  }

  lemma FriendsRecords()
    ensures RowLiterals(FriendColumns, [Sam, Tom]) == [SamRecord, TomRecord]
  {
    SamRecordLiteral();
    TomRecordLiteral();
  }

  /** One row: the rows segment is `,` followed by the row's record. */
  lemma BorrowTableLiteral()
    ensures DescribeTableData(BorrowTable)
      == "@{ Header = 'Friend Name', 'Borrow date'; Rows = " + "," + TomBorrowedRecord + " }"
  {
    BorrowHeader();
    TomBorrowedRecordLiteral();
    var records := RowLiterals(BorrowColumns, [TomBorrowed]);
    assert records == [TomBorrowedRecord];
  }

  lemma FriendsHeader()
    ensures "@{ Header = '" + Join("', '", FriendColumns) + "'; Rows = " == "@{ Header = 'Friend Name', 'Age', 'Gender'; Rows = "
  {
    JoinThree("', '", "Friend Name", "Age", "Gender");
    FriendsHeaderPiecesHead();
    FriendsHeaderPiecesMiddle();
    FriendsHeaderPiecesTail();
    Regroup7("@{ Header = '", "Friend Name", "', '", "Age", "', '", "Gender", "'; Rows = ");
  }

  lemma BorrowHeader()
    ensures "@{ Header = '" + Join("', '", BorrowColumns) + "'; Rows = " == "@{ Header = 'Friend Name', 'Borrow date'; Rows = "
  {
    JoinTwo("', '", "Friend Name", "Borrow date");
    BorrowHeaderPiecesHead();
    BorrowHeaderPiecesTail();
    Regroup5("@{ Header = '", "Friend Name", "', '", "Borrow date", "'; Rows = ");
  }

  lemma SamRecordLiteral()
    ensures RowLiteral(FriendColumns, Sam) == SamRecord
  {
    assert CellLiterals(FriendColumns, Sam) == ["'Friend Name' = 'Sam'", "'Age' = '45'", "'Gender' = 'Male'"] by {
      SamCells();
    }
    JoinThree("; ", "'Friend Name' = 'Sam'", "'Age' = '45'", "'Gender' = 'Male'");
    SamRecordPiecesHead();
    SamRecordPiecesMiddle();
    SamRecordPiecesTail();
    Regroup7("@{ ", "'Friend Name' = 'Sam'", "; ", "'Age' = '45'", "; ", "'Gender' = 'Male'", " }");
  }

  lemma TomRecordLiteral()
    ensures RowLiteral(FriendColumns, Tom) == TomRecord
  {
    assert CellLiterals(FriendColumns, Tom) == ["'Friend Name' = 'Tom'", "'Age' = '18'", "'Gender' = 'Male'"] by {
      TomCells();
    }
    JoinThree("; ", "'Friend Name' = 'Tom'", "'Age' = '18'", "'Gender' = 'Male'");
    TomRecordPiecesHead();
    TomRecordPiecesMiddle();
    TomRecordPiecesTail();
    Regroup7("@{ ", "'Friend Name' = 'Tom'", "; ", "'Age' = '18'", "; ", "'Gender' = 'Male'", " }");
  }

  lemma TomBorrowedRecordLiteral()
    ensures RowLiteral(BorrowColumns, TomBorrowed) == TomBorrowedRecord
  {
    assert CellLiterals(BorrowColumns, TomBorrowed) == ["'Friend Name' = 'Tom'", "'Borrow date' = '08/13/2016'"] by {
      TomBorrowedCells();
    }
    JoinTwo("; ", "'Friend Name' = 'Tom'", "'Borrow date' = '08/13/2016'");
    TomBorrowedRecordPiecesHead();
    TomBorrowedRecordPiecesSecond();
    TomBorrowedRecordPiecesThird();
    TomBorrowedRecordPiecesTail();
    BorrowDateCellPieces();
    RegroupCell("@{ ", "'Friend Name' = 'Tom'", "; ", "'Borrow date' = '08/13/2016'", "'Borrow date'", " = '", "08/13/2016", "'", " }");
  }

  lemma SamCells()
    ensures CellLiteral("Friend Name", Some("Sam")) == "'Friend Name' = 'Sam'"
    ensures CellLiteral("Age", Some("45")) == "'Age' = '45'"
    ensures CellLiteral("Gender", Some("Male")) == "'Gender' = 'Male'"
  {
  }

  lemma TomCells()
    ensures CellLiteral("Friend Name", Some("Tom")) == "'Friend Name' = 'Tom'"
    ensures CellLiteral("Age", Some("18")) == "'Age' = '18'"
    ensures CellLiteral("Gender", Some("Male")) == "'Gender' = 'Male'"
  {
  }

  lemma TomBorrowedCells()
    ensures CellLiteral("Friend Name", Some("Tom")) == "'Friend Name' = 'Tom'"
    ensures CellLiteral("Borrow date", Some("08/13/2016")) == "'Borrow date' = '08/13/2016'"
  {
  }

  // The literals above, built up piece by piece.

  /** The header part of the friends table literal. */
  lemma FriendsHeaderPiecesHead()
    ensures "@{ Header = 'Friend Name" == "@{ Header = '" + "Friend Name"
    ensures "@{ Header = 'Friend Name', '" == "@{ Header = 'Friend Name" + "', '"
  {
  }

  lemma FriendsHeaderPiecesMiddle()
    ensures "@{ Header = 'Friend Name', 'Age" == "@{ Header = 'Friend Name', '" + "Age"
    ensures "@{ Header = 'Friend Name', 'Age', '" == "@{ Header = 'Friend Name', 'Age" + "', '"
  {
  }

  lemma FriendsHeaderPiecesTail()
    ensures "@{ Header = 'Friend Name', 'Age', 'Gender" == "@{ Header = 'Friend Name', 'Age', '" + "Gender"
    ensures "@{ Header = 'Friend Name', 'Age', 'Gender'; Rows = " == "@{ Header = 'Friend Name', 'Age', 'Gender" + "'; Rows = "
  {
  }

  /** The header part of the borrow table literal. */
  lemma BorrowHeaderPiecesHead()
    ensures "@{ Header = 'Friend Name" == "@{ Header = '" + "Friend Name"
    ensures "@{ Header = 'Friend Name', '" == "@{ Header = 'Friend Name" + "', '"
  {
  }

  lemma BorrowHeaderPiecesTail()
    ensures "@{ Header = 'Friend Name', 'Borrow date" == "@{ Header = 'Friend Name', '" + "Borrow date"
    ensures "@{ Header = 'Friend Name', 'Borrow date'; Rows = " == "@{ Header = 'Friend Name', 'Borrow date" + "'; Rows = "
  {
  }

  /** Sam's record. */
  lemma SamRecordPiecesHead()
    ensures "@{ 'Friend Name' = 'Sam'" == "@{ " + "'Friend Name' = 'Sam'"
    ensures "@{ 'Friend Name' = 'Sam'; " == "@{ 'Friend Name' = 'Sam'" + "; "
  {
  }

  lemma SamRecordPiecesMiddle()
    ensures "@{ 'Friend Name' = 'Sam'; 'Age' = '45'" == "@{ 'Friend Name' = 'Sam'; " + "'Age' = '45'"
    ensures "@{ 'Friend Name' = 'Sam'; 'Age' = '45'; " == "@{ 'Friend Name' = 'Sam'; 'Age' = '45'" + "; "
  {
  }

  lemma SamRecordPiecesTail()
    ensures "@{ 'Friend Name' = 'Sam'; 'Age' = '45'; 'Gender' = 'Male'" == "@{ 'Friend Name' = 'Sam'; 'Age' = '45'; " + "'Gender' = 'Male'"
    ensures "@{ 'Friend Name' = 'Sam'; 'Age' = '45'; 'Gender' = 'Male' }" == "@{ 'Friend Name' = 'Sam'; 'Age' = '45'; 'Gender' = 'Male'" + " }"
  {
  }

  /** Tom's record in the friends table. */
  lemma TomRecordPiecesHead()
    ensures "@{ 'Friend Name' = 'Tom'" == "@{ " + "'Friend Name' = 'Tom'"
    ensures "@{ 'Friend Name' = 'Tom'; " == "@{ 'Friend Name' = 'Tom'" + "; "
  {
  }

  lemma TomRecordPiecesMiddle()
    ensures "@{ 'Friend Name' = 'Tom'; 'Age' = '18'" == "@{ 'Friend Name' = 'Tom'; " + "'Age' = '18'"
    ensures "@{ 'Friend Name' = 'Tom'; 'Age' = '18'; " == "@{ 'Friend Name' = 'Tom'; 'Age' = '18'" + "; "
  {
  }

  lemma TomRecordPiecesTail()
    ensures "@{ 'Friend Name' = 'Tom'; 'Age' = '18'; 'Gender' = 'Male'" == "@{ 'Friend Name' = 'Tom'; 'Age' = '18'; " + "'Gender' = 'Male'"
    ensures "@{ 'Friend Name' = 'Tom'; 'Age' = '18'; 'Gender' = 'Male' }" == "@{ 'Friend Name' = 'Tom'; 'Age' = '18'; 'Gender' = 'Male'" + " }"
  {
  }

  /** Tom's record in the borrow table. */
  lemma TomBorrowedRecordPiecesHead()
    ensures "@{ 'Friend Name' = 'Tom'" == "@{ " + "'Friend Name' = 'Tom'"
    ensures "@{ 'Friend Name' = 'Tom'; " == "@{ 'Friend Name' = 'Tom'" + "; "
  {
  }

  lemma TomBorrowedRecordPiecesSecond()
    ensures "@{ 'Friend Name' = 'Tom'; 'Borrow date'" == "@{ 'Friend Name' = 'Tom'; " + "'Borrow date'"
    ensures "@{ 'Friend Name' = 'Tom'; 'Borrow date' = '" == "@{ 'Friend Name' = 'Tom'; 'Borrow date'" + " = '"
  {
  }

  lemma TomBorrowedRecordPiecesThird()
    ensures "@{ 'Friend Name' = 'Tom'; 'Borrow date' = '08/13/2016" == "@{ 'Friend Name' = 'Tom'; 'Borrow date' = '" + "08/13/2016"
    ensures "@{ 'Friend Name' = 'Tom'; 'Borrow date' = '08/13/2016'" == "@{ 'Friend Name' = 'Tom'; 'Borrow date' = '08/13/2016" + "'"
  {
  }

  lemma TomBorrowedRecordPiecesTail()
    ensures "@{ 'Friend Name' = 'Tom'; 'Borrow date' = '08/13/2016' }" == "@{ 'Friend Name' = 'Tom'; 'Borrow date' = '08/13/2016'" + " }"
  {
  }

  /** The borrow date cell of Tom's record. */
  lemma BorrowDateCellPieces()
    ensures "'Borrow date' = '" == "'Borrow date'" + " = '"
    ensures "'Borrow date' = '08/13/2016" == "'Borrow date' = '" + "08/13/2016"
    ensures "'Borrow date' = '08/13/2016'" == "'Borrow date' = '08/13/2016" + "'"
  {
  }
  // ---------------------------------------------------------------------
  // The example amounts

  /** The three amounts render as the digits the examples give. */
  lemma AmountsRender()
    ensures FormatInt(42) == "42"
    ensures FormatInt(1923) == "1923"
    ensures FormatInt(1000000) == "1000000"
  {
  }

  /** The borrow step of the 1923 example shows the amount as a wrapped
      argument, and its one-row table has the leading comma before its
      only record. */
  lemma BorrowLineShowsAmount()
    ensures Contains(StepLine(Steps.BorrowDollarsFrom(1923, BorrowTable)), "Argument(1923)")
    ensures RowsSegment(BorrowTable) == "," + TomBorrowedRecord
  {
    AmountsRender();
    AmountArgument();
    BorrowShowsArgument(1923, "1923", BorrowTable);
    BorrowRowsSegment();
  }

  lemma AmountArgument()
    ensures "Argument(" + "1923" + ")" == "Argument(1923)"
  {
  }

  lemma BorrowShowsArgument(amount: Int32, digits: string, table: Table)
    requires FormatInt(amount) == digits
    ensures Contains(StepLine(Steps.BorrowDollarsFrom(amount, table)), "Argument(" + digits + ")")
  {
    ArgumentsAppearWrapped(Steps.BorrowDollarsFrom(amount, table), 0);
  }

  lemma BorrowRowsSegment()
    ensures RowsSegment(BorrowTable) == "," + TomBorrowedRecord
  {
    SingleRowSegment(BorrowTable);
    TomBorrowedRecordLiteral();
  }

  /** Both tables of the example can be read back from their literals. */
  lemma FriendsTableUnambiguous()
    ensures Unambiguous(FriendsTable)
  {
    FriendRowsReadable();
    UnambiguousByRows(FriendsTable);
  }

  lemma BorrowTableUnambiguous()
    ensures Unambiguous(BorrowTable)
  {
    BorrowColumnsReadable();
    UnambiguousByRows(BorrowTable);
  }

  lemma FriendColumnsReadable()
    ensures forall c :: c in FriendColumns ==> '\'' !in c
    ensures RowReadable(FriendColumns, Sam) && RowReadable(FriendColumns, Tom)
  {
  }

  lemma FriendRowsReadable()
    ensures |FriendsTable.header| > 0 && forall c :: c in FriendsTable.header ==> '\'' !in c
    ensures forall i :: 0 <= i < |FriendsTable.rows| ==> RowReadable(FriendsTable.header, FriendsTable.rows[i])
  {
    FriendColumnsReadable();
    assert FriendsTable.rows == [Sam, Tom];
  }

  lemma BorrowColumnsReadable()
    ensures forall c :: c in BorrowColumns ==> '\'' !in c
    ensures RowReadable(BorrowColumns, TomBorrowed)
  {
  }

  lemma JoinTwo(sep: string, a: string, b: string)
    ensures Join(sep, [a, b]) == a + sep + b
  {
    JoinCons(sep, a, [b]);
    assert [a] + [b] == [a, b];
  }

  lemma JoinThree(sep: string, a: string, b: string, c: string)
    ensures Join(sep, [a, b, c]) == a + sep + (b + sep + c)
  {
    JoinTwo(sep, b, c);
    JoinCons(sep, a, [b, c]);
    assert [a] + [b, c] == [a, b, c];
  }

  lemma Regroup5(a: string, b: string, c: string, d: string, e: string)
    ensures a + (b + c + d) + e == a + b + c + d + e
  {
  }

  lemma RegroupCell(a: string, b: string, c: string, d: string,
                    d1: string, d2: string, d3: string, d4: string, e: string)
    requires d == d1 + d2 + d3 + d4
    ensures a + (b + c + d) + e == a + b + c + d1 + d2 + d3 + d4 + e
  {
  }

  lemma Regroup7(a: string, b: string, c: string, d: string, e: string, f: string, g: string)
    ensures a + (b + c + (d + e + f)) + g == a + b + c + d + e + f + g
  {
  }

  lemma Assoc4(a: string, b: string, c: string, d: string)
    ensures a + (b + c + d) == a + b + c + d
  {
  }
}
