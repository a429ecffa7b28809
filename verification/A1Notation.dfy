/**
 * A1 ranges such as "B5:D10" and the GridRange the helper derives from them
 * when it colours a range: zero-based, end-exclusive row and column indexes in
 * the sense of the Google Sheets API v4.
 */
module A1Notation {
  import opened Wrappers
  import opened PhpStrings
  import opened ColumnLetters

  /** The range a repeatCell request addresses: rows and columns start at 0, ends are exclusive. */
  datatype GridRange = GridRange(
    sheetId: int,
    startRowIndex: int,
    endRowIndex: int,
    startColumnIndex: int,
    endColumnIndex: int)

  /** The length of the run of letters `s` starts with. */
  function LeadingLetters(s: string): (k: nat)
    ensures k <= |s| && IsLabel(s[..k])
    ensures k < |s| ==> !IsLetter(s[k])
  {
    if s == [] || !IsLetter(s[0]) then 0
    else
      var k := 1 + LeadingLetters(s[1..]);
      assert s[..k] == [s[0]] + s[1..][..k - 1];
      k
  }

  /** A cell reference such as "B5" or "AZ10": one or more letters, then one or more digits. */
  predicate IsCellRef(s: string)
  {
    var k := LeadingLetters(s);
    0 < k < |s| && IsDigits(s[k..])
  }

  /** A range of two cell references separated by ':'; the second may be left empty ("B5:"). */
  predicate IsA1Range(range: string)
  {
    var parts := Explode(range, ':');
    |parts| >= 2 && IsCellRef(parts[0]) && (parts[1] == "" || IsCellRef(parts[1]))
  }

  /** The digit filters split a cell reference into its column letters and its row digits. */
  lemma CellRefSplits(s: string)
    requires IsCellRef(s)
    ensures StripDigits(s) == s[..LeadingLetters(s)] && IsLabel(StripDigits(s))
    ensures KeepDigits(s) == s[LeadingLetters(s)..]
  {
    var k := LeadingLetters(s);
    assert s == s[..k] + s[k..];
    FiltersSplit(s[..k], s[k..]);
  }

  /**
   * The grid range the helper's colorRange builds from the configured A1 range:
   * the first part's letters and digits give the start column and row, the
   * second part's the end; an empty second part reuses the start row.
   */
  function GridRangeOf(range: string, sheetId: int): GridRange
    requires IsA1Range(range)
  {
    var ranges := Explode(range, ':');
    CellRefSplits(ranges[0]);
    var columnStartLetters := StripDigits(ranges[0]);
    var columnEndLetters := StripDigits(ranges[1]);
    assert IsLabel(columnEndLetters) by {
      if ranges[1] != "" { CellRefSplits(ranges[1]); }
    }
    var rowStart := KeepDigits(ranges[0]);
    var rowEnd := if !Empty(Some(ranges[1])) then KeepDigits(ranges[1]) else rowStart;
    GridRange(
      sheetId,
      NumericValue(rowStart) - 1,
      NumericValue(rowEnd),
      ColumnIndex(columnStartLetters) - 1,
      ColumnIndex(columnEndLetters))
  }

  /** Column letters followed by a row number form a cell reference whose letters are exactly the column. */
  lemma {:induction false} CellRefOf(column: string, row: nat)
    requires IsLabel(column) && |column| >= 1
    ensures IsCellRef(column + Decimal(row))
    ensures LeadingLetters(column + Decimal(row)) == |column|
    ensures ':' !in column + Decimal(row)
  {
    var s := column + Decimal(row);
    LeadingLettersOf(column, Decimal(row));
    assert s[|column|..] == Decimal(row);
  }

  /** The digit filters recover the column and the row number from "C1R1". */
  lemma CellParts(column: string, row: nat)
    requires IsLabel(column)
    ensures StripDigits(column + Decimal(row)) == column
    ensures KeepDigits(column + Decimal(row)) == Decimal(row)
    ensures NumericValue(Decimal(row)) == row
  {
    FiltersSplit(column, Decimal(row));
    NumericValueOfDecimal(row);
  }

  lemma {:induction false} LeadingLettersOf(column: string, digits: string)
    requires IsLabel(column) && IsDigits(digits) && |digits| >= 1
    ensures LeadingLetters(column + digits) == |column|
  {
    if column == [] {
      assert column + digits == digits;
    } else {
      assert (column + digits)[1..] == column[1..] + digits;
      LeadingLettersOf(column[1..], digits);
    }
  }

  /**
   * A range "C1R1:C2R2" becomes rows R1-1 up to R2 and columns
   * ColumnIndex(C1)-1 up to ColumnIndex(C2), ends exclusive.
   */
  lemma CellsToGridRange(c1: string, r1: nat, c2: string, r2: nat, sheetId: int)
    requires IsLabel(c1) && |c1| >= 1 && IsLabel(c2) && |c2| >= 1
    ensures IsA1Range(c1 + Decimal(r1) + ":" + c2 + Decimal(r2))
    ensures GridRangeOf(c1 + Decimal(r1) + ":" + c2 + Decimal(r2), sheetId)
         == GridRange(sheetId, r1 - 1, r2, ColumnIndex(c1) - 1, ColumnIndex(c2))
  {
    var first, second := c1 + Decimal(r1), c2 + Decimal(r2);
    assert c1 + Decimal(r1) + ":" + c2 + Decimal(r2) == first + [':'] + second;
    CellOf(c1, r1);
    CellOf(c2, r2);
    CellPairToGridRange(first, second, sheetId);
  }

  /** "C1R1" is a cell reference whose column part is C1 and whose row part reads as R1. */
  lemma CellOf(column: string, row: nat)
    requires IsLabel(column) && |column| >= 1
    ensures IsCellRef(column + Decimal(row)) && ':' !in column + Decimal(row)
    ensures var s, k := column + Decimal(row), LeadingLetters(column + Decimal(row));
      s[..k] == column && IsDigits(s[k..]) && NumericValue(s[k..]) == row
  {
    var s := column + Decimal(row);
    CellRefOf(column, row);
    assert s[..|column|] == column && s[|column|..] == Decimal(row);
    NumericValueOfDecimal(row);
  }

  /** Two cell references joined by ':' give the grid range of their letters and digits. */
  lemma CellPairToGridRange(first: string, second: string, sheetId: int)
    requires IsCellRef(first) && IsCellRef(second)
    requires ':' !in first && ':' !in second
    ensures IsA1Range(first + [':'] + second)
    ensures var k1, k2 := LeadingLetters(first), LeadingLetters(second);
      GridRangeOf(first + [':'] + second, sheetId)
      == GridRange(sheetId,
                   NumericValue(first[k1..]) - 1, NumericValue(second[k2..]),
                   ColumnIndex(first[..k1]) - 1, ColumnIndex(second[..k2]))
  {
    var range := first + [':'] + second;
    ExplodeTwo(first, ':', second);
    CellRefSplits(first);
    CellRefSplits(second);
    assert !Empty(Some(second)) by {
      assert IsLetter(second[0]);
    }
    var k1, k2 := LeadingLetters(first), LeadingLetters(second);
    var g := GridRangeOf(range, sheetId);
    assert g.startRowIndex == NumericValue(first[k1..]) - 1;
    assert g.endRowIndex == NumericValue(second[k2..]);
    assert g.startColumnIndex == ColumnIndex(first[..k1]) - 1;
    assert g.endColumnIndex == ColumnIndex(second[..k2]);
  }

  /** A range "C1R1:" with nothing after the colon covers the single row R1 and has end column 0. */
  lemma OpenEndToGridRange(c1: string, r1: nat, sheetId: int)
    requires IsLabel(c1) && |c1| >= 1
    ensures IsA1Range(c1 + Decimal(r1) + ":")
    ensures GridRangeOf(c1 + Decimal(r1) + ":", sheetId)
         == GridRange(sheetId, r1 - 1, r1, ColumnIndex(c1) - 1, 0)
  {
    var first := c1 + Decimal(r1);
    var range := c1 + Decimal(r1) + ":";
    assert range == first + [':'] + "";
    CellRefOf(c1, r1);
    ExplodeAt(first, ':', "");
    ExplodeWhole("", ':');
    assert Explode(range, ':') == [first, ""];
    CellParts(c1, r1);
  }

  /**
   * When the start cell is not below or right of the end cell, the grid range is
   * non-empty on both axes and spans exactly the rows and columns named.
   */
  lemma OrderedRangeIsNonEmpty(c1: string, r1: nat, c2: string, r2: nat, sheetId: int)
    requires IsLabel(c1) && |c1| >= 1 && IsLabel(c2) && |c2| >= 1
    requires r1 <= r2 && ColumnIndex(c1) <= ColumnIndex(c2)
    ensures IsA1Range(c1 + Decimal(r1) + ":" + c2 + Decimal(r2))
    ensures var g := GridRangeOf(c1 + Decimal(r1) + ":" + c2 + Decimal(r2), sheetId);
      g.startRowIndex < g.endRowIndex && g.startColumnIndex < g.endColumnIndex &&
      g.endRowIndex - g.startRowIndex == r2 - r1 + 1 &&
      g.endColumnIndex - g.startColumnIndex == ColumnIndex(c2) - ColumnIndex(c1) + 1
  {
    CellsToGridRange(c1, r1, c2, r2, sheetId);
  }

  /** The range of the helper's colour test, "A1:Z10": the first ten rows of columns A to Z. */
  lemma ColourTestRange(sheetId: int)
    ensures IsA1Range("A1:Z10") && GridRangeOf("A1:Z10", sheetId) == GridRange(sheetId, 0, 10, 0, 26)
  {
    assert Decimal(1) == "1";
    assert Decimal(10) == Decimal(1) + "0";
    assert "A1:Z10" == "A" + Decimal(1) + ":" + "Z" + Decimal(10);
    CellsToGridRange("A", 1, "Z", 10, sheetId);
  }

  /** "B5:D10" covers rows 4 to 9 and columns 1 to 3, counted from zero. */
  lemma ExampleRange(sheetId: int)
    ensures IsA1Range("B5:D10") && GridRangeOf("B5:D10", sheetId) == GridRange(sheetId, 4, 10, 1, 4)
  {
    assert Decimal(5) == "5";
    assert Decimal(10) == Decimal(1) + "0";
    assert "B5:D10" == "B" + Decimal(5) + ":" + "D" + Decimal(10);
    CellsToGridRange("B", 5, "D", 10, sheetId);
  }

  /**
   * The column numbers do not follow label order, and the grid range carries
   * them unchanged: "A1:AA10" covers only columns A and B.
   */
  lemma DoubledLetterEndColumn(sheetId: int)
    ensures IsA1Range("A1:AA10") && GridRangeOf("A1:AA10", sheetId) == GridRange(sheetId, 0, 10, 0, 2)
  {
    assert Decimal(1) == "1";
    assert Decimal(10) == Decimal(1) + "0";
    assert "A1:AA10" == "A" + Decimal(1) + ":" + "AA" + Decimal(10);
    CellsToGridRange("A", 1, "AA", 10, sheetId);
    DoubledA();
  }

  /** "Z1:AA1" names columns Z to AA, yet its column span is inverted: it starts at 25 and ends at 2. */
  lemma InvertedColumnSpan(sheetId: int)
    ensures IsA1Range("Z1:AA1")
    ensures GridRangeOf("Z1:AA1", sheetId).startColumnIndex == 25
    ensures GridRangeOf("Z1:AA1", sheetId).endColumnIndex == 2
  {
    assert Decimal(1) == "1";
    assert "Z1:AA1" == "Z" + Decimal(1) + ":" + "AA" + Decimal(1);
    CellsToGridRange("Z", 1, "AA", 1, sheetId);
    DoubledA();
  }
}
