/**
 * The Google Sheets helper object: its configuration fields with their setters
 * and getters, the column-letter conversion, and the request parameters each
 * API operation computes (and the checks it makes) before calling the Sheets
 * client. The client calls themselves are outside the model.
 */
module GoogleSheetsApi {
  import opened Wrappers
  import opened PhpStrings
  import opened ColumnLetters
  import opened A1Notation

  /** The exceptions the helper throws before reaching the Sheets client. */
  datatype Error =
    | NoTitle
    | NoSpreadsheetId
    | NoRange
    | NoValue
    | NoCell
    | RgbNotConfigured

  function Message(e: Error): string
  {
    match e
    case NoTitle => "You have to set a title for the new Spreadsheet."
    case NoSpreadsheetId => "There's no ID spreadsheet set."
    case NoRange => "There's no spreadsheet range set."
    case NoValue => "There's no value to set."
    case NoCell => "There's no cell to set a range."
    case RgbNotConfigured => "RGB not correctly configured"
  }

  /** The arguments of a spreadsheets_values->get call. */
  datatype ValuesGet = ValuesGet(spreadsheetId: string, range: string)

  /** The arguments of a spreadsheets_values->update call. */
  datatype ValuesUpdate = ValuesUpdate(
    spreadsheetId: Option<string>,
    range: string,
    values: seq<seq<string>>,
    valueInputOption: Option<string>)

  /** The range updateSingleCell writes to: "<worksheet>!<cell>:<first character of cell>". */
  function SingleCellRange(worksheetName: Option<string>, cell: string): string
    requires |cell| >= 1
  {
    Interpolate(worksheetName) + "!" + cell + ":" + [cell[0]]
  }

  /**
   * The single-cell range splits back, at '!' and then at ':', into the
   * worksheet name, the cell, and the cell's first character.
   */
  lemma SingleCellRangeSplits(worksheetName: string, cell: string)
    requires |cell| >= 1
    requires '!' !in worksheetName && '!' !in cell && ':' !in cell
    ensures Explode(SingleCellRange(Some(worksheetName), cell), '!') == [worksheetName, cell + ":" + [cell[0]]]
    ensures Explode(cell + ":" + [cell[0]], ':') == [cell, [cell[0]]]
  {
    var target := cell + ":" + [cell[0]];
    NoSeparatorInTarget(cell);
    SingleCellRangeShape(worksheetName, cell);
    ExplodeTwo(worksheetName, '!', target);
    CellAndColumn(cell);
  }

  lemma SingleCellRangeShape(worksheetName: string, cell: string)
    requires |cell| >= 1
    ensures SingleCellRange(Some(worksheetName), cell) == worksheetName + ['!'] + (cell + ":" + [cell[0]])
  {
  }

  lemma NoSeparatorInTarget(cell: string)
    requires |cell| >= 1 && '!' !in cell
    ensures '!' !in cell + ":" + [cell[0]]
  {
    assert cell[0] in cell;
  }

  lemma CellAndColumn(cell: string)
    requires |cell| >= 1 && ':' !in cell
    ensures Explode(cell + ":" + [cell[0]], ':') == [cell, [cell[0]]]
  {
    assert cell[0] in cell;
    ExplodeTwo(cell, ':', [cell[0]]);
    assert cell + ":" + [cell[0]] == cell + [':'] + [cell[0]];
  }

  lemma OneMoreTerm(count: int, term: int)
    ensures (count + 1) * term == count * term + term
  {
  }

  class Helper {
    /** The ID of the spreadsheet in use. */
    var spreadsheetId: Option<string>
    /** The name of the worksheet in use. */
    var worksheetName: Option<string>
    /** The A1 range in use, such as "A1:F5". */
    var range: Option<string>
    /** How the API interprets written values: "RAW" or "USER_ENTERED". */
    var valueInputOption: Option<string>

    /** A fresh helper: nothing configured yet, values written as entered ("RAW"). */
    constructor ()
      ensures spreadsheetId == None && worksheetName == None && range == None
      ensures valueInputOption == Some("RAW")
    {
      spreadsheetId := None;
      worksheetName := None;
      range := None;
      valueInputOption := Some("RAW");
    }

    function GetSpreadsheetId(): Option<string>
      reads this
    {
      spreadsheetId
    }

    function GetSpreadsheetRange(): Option<string>
      reads this
    {
      range
    }

    function GetWorksheetName(): Option<string>
      reads this
    {
      worksheetName
    }

    function GetValueInputOption(): Option<string>
      reads this
    {
      valueInputOption
    }

    method SetSpreadsheetId(spreadsheetId: Option<string>)
      modifies this`spreadsheetId
      ensures GetSpreadsheetId() == spreadsheetId
      ensures GetSpreadsheetRange() == old(GetSpreadsheetRange())
      ensures GetWorksheetName() == old(GetWorksheetName())
      ensures GetValueInputOption() == old(GetValueInputOption())
    {
      this.spreadsheetId := spreadsheetId;
    }

    method SetSpreadsheetRange(range: Option<string>)
      modifies this`range
      ensures GetSpreadsheetRange() == range
      ensures GetSpreadsheetId() == old(GetSpreadsheetId())
      ensures GetWorksheetName() == old(GetWorksheetName())
      ensures GetValueInputOption() == old(GetValueInputOption())
    {
      this.range := range;
    }

    method SetWorksheetName(worksheetName: Option<string>)
      modifies this`worksheetName
      ensures GetWorksheetName() == worksheetName
      ensures GetSpreadsheetId() == old(GetSpreadsheetId())
      ensures GetSpreadsheetRange() == old(GetSpreadsheetRange())
      ensures GetValueInputOption() == old(GetValueInputOption())
    {
      this.worksheetName := worksheetName;
    }

    method SetValueInputOption(valueInputOption: Option<string>)
      modifies this`valueInputOption
      ensures GetValueInputOption() == valueInputOption
      ensures GetSpreadsheetId() == old(GetSpreadsheetId())
      ensures GetSpreadsheetRange() == old(GetSpreadsheetRange())
      ensures GetWorksheetName() == old(GetWorksheetName())
    {
      this.valueInputOption := valueInputOption;
    }

    /**
     * The column number of a label: a single letter is looked up in the
     * alphabet table; longer labels accumulate one term per position, calling
     * itself on the last or on the first letter.
     */
    static method GetColumnLettersIndex(letters: string) returns (index: int)
      requires IsLabel(letters)
      ensures index == ColumnIndex(letters)
      decreases |letters|
    {
      var letterCount := |letters|;
      if letterCount == 1 {
        index := LetterValue(letters[0]);
      } else {
        index := 0;
        var lastElementIndex := letterCount - 1;
        var i := 0;
        ghost var last := if letterCount >= 1 then LetterValue(letters[lastElementIndex]) else 0;
        ghost var other := if letterCount >= 1 then |LETTERS| * LetterValue(letters[0]) else 0;
        ghost var k := 0;
        while i < letterCount
          invariant 0 <= i <= letterCount
          invariant letterCount >= 2 ==> k == Occurrences(letters[..i], letters[lastElementIndex])
          invariant index == k * last + (i - k) * other
        {
          assert letters[..i + 1][..i] == letters[..i];
          if letters[i] == letters[lastElementIndex] {
            var lastValue := GetColumnLettersIndex([letters[lastElementIndex]]);
            assert lastValue == last;
            index := index + lastValue;
            OneMoreTerm(k, last);
            k := k + 1;
          } else {
            var firstValue := GetColumnLettersIndex([letters[0]]);
            assert |LETTERS| * firstValue == other;
            index := index + |LETTERS| * firstValue;
            OneMoreTerm(i - k, other);
          }
          i := i + 1;
        }
        assert letters[..letterCount] == letters;
        assert letterCount >= 2 ==> k == Occurrences(letters, letters[lastElementIndex]);
      }
    }

    /** create: a missing or empty title is refused; otherwise the title is sent. */
    static function CreateRequest(title: Option<string>): (r: Result<string, Error>)
      ensures r.Failure? <==> Empty(title)
      ensures r.Failure? ==> r.error == NoTitle
      ensures r.Success? ==> Some(r.value) == title
    {
      if Empty(title) then Failure(NoTitle) else Success(title.value)
    }

    /** get: refused without a spreadsheet ID, then without a range; otherwise both are sent. */
    function GetRequest(): (r: Result<ValuesGet, Error>)
      reads this
      ensures r.Success? <==> !Empty(spreadsheetId) && !Empty(range)
      ensures Empty(spreadsheetId) ==> r == Failure(NoSpreadsheetId)
      ensures !Empty(spreadsheetId) && Empty(range) ==> r == Failure(NoRange)
      ensures r.Success? ==> Some(r.value.spreadsheetId) == spreadsheetId && Some(r.value.range) == range
    {
      if Empty(GetSpreadsheetId()) then Failure(NoSpreadsheetId)
      else if Empty(GetSpreadsheetRange()) then Failure(NoRange)
      else Success(ValuesGet(GetSpreadsheetId().value, GetSpreadsheetRange().value))
    }

    /** update: the same two checks as get; the values go with the configured input option. */
    function UpdateRequest(newValues: seq<seq<string>>): (r: Result<ValuesUpdate, Error>)
      reads this
      ensures r.Success? <==> !Empty(spreadsheetId) && !Empty(range)
      ensures Empty(spreadsheetId) ==> r == Failure(NoSpreadsheetId)
      ensures !Empty(spreadsheetId) && Empty(range) ==> r == Failure(NoRange)
      ensures r.Success? ==>
        r.value.spreadsheetId == spreadsheetId && Some(r.value.range) == range &&
        r.value.values == newValues && r.value.valueInputOption == valueInputOption
    {
      if Empty(GetSpreadsheetId()) then Failure(NoSpreadsheetId)
      else if Empty(GetSpreadsheetRange()) then Failure(NoRange)
      else Success(ValuesUpdate(GetSpreadsheetId(), GetSpreadsheetRange().value, newValues, GetValueInputOption()))
    }

    /**
     * updateSingleCell: refused when the value, then the cell, is null or "";
     * otherwise the one value is written to the cell's single-cell range in
     * the configured worksheet (the spreadsheet ID is not checked).
     */
    function UpdateSingleCellRequest(cell: Option<string>, value: Option<string>): (r: Result<ValuesUpdate, Error>)
      reads this
      ensures r.Success? <==> !LooselyNull(value) && !LooselyNull(cell)
      ensures LooselyNull(value) ==> r == Failure(NoValue)
      ensures !LooselyNull(value) && LooselyNull(cell) ==> r == Failure(NoCell)
      ensures r.Success? ==>
        |cell.value| >= 1 &&
        r.value.range == SingleCellRange(worksheetName, cell.value) &&
        r.value.values == [[value.value]] &&
        r.value.spreadsheetId == spreadsheetId && r.value.valueInputOption == valueInputOption
    {
      if LooselyNull(value) then Failure(NoValue)
      else if LooselyNull(cell) then Failure(NoCell)
      else Success(ValuesUpdate(GetSpreadsheetId(), SingleCellRange(worksheetName, cell.value),
                                [[value.value]], GetValueInputOption()))
    }

    /** getSpreadsheetWorksheets: refused without a spreadsheet ID; otherwise the ID is sent. */
    function WorksheetsRequest(): (r: Result<string, Error>)
      reads this
      ensures r.Failure? <==> Empty(spreadsheetId)
      ensures r.Failure? ==> r.error == NoSpreadsheetId
      ensures r.Success? ==> Some(r.value) == spreadsheetId
    {
      if Empty(GetSpreadsheetId()) then Failure(NoSpreadsheetId) else Success(GetSpreadsheetId().value)
    }

    /**
     * colorRange up to its batchUpdate: fewer than three colour components are
     * refused; otherwise the configured A1 range becomes the request's grid
     * range in the worksheet `sheetId` (which the helper fetches from the API).
     */
    method ColorRange(rgb: seq<real>, sheetId: int) returns (r: Result<GridRange, Error>)
      requires |rgb| >= 3 ==> range.Some? && IsA1Range(range.value)
      ensures |rgb| < 3 ==> r == Failure(RgbNotConfigured)
      ensures |rgb| >= 3 ==> r == Success(GridRangeOf(range.value, sheetId))
    {
      if |rgb| < 3 {
        return Failure(RgbNotConfigured);
      }
      var ranges := Explode(GetSpreadsheetRange().value, ':');
      CellRefSplits(ranges[0]);
      if ranges[1] != "" {
        CellRefSplits(ranges[1]);
      }
      var columnStartLetters := StripDigits(ranges[0]);
      var columnEndLetters := StripDigits(ranges[1]);
      var rowStart := KeepDigits(ranges[0]);
      var rowEnd := if !Empty(Some(ranges[1])) then KeepDigits(ranges[1]) else rowStart;
      var startColumn := GetColumnLettersIndex(columnStartLetters);
      var endColumn := GetColumnLettersIndex(columnEndLetters);
      r := Success(GridRange(sheetId, NumericValue(rowStart) - 1, NumericValue(rowEnd), startColumn - 1, endColumn));
    }
  }

  /** updateSingleCell("B5", ...) on worksheet "Sheet1" writes to "Sheet1!B5:B". */
  lemma SingleCellTestRange(h: Helper)
    requires h.worksheetName == Some("Sheet1")
    ensures h.UpdateSingleCellRequest(Some("B5"), Some("Hi i'm a test!")).Success?
    ensures h.UpdateSingleCellRequest(Some("B5"), Some("Hi i'm a test!")).value.range == "Sheet1!B5:B"
  {
  }

  /**
   * A fresh helper configured with an ID and a range, as a caller does before
   * get: the request carries exactly those two, and is refused when either is
   * empty in PHP's sense.
   */
  method ConfiguredGet(spreadsheetId: Option<string>, worksheetName: Option<string>, range: Option<string>)
    returns (r: Result<ValuesGet, Error>)
    ensures r.Success? <==> !Empty(spreadsheetId) && !Empty(range)
    ensures Empty(spreadsheetId) ==> r == Failure(NoSpreadsheetId)
    ensures r.Success? ==> r.value == ValuesGet(spreadsheetId.value, range.value)
  {
    var sheet := new Helper();
    sheet.SetSpreadsheetId(spreadsheetId);
    sheet.SetWorksheetName(worksheetName);
    sheet.SetSpreadsheetRange(range);
    r := sheet.GetRequest();
  }

  /** A fresh helper still writes values "RAW" after its ID, worksheet and range are set. */
  method ConfiguredUpdate(spreadsheetId: Option<string>, worksheetName: Option<string>, range: Option<string>,
                          newValues: seq<seq<string>>)
    returns (r: Result<ValuesUpdate, Error>)
    ensures r.Success? <==> !Empty(spreadsheetId) && !Empty(range)
    ensures r.Success? ==> r.value == ValuesUpdate(spreadsheetId, range.value, newValues, Some("RAW"))
  {
    var sheet := new Helper();
    sheet.SetSpreadsheetId(spreadsheetId);
    sheet.SetWorksheetName(worksheetName);
    sheet.SetSpreadsheetRange(range);
    r := sheet.UpdateRequest(newValues);
  }
}
