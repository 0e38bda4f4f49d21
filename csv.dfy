/** The CSV reader inside `RealDataService.fetchRealData` (lib/mongodb.ts):
    the text is trimmed and cut into lines, the first line gives the
    trimmed column names, and every further line becomes a row mapping each
    column name to its trimmed cell.  A row is kept only when its `PondID`,
    `Timestamp`, `Temp` and `pH` cells are non-empty. */
module Csv {
  import opened Wrappers
  import opened Text

  /** A parsed record: column name to cell text. */
  type Row = map<string, string>

  /** `row[column]`, with an absent column read as the empty string (the
      source only ever tests such a cell for truthiness or parses it). */
  function Cell(row: Row, column: string): string {
    if column in row then row[column] else ""
  }

  /** `values[index]?.trim() || ""`. */
  function CellText(values: seq<string>, index: nat): (r: string)
    ensures index >= |values| ==> r == ""
    ensures index < |values| ==> r == Trim(values[index])
  {
    if index < |values| then Trim(values[index]) else ""
  }

  /** The last column named `h`. */
  function LastIndex(headers: seq<string>, h: string): (k: nat)
    requires h in headers
    ensures k < |headers| && headers[k] == h
    ensures forall m :: k < m < |headers| ==> headers[m] != h
  {
    if headers[|headers| - 1] == h then |headers| - 1
    else LastIndex(headers[..|headers| - 1], h)
  }

  /** The row a data line makes: every column name maps to the cell of the
      last column carrying that name. */
  function BuildRow(headers: seq<string>, values: seq<string>): (row: Row)
    ensures forall h :: h in row <==> h in headers
  {
    map h | h in headers :: CellText(values, LastIndex(headers, h))
  }

  /** `headers.forEach((header, index) => row[header] = ...)`: assigning the
      cells column by column, so that a repeated name keeps the last one,
      builds `BuildRow`. */
  method ReadRow(headers: seq<string>, values: seq<string>) returns (row: Row)
    ensures row == BuildRow(headers, values)
  {
    row := map[];
    var k := 0;
    while k < |headers|
      invariant 0 <= k <= |headers|
      invariant row == BuildRow(headers[..k], values)
    {
      AssignNext(headers[..k + 1], values);
      assert headers[..k + 1][..k] == headers[..k];
      row := row[headers[k] := CellText(values, k)];
      k := k + 1;
    }
    assert headers[..k] == headers;
  }

  /** Assigning the cell of one more column to the row of the columns before it. */
  lemma AssignNext(headers: seq<string>, values: seq<string>)
    requires |headers| > 0
    ensures var n := |headers| - 1;
      BuildRow(headers, values) == BuildRow(headers[..n], values)[headers[n] := CellText(values, n)]
  {
    var n := |headers| - 1;
    var init := headers[..n];
    var next := BuildRow(init, values)[headers[n] := CellText(values, n)];
    var row := BuildRow(headers, values);
    assert headers == init + [headers[n]];
    assert row.Keys == next.Keys;
    forall h | h in row
      ensures row[h] == next[h]
    {
      if h != headers[n] {
        LastIndexBeforeLast(headers, h);
      }
    }
  }

  /** A name other than the last column's is found among the columns before it. */
  lemma LastIndexBeforeLast(headers: seq<string>, h: string)
    requires h in headers && h != headers[|headers| - 1]
    ensures h in headers[..|headers| - 1]
    ensures LastIndex(headers, h) == LastIndex(headers[..|headers| - 1], h)
  {
  }

  /** The validation of a row: the four required cells are non-empty. */
  predicate HasRequiredFields(row: Row) {
    Cell(row, "PondID") != "" && Cell(row, "Timestamp") != ""
    && Cell(row, "Temp") != "" && Cell(row, "pH") != ""
  }

  /** The column names: the first line split on commas, each trimmed. */
  function Headers(line: string): (r: seq<string>)
    ensures |r| == |Split(line, ',')|
    ensures forall k :: 0 <= k < |r| ==> r[k] == Trim(Split(line, ',')[k])
  {
    var parts := Split(line, ',');
    seq(|parts|, k requires 0 <= k < |parts| => Trim(parts[k]))
  }

  /** The kept rows of the data lines, in file order. */
  function RowsOf(headers: seq<string>, lines: seq<string>): (rows: seq<Row>)
    ensures |rows| <= |lines|
    decreases |lines|
  {
    if |lines| == 0 then []
    else
      var rows := RowsOf(headers, lines[..|lines| - 1]);
      var row := BuildRow(headers, Split(lines[|lines| - 1], ','));
      if HasRequiredFields(row) then rows + [row] else rows
  }

  /** `csvText.trim().split("\n")`. */
  function Lines(text: string): (r: seq<string>)
    ensures |r| >= 1
  {
    Split(Trim(text), '\n')
  }

  /** The outcome of parsing: `None` when there are fewer than two lines
      (the source throws "CSV file appears to be empty or invalid"). */
  function ParsedCsv(text: string): Option<seq<Row>> {
    var lines := Lines(text);
    if |lines| < 2 then None
    else Some(RowsOf(Headers(lines[0]), lines[1..]))
  }

  /** The parsing loop of `fetchRealData`. */
  method ParseCsv(text: string) returns (r: Option<seq<Row>>)
    ensures r == ParsedCsv(text)
    ensures r.None? <==> |Lines(text)| < 2
    ensures r.Some? ==> forall row :: row in r.value ==> HasRequiredFields(row)
  {
    var lines := Lines(text);
    if |lines| < 2 {
      return None;
    }
    var headers := Headers(lines[0]);
    var rows := KeepRows(headers, lines[1..]);
    r := Some(rows);
    KeptRowsAreValid(headers, lines[1..]);
  }

  /** The loop over the data lines: each line's row, kept when it passes
      validation. */
  method KeepRows(headers: seq<string>, lines: seq<string>) returns (rows: seq<Row>)
    ensures rows == RowsOf(headers, lines)
  {
    rows := [];
    var i := 0;
    while i < |lines|
      invariant 0 <= i <= |lines|
      invariant rows == RowsOf(headers, lines[..i])
    {
      var row := ReadRow(headers, Split(lines[i], ','));
      LineKeptIffValid(headers, lines[..i], lines[i]);
      assert lines[..i + 1] == lines[..i] + [lines[i]];
      if HasRequiredFields(row) {
        rows := rows + [row];
      }
      i := i + 1;
    }
    assert lines[..i] == lines;
  }

  /** Every kept row passed validation and has exactly the header names as keys. */
  lemma {:induction false} KeptRowsAreValid(headers: seq<string>, lines: seq<string>)
    ensures forall row :: row in RowsOf(headers, lines) ==> HasRequiredFields(row)
    ensures forall row :: row in RowsOf(headers, lines) ==> (forall h :: h in row <==> h in headers)
    decreases |lines|
  {
    if |lines| > 0 {
      KeptRowsAreValid(headers, lines[..|lines| - 1]);
    }
  }

  /** A data line is kept exactly when its row passes validation: appending
      a line appends its row or nothing. */
  lemma LineKeptIffValid(headers: seq<string>, lines: seq<string>, line: string)
    ensures var row := BuildRow(headers, Split(line, ','));
      RowsOf(headers, lines + [line]) == RowsOf(headers, lines) + (if HasRequiredFields(row) then [row] else [])
  {
    assert (lines + [line])[..|lines|] == lines;
  }
}
