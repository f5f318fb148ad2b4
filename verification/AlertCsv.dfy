/**
 * backend/src/services/alertHistorySearch.service.ts: the CSV export, and a reader
 * for it after section 2 of RFC 4180 with LF line breaks.
 */
module AlertCsv {
  import opened Common

  /** A row of query results: a column may be missing, null, or hold a value whose string form is given. */
  type Row = map<string, Option<string>>

  const CSV_COLUMNS: seq<string> := [
    "time", "rule_id", "asset_code", "alert_type", "priority", "metric", "triggered_value", "threshold"]

  // ---------------------------------------------------------------- printing

  function CellText(row: Row, column: string): string {
    if column in row && row[column].Some? then row[column].value else ""
  }

  predicate Special(c: char) { c == '"' || c == ',' || c == '\n' }

  predicate NeedsQuotes(s: string) { exists i :: 0 <= i < |s| && Special(s[i]) }

  /** Every quote doubled. */
  function DoubleQuotes(s: string): string {
    if s == "" then ""
    else (if s[0] == '"' then ['"', '"'] else [s[0]]) + DoubleQuotes(s[1..])
  }

  function CsvEscape(s: string): string {
    if NeedsQuotes(s) then ['"'] + DoubleQuotes(s) + ['"'] else s
  }

  function Join(parts: seq<string>, separator: char): string {
    if parts == [] then ""
    else if |parts| == 1 then parts[0]
    else parts[0] + [separator] + Join(parts[1..], separator)
  }

  function Escaped(cells: seq<string>): (r: seq<string>)
    ensures |r| == |cells| && forall i :: 0 <= i < |cells| ==> r[i] == CsvEscape(cells[i])
  {
    seq(|cells|, i requires 0 <= i < |cells| => CsvEscape(cells[i]))
  }

  function PrintRecord(cells: seq<string>): string { Join(Escaped(cells), ',') }

  function PrintRecords(table: seq<seq<string>>): seq<string> {
    seq(|table|, i requires 0 <= i < |table| => PrintRecord(table[i]))
  }

  function Cells(row: Row): (r: seq<string>)
    ensures |r| == |CSV_COLUMNS|
  {
    seq(|CSV_COLUMNS|, i requires 0 <= i < |CSV_COLUMNS| => CellText(row, CSV_COLUMNS[i]))
  }

  function Table(rows: seq<Row>): seq<seq<string>> {
    seq(|rows|, i requires 0 <= i < |rows| => Cells(rows[i]))
  }

  /** The header is joined as it is; the rows go through the escaping. */
  function AlertEventsToCsv(rows: seq<Row>): string {
    Join([Join(CSV_COLUMNS, ',')] + PrintRecords(Table(rows)), '\n')
  }

  // ---------------------------------------------------------------- reading

  /** A parsed prefix and what is left of the text. */
  datatype Parsed<T> = Parsed(value: T, rest: string) | Malformed

  predicate Ends(c: char) { c == ',' || c == '\n' }

  /** An unquoted field: everything up to a separator; a quote inside is malformed. */
  function ReadPlain(s: string): (r: Parsed<string>)
    ensures r.Parsed? ==> |r.rest| <= |s|
    decreases |s|
  {
    if s == "" || Ends(s[0]) then Parsed("", s)
    else if s[0] == '"' then Malformed
    else
      var tail := ReadPlain(s[1..]);
      if tail.Malformed? then Malformed else Parsed([s[0]] + tail.value, tail.rest)
  }

  /** The inside of a quoted field, up to its closing quote; a doubled quote stands for one. */
  function ReadQuoted(s: string): (r: Parsed<string>)
    ensures r.Parsed? ==> |r.rest| < |s|
    decreases |s|
  {
    if s == "" then Malformed
    else if s[0] != '"' then
      var tail := ReadQuoted(s[1..]);
      if tail.Malformed? then Malformed else Parsed([s[0]] + tail.value, tail.rest)
    else if |s| > 1 && s[1] == '"' then
      var tail := ReadQuoted(s[2..]);
      if tail.Malformed? then Malformed else Parsed(['"'] + tail.value, tail.rest)
    else Parsed("", s[1..])
  }

  function ReadField(s: string): (r: Parsed<string>)
    ensures r.Parsed? ==> |r.rest| <= |s|
  {
    if s != "" && s[0] == '"' then ReadQuoted(s[1..]) else ReadPlain(s)
  }

  /** One record: fields separated by commas, up to a line break or the end of the text. */
  function ReadRecord(s: string): (r: Parsed<seq<string>>)
    ensures r.Parsed? ==> |r.rest| <= |s|
    decreases |s|
  {
    var field := ReadField(s);
    if field.Malformed? then Malformed
    else if field.rest == "" || field.rest[0] == '\n' then Parsed([field.value], field.rest)
    else if field.rest[0] != ',' then Malformed
    else
      var more := ReadRecord(field.rest[1..]);
      if more.Malformed? then Malformed else Parsed([field.value] + more.value, more.rest)
  }

  function ReadCsv(s: string): Option<seq<seq<string>>>
    decreases |s|
  {
    var record := ReadRecord(s);
    if record.Malformed? then None
    else if record.rest == "" then Some([record.value])
    else
      var more := ReadCsv(record.rest[1..]);
      if more == None then None else Some([record.value] + more.value)
  }

  // ---------------------------------------------------------------- printing is undone by reading

  /** Text after a field: nothing, or a separator. */
  predicate AfterField(rest: string) { rest == "" || Ends(rest[0]) }

  lemma {:induction false} PlainRead(cell: string, rest: string)
    requires !NeedsQuotes(cell) && AfterField(rest)
    ensures ReadPlain(cell + rest) == Parsed(cell, rest)
  {
    if cell == "" {
      assert cell + rest == rest;
    } else {
      assert !Special(cell[0]);
      assert !NeedsQuotes(cell[1..]);
      assert (cell + rest)[1..] == cell[1..] + rest;
      PlainRead(cell[1..], rest);
      assert [cell[0]] + cell[1..] == cell;
    }
  }

  lemma {:induction false} QuotedRead(cell: string, rest: string)
    requires AfterField(rest)
    ensures ReadQuoted(DoubleQuotes(cell) + ['"'] + rest) == Parsed(cell, rest)
  {
    var s := DoubleQuotes(cell) + ['"'] + rest;
    if cell == "" {
      assert s == ['"'] + rest;
      assert s[1..] == rest;
    } else {
      QuotedRead(cell[1..], rest);
      var tail := DoubleQuotes(cell[1..]) + ['"'] + rest;
      if cell[0] == '"' {
        assert s == ['"', '"'] + tail;
        assert s[2..] == tail;
      } else {
        assert s == [cell[0]] + tail;
        assert s[1..] == tail;
      }
      assert [cell[0]] + cell[1..] == cell;
    }
  }

  lemma OpenQuote(body: string, rest: string)
    ensures ReadField(['"'] + body + ['"'] + rest) == ReadQuoted(body + ['"'] + rest)
  {
    assert ['"'] + body + ['"'] + rest == ['"'] + (body + ['"'] + rest);
  }

  lemma QuotedFieldRead(cell: string, rest: string)
    requires NeedsQuotes(cell) && AfterField(rest)
    ensures ReadField(CsvEscape(cell) + rest) == Parsed(cell, rest)
  {
    QuotedRead(cell, rest);
    OpenQuote(DoubleQuotes(cell), rest);
  }

  lemma PlainFieldRead(cell: string, rest: string)
    requires !NeedsQuotes(cell) && AfterField(rest)
    ensures ReadField(CsvEscape(cell) + rest) == Parsed(cell, rest)
  {
    PlainRead(cell, rest);
    if cell != "" {
      assert !Special(cell[0]) && (cell + rest)[0] == cell[0];
    } else {
      assert cell + rest == rest;
    }
  }

  lemma FieldRead(cell: string, rest: string)
    requires AfterField(rest)
    ensures ReadField(CsvEscape(cell) + rest) == Parsed(cell, rest)
  {
    if NeedsQuotes(cell) { QuotedFieldRead(cell, rest); } else { PlainFieldRead(cell, rest); }
  }

  lemma {:induction false} RecordRead(cells: seq<string>, rest: string)
    requires cells != [] && (rest == "" || rest[0] == '\n')
    ensures ReadRecord(PrintRecord(cells) + rest) == Parsed(cells, rest)
  {
    var printed := Escaped(cells);
    if |cells| == 1 {
      FieldRead(cells[0], rest);
      assert cells == [cells[0]];
    } else {
      assert printed[1..] == Escaped(cells[1..]);
      var tail := PrintRecord(cells[1..]) + rest;
      assert PrintRecord(cells) + rest == printed[0] + ([','] + tail);
      FieldRead(cells[0], [','] + tail);
      RecordRead(cells[1..], rest);
      assert ([','] + tail)[1..] == tail;
      assert [cells[0]] + cells[1..] == cells;
    }
  }

  /** Reading undoes printing for every table with at least one row and one column. */
  lemma {:induction false} TableRead(table: seq<seq<string>>)
    requires table != [] && forall i :: 0 <= i < |table| ==> table[i] != []
    ensures ReadCsv(Join(PrintRecords(table), '\n')) == Some(table)
  {
    var printed := PrintRecords(table);
    if |table| == 1 {
      RecordRead(table[0], "");
      assert PrintRecord(table[0]) + "" == PrintRecord(table[0]) && table == [table[0]];
    } else {
      assert printed[1..] == PrintRecords(table[1..]);
      var tail := Join(PrintRecords(table[1..]), '\n');
      assert Join(printed, '\n') == printed[0] + (['\n'] + tail);
      RecordRead(table[0], ['\n'] + tail);
      TableRead(table[1..]);
      assert (['\n'] + tail)[1..] == tail;
      assert [table[0]] + table[1..] == table;
    }
  }

  /** A cell is printed as it is exactly when it holds no quote, comma or line feed. */
  lemma PlainIff(cell: string)
    ensures CsvEscape(cell) == cell <==> forall c <- cell :: c != '"' && c != ',' && c != '\n'
  {
    if NeedsQuotes(cell) {
      DoublingGrows(cell);
      var i :| 0 <= i < |cell| && Special(cell[i]);
      assert cell[i] in cell;
    } else {
      assert forall i :: 0 <= i < |cell| ==> !Special(cell[i]);
    }
  }

  lemma {:induction false} DoublingGrows(s: string)
    ensures |DoubleQuotes(s)| >= |s|
  {
    if s != "" { DoublingGrows(s[1..]); }
  }

  /** The header needs no quoting, so joining it raw prints it as a record. */
  lemma HeaderIsRecord()
    ensures Join(CSV_COLUMNS, ',') == PrintRecord(CSV_COLUMNS)
  {
    assert forall i :: 0 <= i < |CSV_COLUMNS| ==> !NeedsQuotes(CSV_COLUMNS[i]);
    assert Escaped(CSV_COLUMNS) == CSV_COLUMNS;
  }

  lemma HeaderFirst(header: seq<string>, table: seq<seq<string>>)
    ensures PrintRecords([header] + table) == [PrintRecord(header)] + PrintRecords(table)
  {
  }

  /** The cells of a row, column by column: its value, or nothing where that is missing or null. */
  predicate Shows(cells: seq<string>, row: Row) {
    && |cells| == |CSV_COLUMNS|
    && forall i :: 0 <= i < |cells| ==>
       && (CSV_COLUMNS[i] in row && row[CSV_COLUMNS[i]].Some? ==> row[CSV_COLUMNS[i]] == Some(cells[i]))
       && (CSV_COLUMNS[i] !in row || row[CSV_COLUMNS[i]] == None ==> cells[i] == "")
  }

  lemma TableShows(rows: seq<Row>)
    ensures |Table(rows)| == |rows| && forall i :: 0 <= i < |rows| ==> Shows(Table(rows)[i], rows[i])
  {
  }

  /** The export reads back as the header followed by exactly the cells of the rows. */
  lemma ExportReadsBack(rows: seq<Row>)
    ensures ReadCsv(AlertEventsToCsv(rows)) == Some([CSV_COLUMNS] + Table(rows))
    ensures |Table(rows)| == |rows| && forall i :: 0 <= i < |rows| ==> Shows(Table(rows)[i], rows[i])
  {
    TableShows(rows);
    HeaderIsRecord();
    HeaderFirst(CSV_COLUMNS, Table(rows));
    TableRead([CSV_COLUMNS] + Table(rows));
  }

  /** Different cell tables never print alike. */
  lemma ExportInjective(a: seq<Row>, b: seq<Row>)
    ensures AlertEventsToCsv(a) == AlertEventsToCsv(b) <==> Table(a) == Table(b)
  {
    ExportReadsBack(a);
    ExportReadsBack(b);
    if AlertEventsToCsv(a) == AlertEventsToCsv(b) {
      assert ([CSV_COLUMNS] + Table(a))[1..] == Table(a);
      assert ([CSV_COLUMNS] + Table(b))[1..] == Table(b);
    }
  }
}
