/** The CSV text of a query result (src/components/workspace/query-panel.tsx:74,185-188) and section 2 of RFC 4180. */
module Csv {
  import opened Wrappers

  /** A cell as the printer sees it: null and undefined print as nothing, any other value as its text. */
  type Cell = Option<string>

  function CellText(c: Cell): string {
    if c.Some? then c.value else ""
  }

  predicate NeedsQuotes(s: string) {
    exists i :: 0 <= i < |s| && IsStructural(s[i])
  }

  predicate IsStructural(c: char) {
    c == '"' || c == ',' || c == '\r' || c == '\n'
  }

  /** replaceAll('"', '""'). */
  function DoubleQuotes(s: string): string {
    if s == "" then "" else (if s[0] == '"' then "\"\"" else [s[0]]) + DoubleQuotes(s[1..])
  }

  function CsvField(c: Cell): string {
    var s := CellText(c);
    if NeedsQuotes(s) then "\"" + DoubleQuotes(s) + "\"" else s
  }

  function JoinFields(cells: seq<Cell>): string {
    if cells == [] then ""
    else if |cells| == 1 then CsvField(cells[0])
    else CsvField(cells[0]) + ("," + JoinFields(cells[1..]))
  }

  /** Rows joined with CRLF, with no line break after the last one. */
  function PrintRows(rows: seq<seq<Cell>>): string {
    if rows == [] then ""
    else if |rows| == 1 then JoinFields(rows[0])
    else JoinFields(rows[0]) + ("\r\n" + PrintRows(rows[1..]))
  }

  /** The byte order mark with which the downloaded text begins. */
  const MARK := '\U{FEFF}'

  /** The header, then one line per row, each row listing its value for every column. */
  function Lines(columns: seq<string>, rows: seq<map<string, string>>): seq<seq<Cell>> {
    [seq(|columns|, i requires 0 <= i < |columns| => Some(columns[i]))]
    + seq(|rows|, r requires 0 <= r < |rows| => RowCells(columns, rows[r]))
  }

  function Download(columns: seq<string>, rows: seq<map<string, string>>): string {
    [MARK] + PrintRows(Lines(columns, rows))
  }

  function RowCells(columns: seq<string>, row: map<string, string>): seq<Cell> {
    seq(|columns|, i requires 0 <= i < |columns| => if columns[i] in row then Some(row[columns[i]]) else None)
  }

  // ------------------------------------------------------------------ a reader for RFC 4180, section 2

  /** A field and the rest of the text after it. */
  function ReadField(t: string): Option<(string, string)> {
    if t != "" && t[0] == '"' then ReadQuoted(t[1..]) else Some(ReadPlain(t))
  }

  /** Rule 5: an unquoted field runs to the next structural character. */
  function ReadPlain(t: string): (r: (string, string))
    ensures r.0 + r.1 == t
  {
    if t == "" || IsStructural(t[0]) then ("", t) else
      var r := ReadPlain(t[1..]);
      ([t[0]] + r.0, r.1)
  }

  /** Rules 6 and 7: a quoted field runs to the closing quote; a doubled quote inside it is one quote. */
  function ReadQuoted(t: string): (r: Option<(string, string)>)
    ensures r.Some? ==> |r.value.1| < |t|
  {
    if t == "" then None
    else if t[0] != '"' then
      match ReadQuoted(t[1..])
      case Some(r) => Some(([t[0]] + r.0, r.1))
      case None => None
    else if |t| >= 2 && t[1] == '"' then
      match ReadQuoted(t[2..])
      case Some(r) => Some((['"'] + r.0, r.1))
      case None => None
    else Some(("", t[1..]))
  }

  /** Rules 2 and 4: a record is fields separated by commas, ended by CRLF or by the end of the text. */
  function ReadRecord(t: string): (r: Option<(seq<string>, Option<string>)>)
    ensures r.Some? && r.value.1.Some? ==> |r.value.1.value| < |t|
    decreases |t|
  {
    match ReadField(t)
    case None => None
    case Some(f) =>
      assert |f.1| <= |t| by { if t == "" || t[0] != '"' { assert |f.0| + |f.1| == |f.0 + f.1|; } }
      if f.1 == "" then Some(([f.0], None))
      else if f.1[0] == ',' then
        match ReadRecord(f.1[1..])
        case None => None
        case Some(r) => Some(([f.0] + r.0, r.1))
      else if |f.1| >= 2 && f.1[0] == '\r' && f.1[1] == '\n' then Some(([f.0], Some(f.1[2..])))
      else None
  }

  /** Rule 1: records separated by CRLF. */
  function ReadRecords(t: string): Option<seq<seq<string>>>
    decreases |t|
  {
    match ReadRecord(t)
    case None => None
    case Some(r) =>
      if r.1.None? then Some([r.0])
      else
        match ReadRecords(r.1.value)
        case None => None
        case Some(rest) => Some([r.0] + rest)
  }

  /** The reader that uses rule 2's freedom: a line break at the end of the text closes the last record. */
  function ReadRecordsOptionalBreak(t: string): Option<seq<seq<string>>> {
    match ReadRecords(t)
    case None => None
    case Some(rs) => Some(if |rs| >= 2 && rs[|rs| - 1] == [""] then rs[..|rs| - 1] else rs)
  }

  // ------------------------------------------------------------------ round trip

  function Texts(cells: seq<Cell>): seq<string> {
    seq(|cells|, i requires 0 <= i < |cells| => CellText(cells[i]))
  }

  function TableTexts(rows: seq<seq<Cell>>): seq<seq<string>> {
    seq(|rows|, i requires 0 <= i < |rows| => Texts(rows[i]))
  }

  /** What may follow a field: a comma, a line break, or nothing. */
  predicate EndsField(rest: string) {
    rest == "" || rest[0] == ',' || rest[0] == '\r'
  }

  lemma {:induction false} ReadPlainField(s: string, rest: string)
    requires !NeedsQuotes(s) && EndsField(rest)
    ensures ReadPlain(s + rest) == (s, rest)
  {
    if s == "" {
      assert s + rest == rest;
    } else {
      assert !IsStructural(s[0]);
      assert forall i :: 0 <= i < |s| - 1 ==> s[1..][i] == s[i + 1];
      assert (s + rest)[1..] == s[1..] + rest;
      ReadPlainField(s[1..], rest);
      assert [s[0]] + s[1..] == s;
    }
  }

  lemma {:induction false} ReadQuotedField(s: string, rest: string)
    requires EndsField(rest)
    ensures ReadQuoted(DoubleQuotes(s) + ("\"" + rest)) == Some((s, rest))
  {
    var t := DoubleQuotes(s) + ("\"" + rest);
    if s == "" {
      assert t == "\"" + rest && t[1..] == rest;
    } else {
      ReadQuotedField(s[1..], rest);
      assert [s[0]] + s[1..] == s;
      var tail := DoubleQuotes(s[1..]) + ("\"" + rest);
      if s[0] == '"' {
        assert t == "\"\"" + tail && t[2..] == tail;
      } else {
        assert t == [s[0]] + tail && t[1..] == tail;
      }
    }
  }

  lemma ReadAfterQuote(u: string)
    ensures ReadField("\"" + u) == ReadQuoted(u)
  {
    hide ReadQuoted, ReadPlain;
    assert ("\"" + u)[1..] == u;
  }

  lemma ReadUnquoted(t: string)
    requires t == "" || t[0] != '"'
    ensures ReadField(t) == Some(ReadPlain(t))
  {
    hide ReadQuoted, ReadPlain;
  }

  lemma ReadPrintedField(c: Cell, rest: string)
    requires EndsField(rest)
    ensures ReadField(CsvField(c) + rest) == Some((CellText(c), rest))
  {
    var s := CellText(c);
    if NeedsQuotes(s) {
      ReadQuotedField(s, rest);
      ReadAfterQuote(DoubleQuotes(s) + ("\"" + rest));
      hide NeedsQuotes, DoubleQuotes, ReadQuoted, ReadPlain, ReadField;
      assert CsvField(c) + rest == "\"" + (DoubleQuotes(s) + ("\"" + rest));
    } else {
      ReadPlainField(s, rest);
      if s != "" { assert !IsStructural(s[0]); }
      hide ReadField, ReadPlain, NeedsQuotes, DoubleQuotes;
      ReadUnquoted(s + rest);
    }
  }

  lemma {:induction false} DoubledHasCharacters(s: string)
    ensures |DoubleQuotes(s)| >= |s| && forall c :: c in s ==> c in DoubleQuotes(s)
  {
    if s != "" {
      DoubledHasCharacters(s[1..]);
      assert s == [s[0]] + s[1..];
    }
  }

  /** A value prints as it is exactly when it has no quote, comma or line break in it; any other prints between quotes. */
  lemma PlainIffHarmless(c: Cell)
    ensures CsvField(c) == CellText(c)
            <==> '"' !in CellText(c) && ',' !in CellText(c) && '\r' !in CellText(c) && '\n' !in CellText(c)
    ensures CsvField(c) != CellText(c) ==>
      |CsvField(c)| >= 3 && CsvField(c)[0] == '"' && CsvField(c)[|CsvField(c)| - 1] == '"'
  {
    var s := CellText(c);
    DoubledHasCharacters(s);
    if NeedsQuotes(s) {
      assert |CsvField(c)| >= |s| + 2;
    } else {
      assert forall i :: 0 <= i < |s| ==> !IsStructural(s[i]);
    }
  }

  /** The text after a record: nothing, or CRLF and more. */
  function AfterRecord(more: Option<string>): string {
    if more.Some? then "\r\n" + more.value else ""
  }

  lemma ReadRecordLast(t: string, f: string, more: Option<string>)
    requires ReadField(t) == Some((f, AfterRecord(more)))
    ensures ReadRecord(t) == Some(([f], more))
  {
    hide ReadField;
    assert more.Some? ==> AfterRecord(more)[2..] == more.value;
  }

  lemma ReadRecordMore(t: string, f: string, u: string)
    requires ReadField(t) == Some((f, "," + u)) && ReadRecord(u).Some?
    ensures ReadRecord(t) == Some(([f] + ReadRecord(u).value.0, ReadRecord(u).value.1))
  {
    hide ReadField;
    assert ("," + u)[1..] == u;
  }

  lemma JoinFirst(cells: seq<Cell>)
    requires cells != []
    ensures JoinFields(cells) == if |cells| == 1 then CsvField(cells[0]) else CsvField(cells[0]) + ("," + JoinFields(cells[1..]))
  {
    hide CsvField;
  }

  lemma TextsFirst(cells: seq<Cell>)
    requires cells != []
    ensures Texts(cells) == [CellText(cells[0])] + Texts(cells[1..]) && Texts(cells)[1..] == Texts(cells[1..])
    ensures |cells| == 1 ==> Texts(cells) == [CellText(cells[0])] && Texts(cells)[1..] == []
  {
    hide CellText;
  }

  /** The first cell of a record and the rest, in print and as texts. */
  lemma FirstCell(cells: seq<Cell>)
    requires cells != []
    ensures JoinFields(cells) == if |cells| == 1 then CsvField(cells[0]) else CsvField(cells[0]) + ("," + JoinFields(cells[1..]))
    ensures Texts(cells) == [CellText(cells[0])] + Texts(cells[1..]) && Texts(cells)[1..] == Texts(cells[1..])
    ensures |cells| == 1 ==> Texts(cells) == [CellText(cells[0])] && Texts(cells)[1..] == []
  {
    hide *;
    JoinFirst(cells);
    TextsFirst(cells);
  }

  lemma {:induction false} ReadPrintedRecord(cells: seq<Cell>, more: Option<string>)
    requires cells != []
    ensures ReadRecord(JoinFields(cells) + AfterRecord(more)) == Some((Texts(cells), more))
    decreases |cells|
  {
    hide *;
    var rest := AfterRecord(more);
    var t := JoinFields(cells) + rest;
    FirstCell(cells);
    if |cells| == 1 {
      AfterRecordEnds(more);
      ReadPrintedField(cells[0], rest);
      ReadRecordLast(t, CellText(cells[0]), more);
    } else {
      var u := JoinFields(cells[1..]) + rest;
      assert t == CsvField(cells[0]) + ("," + u);
      CommaEnds(u);
      ReadPrintedField(cells[0], "," + u);
      ReadPrintedRecord(cells[1..], more);
      ReadRecordMore(t, CellText(cells[0]), u);
    }
  }

  lemma CommaEnds(u: string)
    ensures EndsField("," + u)
  {
  }

  lemma AfterRecordEnds(more: Option<string>)
    ensures EndsField(AfterRecord(more))
  {
  }

  /** Reading the printed text gives back every cell's text, for any table whose rows have at least one column. */
  lemma {:induction false} ReadPrintedRows(rows: seq<seq<Cell>>)
    requires rows != [] && forall i :: 0 <= i < |rows| ==> rows[i] != []
    ensures ReadRecords(PrintRows(rows)) == Some(TableTexts(rows))
    decreases |rows|
  {
    hide ReadRecord, JoinFields;
    if |rows| == 1 {
      ReadPrintedRecord(rows[0], None);
      assert PrintRows(rows) == JoinFields(rows[0]) + AfterRecord(None);
      assert TableTexts(rows) == [Texts(rows[0])];
    } else {
      var more := PrintRows(rows[1..]);
      ReadPrintedRecord(rows[0], Some(more));
      ReadPrintedRows(rows[1..]);
      assert TableTexts(rows) == [Texts(rows[0])] + TableTexts(rows[1..]);
    }
  }

  /**
   * A reader that takes a final line break as the end of the last record gives the table back exactly when the table
   * does not end in a line that is a single empty field.
   */
  lemma OptionalBreakExact(rows: seq<seq<Cell>>)
    requires rows != [] && forall i :: 0 <= i < |rows| ==> rows[i] != []
    ensures ReadRecordsOptionalBreak(PrintRows(rows)) == Some(TableTexts(rows))
            <==> !(|rows| >= 2 && Texts(rows[|rows| - 1]) == [""])
  {
    ReadPrintedRows(rows);
  }

  // ------------------------------------------------------------------ the download

  /** A reader that knows byte order marks drops one at the start. */
  function WithoutMark(t: string): string {
    if t != "" && t[0] == MARK then t[1..] else t
  }

  /** The header followed by the value of every row at every column. */
  predicate IsTable(table: seq<seq<string>>, header: seq<string>, columns: seq<string>, rows: seq<map<string,
                    string>>) {
    && |table| == |rows| + 1 && table[0] == header
    && forall r :: 0 <= r < |rows| ==>
         && |table[r + 1]| == |columns|
         && forall i :: 0 <= i < |columns| ==>
              table[r + 1][i] == if columns[i] in rows[r] then rows[r][columns[i]] else ""
  }

  lemma LinesAreTable(columns: seq<string>, rows: seq<map<string, string>>)
    ensures IsTable(TableTexts(Lines(columns, rows)), columns, columns, rows)
  {
    var lines := Lines(columns, rows);
    var header := lines[0];
    assert Texts(header) == columns;
    forall r | 0 <= r < |rows| ensures TableTexts(lines)[r + 1] == Texts(RowCells(columns, rows[r])) {
      assert lines[r + 1] == RowCells(columns, rows[r]);
    }
  }

  lemma LinesNotEmpty(columns: seq<string>, rows: seq<map<string, string>>)
    requires columns != []
    ensures |Lines(columns, rows)| == |rows| + 1 && forall i :: 0 <= i < |Lines(columns, rows)| ==> Lines(columns, rows)[i] != []
  {
    var lines := Lines(columns, rows);
    assert forall i :: 0 < i < |lines| ==> lines[i] == RowCells(columns, rows[i - 1]);
  }

  /** A reader that drops the mark gets the header and every value back, whatever the names and values are. */
  lemma DownloadRoundTrip(columns: seq<string>, rows: seq<map<string, string>>)
    requires columns != []
    ensures var read := ReadRecords(WithoutMark(Download(columns, rows)));
      read.Some? && IsTable(read.value, columns, columns, rows)
  {
    hide ReadRecords, PrintRows, Lines;
    LinesNotEmpty(columns, rows);
    ReadPrintedRows(Lines(columns, rows));
    LinesAreTable(columns, rows);
    assert Download(columns, rows)[1..] == PrintRows(Lines(columns, rows));
  }

  /** The first field of a text that begins with the mark: the mark belongs to it, unless a quote follows. */
  lemma ReadMarkedField(c: Cell, rest: string)
    requires EndsField(rest)
    ensures var t := [MARK] + (CsvField(c) + rest);
      ReadField(t) == if NeedsQuotes(CellText(c)) then Some(([MARK], CsvField(c) + rest)) else Some(([MARK] + CellText(c), rest))
  {
    var t := [MARK] + (CsvField(c) + rest);
    assert t[0] == MARK && t[1..] == CsvField(c) + rest;
    ReadUnquoted(t);
    if NeedsQuotes(CellText(c)) {
      assert ReadPlain(t[1..]) == ("", t[1..]);
    } else {
      ReadPlainField(CellText(c), rest);
    }
  }

  /** The record that begins with the mark cannot be read when its first field is quoted. */
  lemma ReadMarkedRecord(cells: seq<Cell>, more: Option<string>)
    requires cells != []
    ensures ReadRecord([MARK] + (JoinFields(cells) + AfterRecord(more)))
         == if NeedsQuotes(CellText(cells[0])) then None else Some(([[MARK] + CellText(cells[0])] + Texts(cells)[1..], more))
  {
    hide *;
    FirstCell(cells);
    AfterRecordEnds(more);
    var rest := if |cells| == 1 then AfterRecord(more) else "," + (JoinFields(cells[1..]) + AfterRecord(more));
    var t := [MARK] + (CsvField(cells[0]) + rest);
    assert JoinFields(cells) + AfterRecord(more) == CsvField(cells[0]) + rest;
    if |cells| > 1 { CommaEnds(JoinFields(cells[1..]) + AfterRecord(more)); }
    ReadMarkedField(cells[0], rest);
    if NeedsQuotes(CellText(cells[0])) {
      NoRecordAfterMark(t, CsvField(cells[0]) + rest, cells[0]);
    } else if |cells| == 1 {
      ReadRecordLast(t, [MARK] + CellText(cells[0]), more);
      assert [[MARK] + CellText(cells[0])] + Texts(cells)[1..] == [[MARK] + CellText(cells[0])];
    } else {
      ReadPrintedRecord(cells[1..], more);
      ReadRecordMore(t, [MARK] + CellText(cells[0]), JoinFields(cells[1..]) + AfterRecord(more));
    }
  }

  lemma NoRecordAfterMark(t: string, u: string, c: Cell)
    requires ReadField(t) == Some(([MARK], u)) && NeedsQuotes(CellText(c)) && |u| >= |CsvField(c)|
            && u[..|CsvField(c)|] == CsvField(c)
    ensures ReadRecord(t) == None
  {
    hide ReadField;
    assert u[0] == CsvField(c)[0] == '"';
  }

  /** What a reader that knows nothing of marks gets from the download. */
  lemma ReadMarked(columns: seq<string>, rows: seq<map<string, string>>)
    requires columns != []
    ensures ReadRecords(Download(columns, rows))
         == if NeedsQuotes(columns[0]) then None
            else Some([[[MARK] + columns[0]] + columns[1..]] + TableTexts(Lines(columns, rows))[1..])
  {
    var lines := Lines(columns, rows);
    var more := if rows == [] then None else Some(PrintRows(lines[1..]));
    hide *;
    LinesNotEmpty(columns, rows);
    HeaderLine(columns, rows);
    PrintFirst(lines);
    ReadMarkedRecord(lines[0], more);
    DownloadText(columns, rows);
    MarkedRecords(columns, rows);
    if rows != [] {
      assert forall i :: 0 <= i < |lines[1..]| ==> lines[1..][i] == lines[i + 1];
      ReadPrintedRows(lines[1..]);
      LaterLines(lines);
    } else {
      NoLaterLines(lines);
      var first := [[MARK] + columns[0]] + columns[1..];
      assert [first] + [] == [first];
    }
  }

  lemma HeaderLine(columns: seq<string>, rows: seq<map<string, string>>)
    requires columns != []
    ensures var lines := Lines(columns, rows);
      |lines| == |rows| + 1 && Texts(lines[0]) == columns && lines[0] != [] && CellText(lines[0][0]) == columns[0]
  {
    assert Texts(Lines(columns, rows)[0]) == columns;
  }

  lemma DownloadText(columns: seq<string>, rows: seq<map<string, string>>)
    ensures Download(columns, rows) == [MARK] + PrintRows(Lines(columns, rows))
  {
  }

  /** The first record of the download decides whether it can be read; the others follow. */
  lemma MarkedRecords(columns: seq<string>, rows: seq<map<string, string>>)
    ensures match ReadRecord(Download(columns, rows))
            case None => ReadRecords(Download(columns, rows)) == None
            case Some(r) =>
              && (r.1.None? ==> ReadRecords(Download(columns, rows)) == Some([r.0]))
              && (r.1.Some? && ReadRecords(r.1.value).Some? ==>
                    ReadRecords(Download(columns, rows)) == Some([r.0] + ReadRecords(r.1.value).value))
  {
    hide ReadRecord, Download;
  }

  lemma LaterLines(rows: seq<seq<Cell>>)
    requires rows != []
    ensures TableTexts(rows)[1..] == TableTexts(rows[1..])
  {
    hide Texts;
  }

  lemma NoLaterLines(rows: seq<seq<Cell>>)
    requires |rows| == 1
    ensures TableTexts(rows)[1..] == []
  {
    hide Texts;
  }

  lemma PrintFirst(rows: seq<seq<Cell>>)
    requires rows != []
    ensures PrintRows(rows) == JoinFields(rows[0]) + AfterRecord(if |rows| == 1 then None else Some(PrintRows(rows[1..])))
  {
    hide JoinFields;
  }

  /**
   * A reader that follows RFC 4180 and knows nothing of marks: it reads the download exactly when the first column's name
   * needs no quotes, and then the mark is the first character of that name and everything else is as it should be.
   */
  lemma MarkedReadsIff(columns: seq<string>, rows: seq<map<string, string>>)
    requires columns != []
    ensures var read := ReadRecords(Download(columns, rows));
      && (read.Some? <==> !NeedsQuotes(columns[0]))
      && (read.Some? ==> IsTable(read.value, [[MARK] + columns[0]] + columns[1..], columns, rows))
  {
    hide ReadRecords, Download, NeedsQuotes;
    ReadMarked(columns, rows);
    LinesAreTable(columns, rows);
    hide Lines, TableTexts;
    if !NeedsQuotes(columns[0]) {
      var table, read := TableTexts(Lines(columns, rows)), ReadRecords(Download(columns, rows)).value;
      assert forall k :: 1 <= k < |read| ==> read[k] == table[k];
    }
  }
}
