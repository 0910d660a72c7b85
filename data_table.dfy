/**
 * The editable data table shared by the analysis pages: adding, removing and editing rows,
 * clearing, the CSV text offered for download, and the parsing of pasted CSV text.
 *
 * The table's rows are objects that the page state shares: editing a cell writes into the row
 * object in place, so the row is a class whose `cells` the edit updates. Adding, removing,
 * clearing and pasting build a new list of rows, modelled as reassigning the table's `rows`.
 * `parseFloat` is a parameter `parse` (None for NaN) and number-to-string a parameter `show`.
 */
module DataTable {
  import opened Wrappers
  import Lists
  import opened Strings

  /** What a cell holds: text as typed (the empty string for a blank cell), or a number. */
  datatype Cell = Text(text: string) | Num(number: real)

  /** A column: the key its cells are stored under, its header label (`label`), and whether its type is 'number'. */
  datatype Column = Column(key: string, heading: string, isNumber: bool)

  /** A row object: one cell per key. */
  class Row {
    var cells: map<string, Cell>

    constructor (cells: map<string, Cell>)
      ensures this.cells == cells
    {
      this.cells := cells;
    }
  }

  /** The keys of the columns. */
  function Keys(columns: seq<Column>): set<string>
  {
    set i | 0 <= i < |columns| :: columns[i].key
  }

  /** No two columns share a key. */
  predicate DistinctKeys(columns: seq<Column>)
  {
    forall i, j :: 0 <= i < j < |columns| ==> columns[i].key != columns[j].key
  }

  /** The cells of a freshly added row: the empty text under every column key. */
  function BlankCells(columns: seq<Column>): (cells: map<string, Cell>)
    ensures cells.Keys == Keys(columns)
    ensures forall k :: k in cells ==> cells[k] == Text("")
  {
    map k | k in Keys(columns) :: Text("")
  }

  /** `columns.find(c => c.key === key)`: the first column with the key, if any. */
  function FindColumn(columns: seq<Column>, key: string): (r: Option<Column>)
    ensures r.None? <==> key !in Keys(columns)
    ensures r.Some? ==> exists i :: 0 <= i < |columns| && columns[i] == r.value && r.value.key == key
                                    && forall j :: 0 <= j < i ==> columns[j].key != key
  {
    if |columns| == 0 then None
    else if columns[0].key == key then Some(columns[0])
    else
      var r := FindColumn(columns[1..], key);
      assert Keys(columns) == {columns[0].key} + Keys(columns[1..]) by {
        forall k | k in Keys(columns) ensures k in {columns[0].key} + Keys(columns[1..]) {
          var i :| 0 <= i < |columns| && columns[i].key == k;
          if i > 0 {
            assert columns[1..][i - 1].key == k;
          }
        }
      }
      if r.Some? then
        var i :| 0 <= i < |columns[1..]| && columns[1..][i] == r.value && r.value.key == key
                 && forall j :: 0 <= j < i ==> columns[1..][j].key != key;
        assert columns[i + 1] == r.value;
        assert forall j :: 1 <= j < i + 1 ==> columns[j] == columns[1..][j - 1];
        r
      else r
  }

  /** The cell an edit stores: in a number column, the empty text for empty input and otherwise
      `parseFloat(value) || 0`; in any other column, or under an unknown key, the text itself. */
  function EnteredCell(columns: seq<Column>, key: string, value: string, parse: string -> Option<real>): (c: Cell)
    ensures (exists i :: 0 <= i < |columns| && columns[i].key == key && columns[i].isNumber
                        && forall j :: 0 <= j < i ==> columns[j].key != key) ==>
              c == if value == "" then Text("") else Num(parse(value).GetOr(0.0))
    ensures !(exists i :: 0 <= i < |columns| && columns[i].key == key && columns[i].isNumber
                         && forall j :: 0 <= j < i ==> columns[j].key != key) ==>
              c == Text(value)
  {
    match FindColumn(columns, key)
    case Some(col) =>
      if col.isNumber then (if value == "" then Text("") else Num(parse(value).GetOr(0.0)))
      else Text(value)
    case None => Text(value)
  }

  /** The text a cell shows in the CSV: a missing key joins as the empty string. */
  function CellString(cells: map<string, Cell>, key: string, show: real -> string): string
  {
    if key !in cells then "" else Shown(cells[key], show)
  }

  /** How a cell joins into a CSV line. */
  function Shown(cell: Cell, show: real -> string): string
  {
    match cell
    case Text(s) => s
    case Num(x) => show(x)
  }

  /** The header line's fields: the column labels in order. */
  function Labels(columns: seq<Column>): (r: seq<string>)
    ensures |r| == |columns| && forall m :: 0 <= m < |columns| ==> r[m] == columns[m].heading
  {
    seq(|columns|, m requires 0 <= m < |columns| => columns[m].heading)
  }

  /** A row's fields in the CSV: its cells in column order. */
  function Fields(columns: seq<Column>, cells: map<string, Cell>, show: real -> string): (r: seq<string>)
    ensures |r| == |columns| && forall m :: 0 <= m < |columns| ==> r[m] == CellString(cells, columns[m].key, show)
  {
    seq(|columns|, m requires 0 <= m < |columns| => CellString(cells, columns[m].key, show))
  }

  /** The CSV lines: the labels joined by commas, then one line per row. */
  function CsvLines(columns: seq<Column>, data: seq<map<string, Cell>>, show: real -> string): (r: seq<string>)
    ensures |r| == |data| + 1 && r[0] == Join(Labels(columns), ',')
    ensures forall i :: 1 <= i < |r| ==> r[i] == Join(Fields(columns, data[i - 1], show), ',')
  {
    [Join(Labels(columns), ',')] + seq(|data|, i requires 0 <= i < |data| => Join(Fields(columns, data[i], show), ','))
  }

  /** The text `downloadCSV` saves: the CSV lines joined by newlines. */
  function CsvText(columns: seq<Column>, data: seq<map<string, Cell>>, show: real -> string): string
  {
    Join(CsvLines(columns, data, show), '\n')
  }

  /** A field that survives the CSV round trip: non-empty, without separators, not padded with white space. */
  predicate PlainField(s: string)
  {
    s != [] && ',' !in s && '\n' !in s && !IsSpace(s[0]) && !IsSpace(s[|s| - 1])
  }

  /** The CSV text splits back into its lines: the header, then one line per row. */
  lemma CsvSplitsIntoLines(columns: seq<Column>, data: seq<map<string, Cell>>, show: real -> string)
    requires forall m :: 0 <= m < |columns| ==> '\n' !in columns[m].heading
    requires forall i, m :: 0 <= i < |data| && 0 <= m < |columns| ==> '\n' !in CellString(data[i], columns[m].key, show)
    ensures Split(CsvText(columns, data, show), '\n') == CsvLines(columns, data, show)
  {
    var lines := CsvLines(columns, data, show);
    JoinWithout(Labels(columns), ',', '\n');
    forall i | 0 <= i < |data| ensures '\n' !in Join(Fields(columns, data[i], show), ',') {
      JoinWithout(Fields(columns, data[i], show), ',', '\n');
    }
    assert forall i :: 0 <= i < |lines| ==> '\n' !in lines[i] by {
      forall i | 0 <= i < |lines| ensures '\n' !in lines[i] {
        if i > 0 {
          assert lines[(i - 1) + 1] == lines[i];
        }
      }
    }
    SplitJoin(lines, '\n');
  }

  /** Joining parts that lack a character with a different separator gives a text that lacks it. */
  lemma {:induction false} JoinWithout(parts: seq<string>, sep: char, c: char)
    requires sep != c
    requires forall i :: 0 <= i < |parts| ==> c !in parts[i]
    ensures c !in Join(parts, sep)
  {
    if |parts| > 1 {
      JoinWithout(parts[1..], sep, c);
    }
  }

  /** The value a pasted line gives for the field at `index`: trimmed, or empty when the line is short. */
  function FieldValue(fields: seq<string>, index: nat): (v: string)
    ensures index >= |fields| ==> v == ""
    ensures v != [] ==> !IsSpace(v[0]) && !IsSpace(v[|v| - 1])
  {
    if index < |fields| then Trim(fields[index]) else ""
  }

  /** The cell a pasted field becomes: `parseFloat(value) || 0` in a number column, the text otherwise. */
  function PastedCell(column: Column, fields: seq<string>, index: nat, parse: string -> Option<real>): (c: Cell)
    ensures c.Num? <==> column.isNumber
    ensures c.Text? ==> c.text == FieldValue(fields, index)
  {
    var value := FieldValue(fields, index);
    if column.isNumber then Num(parse(value).GetOr(0.0)) else Text(value)
  }

  /** The row a pasted line becomes: the columns in order, each storing the field at its own index,
      a later column overriding an earlier one with the same key. */
  function PastedRow(columns: seq<Column>, fields: seq<string>, parse: string -> Option<real>): (r: map<string, Cell>)
    ensures r.Keys == Keys(columns)
  {
    if |columns| == 0 then map[]
    else
      var n := |columns| - 1;
      var earlier := PastedRow(columns[..n], fields, parse);
      assert Keys(columns) == Keys(columns[..n]) + {columns[n].key} by {
        forall k | k in Keys(columns) ensures k in Keys(columns[..n]) + {columns[n].key} {
          var i :| 0 <= i < |columns| && columns[i].key == k;
          if i < n {
            assert columns[..n][i].key == k;
          }
        }
      }
      earlier[columns[n].key := PastedCell(columns[n], fields, n, parse)]
  }

  /** Under each key, a pasted row holds the cell of the last column with that key. */
  lemma {:induction false} PastedRowCells(columns: seq<Column>, fields: seq<string>, parse: string -> Option<real>, i: int)
    requires 0 <= i < |columns| && forall j :: i < j < |columns| ==> columns[j].key != columns[i].key
    ensures PastedRow(columns, fields, parse)[columns[i].key] == PastedCell(columns[i], fields, i, parse)
  {
    var n := |columns| - 1;
    if i < n {
      var prefix := columns[..n];
      assert prefix[i] == columns[i];
      PrefixDistinct(columns, n, i);
      PastedRowCells(prefix, fields, parse, i);
      calc {
        PastedRow(columns, fields, parse)[columns[i].key];
      == { PastedRowLast(columns, fields, parse, prefix[i].key); }
        PastedRow(prefix, fields, parse)[prefix[i].key];
      == PastedCell(prefix[i], fields, i, parse);
      }
    } else {
      PastedRowAtLast(columns, fields, parse);
    }
  }

  /** The last column's key holds the cell of the last column. */
  lemma PastedRowAtLast(columns: seq<Column>, fields: seq<string>, parse: string -> Option<real>)
    requires |columns| > 0
    ensures PastedRow(columns, fields, parse)[columns[|columns| - 1].key] ==
      PastedCell(columns[|columns| - 1], fields, |columns| - 1, parse)
  {
  }

  /** A key other than the last column's keeps the cell the row of the earlier columns gives it. */
  lemma PastedRowLast(columns: seq<Column>, fields: seq<string>, parse: string -> Option<real>, k: string)
    requires |columns| > 0 && k != columns[|columns| - 1].key && k in Keys(columns[..|columns| - 1])
    ensures PastedRow(columns, fields, parse)[k] == PastedRow(columns[..|columns| - 1], fields, parse)[k]
  {
  }

  /** A key that no later column repeats is not repeated later in a prefix either. */
  lemma PrefixDistinct(columns: seq<Column>, n: int, i: int)
    requires 0 <= i < n <= |columns| && forall j :: i < j < |columns| ==> columns[j].key != columns[i].key
    ensures forall j :: i < j < n ==> columns[..n][j].key != columns[..n][i].key
  {
  }

  /** `isNaN(parseFloat(...))` on the first field of the first line: that line is a header. */
  predicate HasHeader(lines: seq<string>, parse: string -> Option<real>)
    requires |lines| >= 1
  {
    parse(Split(lines[0], ',')[0]).None?
  }

  /** The pasted text parsed as `handlePasteCSV` does: None (the paste is ignored) unless the trimmed
      text has more than one line; a header line is dropped; every other line becomes one row. */
  function ParsePaste(text: string, columns: seq<Column>, parse: string -> Option<real>): (r: Option<seq<map<string, Cell>>>)
    ensures var lines := Split(Trim(text), '\n');
            && (r.None? <==> |lines| <= 1)
            && (r.Some? ==>
                  var skip := if HasHeader(lines, parse) then 1 else 0;
                  && |r.value| == |lines| - skip
                  && forall i :: 0 <= i < |r.value| ==> r.value[i] == PastedRow(columns, Split(lines[i + skip], ','), parse))
  {
    var lines := Split(Trim(text), '\n');
    if |lines| > 1 then
      var dataLines := if HasHeader(lines, parse) then lines[1..] else lines;
      Some(seq(|dataLines|, i requires 0 <= i < |dataLines| => PastedRow(columns, Split(dataLines[i], ','), parse)))
    else None
  }

  /** A cell that the CSV export writes and the paste reads back unchanged. */
  predicate RoundTrips(column: Column, cell: Cell, show: real -> string, parse: string -> Option<real>)
  {
    match cell
    case Text(s) => !column.isNumber && PlainField(s)
    case Num(x) => column.isNumber && PlainField(show(x)) && parse(show(x)) == Some(x)
  }

  /** Data that the CSV export writes in a form the paste reads back: distinct keys, a first label
      that does not read as a number, plain labels, and every row holding exactly the column keys
      with cells that round-trip. */
  predicate Exportable(columns: seq<Column>, data: seq<map<string, Cell>>, show: real -> string, parse: string -> Option<real>)
  {
    && |columns| >= 1
    && DistinctKeys(columns)
    && parse(columns[0].heading).None?
    && (forall m :: 0 <= m < |columns| ==> PlainField(columns[m].heading))
    && (forall i :: 0 <= i < |data| ==> data[i].Keys == Keys(columns))
    && (forall i, m :: 0 <= i < |data| && 0 <= m < |columns| ==>
          (columns[m].key in data[i] && RoundTrips(columns[m], data[i][columns[m].key], show, parse)))
  }

  /** A join begins with its first part. */
  lemma JoinFirst(parts: seq<string>, sep: char)
    requires |parts| >= 1 && parts[0] != []
    ensures var t := Join(parts, sep); t != [] && t[0] == parts[0][0]
  {
  }

  /** A join ends with its last part. */
  lemma {:induction false} JoinLast(parts: seq<string>, sep: char)
    requires |parts| >= 1 && parts[|parts| - 1] != []
    ensures var t := Join(parts, sep); t != [] && t[|t| - 1] == parts[|parts| - 1][|parts[|parts| - 1]| - 1]
  {
    if |parts| > 1 {
      JoinLast(parts[1..], sep);
    }
  }

  /** A line of plain fields splits back into them, and each field is its own trim. */
  lemma PlainLine(parts: seq<string>)
    requires |parts| >= 1 && forall m :: 0 <= m < |parts| ==> PlainField(parts[m])
    ensures Split(Join(parts, ','), ',') == parts
    ensures '\n' !in Join(parts, ',')
    ensures forall m :: 0 <= m < |parts| ==> Trim(parts[m]) == parts[m]
  {
    assert Split(Join(parts, ','), ',') == parts by {
      SplitJoin(parts, ',');
    }
    assert '\n' !in Join(parts, ',') by {
      JoinWithout(parts, ',', '\n');
    }
    forall m | 0 <= m < |parts| ensures Trim(parts[m]) == parts[m] {
      TrimUntouched(parts[m]);
    }
  }

  /** A round-tripping cell, shown in a line and pasted back, is the cell itself. */
  lemma CellRoundTrip(column: Column, cell: Cell, fields: seq<string>, m: nat, show: real -> string, parse: string -> Option<real>)
    requires RoundTrips(column, cell, show, parse) && m < |fields| && fields[m] == Shown(cell, show)
    ensures PastedCell(column, fields, m, parse) == cell
  {
    TrimUntouched(fields[m]);
  }

  /** A row read back from its own CSV line is the row itself. */
  lemma RowRoundTrip(columns: seq<Column>, cells: map<string, Cell>, show: real -> string, parse: string -> Option<real>)
    requires |columns| >= 1 && DistinctKeys(columns) && cells.Keys == Keys(columns)
    requires forall m :: 0 <= m < |columns| ==> columns[m].key in cells && RoundTrips(columns[m], cells[columns[m].key], show, parse)
    ensures PastedRow(columns, Fields(columns, cells, show), parse) == cells
  {
    var fields := Fields(columns, cells, show);
    var r := PastedRow(columns, fields, parse);
    assert r.Keys == cells.Keys;
    forall k | k in cells ensures r[k] == cells[k] {
      assert k in Keys(columns);
      var m :| 0 <= m < |columns| && columns[m].key == k;
      RowCellRoundTrip(columns, cells, show, parse, m);
    }
    SameEntries(r, cells);
  }

  /** Two maps with the same keys and the same value under each key are equal. */
  lemma SameEntries<K, V>(a: map<K, V>, b: map<K, V>)
    requires a.Keys == b.Keys && forall k :: k in a ==> a[k] == b[k]
    ensures a == b
  {
  }

  /** The cell under one column's key, read back from the row's CSV line. */
  lemma RowCellRoundTrip(columns: seq<Column>, cells: map<string, Cell>, show: real -> string, parse: string -> Option<real>, m: int)
    requires DistinctKeys(columns) && 0 <= m < |columns| && columns[m].key in cells
    requires RoundTrips(columns[m], cells[columns[m].key], show, parse)
    ensures PastedRow(columns, Fields(columns, cells, show), parse)[columns[m].key] == cells[columns[m].key]
  {
    var fields := Fields(columns, cells, show);
    CellRoundTrip(columns[m], cells[columns[m].key], fields, m, show, parse);
    PastedRowCells(columns, fields, parse, m);
  }

  /** The line of an exported row has no newline and reads back as the row. */
  lemma ExportedRow(columns: seq<Column>, data: seq<map<string, Cell>>, show: real -> string, parse: string -> Option<real>, i: int)
    requires Exportable(columns, data, show, parse) && 0 <= i < |data|
    ensures var line := Join(Fields(columns, data[i], show), ',');
            '\n' !in line && PastedRow(columns, Split(line, ','), parse) == data[i]
  {
    var fields := Fields(columns, data[i], show);
    forall m | 0 <= m < |columns| ensures PlainField(fields[m]) {
      assert columns[m].key in data[i];
    }
    PlainLine(fields);
    RowRoundTrip(columns, data[i], show, parse);
  }

  /** A header line whose first label is plain begins with a character other than white space. */
  lemma HeaderBegins(columns: seq<Column>)
    requires |columns| >= 1 && PlainField(columns[0].heading)
    ensures var h := Join(Labels(columns), ','); h != [] && !IsSpace(h[0])
  {
    JoinFirst(Labels(columns), ',');
  }

  /** A row line whose last field is plain ends with a character other than white space. */
  lemma RowLineEnds(columns: seq<Column>, cells: map<string, Cell>, show: real -> string)
    requires |columns| >= 1 && PlainField(CellString(cells, columns[|columns| - 1].key, show))
    ensures var l := Join(Fields(columns, cells, show), ','); l != [] && !IsSpace(l[|l| - 1])
  {
    JoinLast(Fields(columns, cells, show), ',');
  }

  /** Lines that begin and end without white space join into a text that trimming leaves as it is. */
  lemma JoinedLinesTrimmed(lines: seq<string>)
    requires |lines| >= 1 && lines[0] != [] && !IsSpace(lines[0][0])
    requires lines[|lines| - 1] != [] && !IsSpace(lines[|lines| - 1][|lines[|lines| - 1]| - 1])
    ensures Trim(Join(lines, '\n')) == Join(lines, '\n')
  {
    JoinFirst(lines, '\n');
    JoinLast(lines, '\n');
    TrimUntouched(Join(lines, '\n'));
  }

  /** Exported text has no white space at either end, so trimming leaves it as it is. */
  lemma ExportedTextTrimmed(columns: seq<Column>, data: seq<map<string, Cell>>, show: real -> string)
    requires |data| >= 1 && |columns| >= 1 && PlainField(columns[0].heading)
    requires PlainField(CellString(data[|data| - 1], columns[|columns| - 1].key, show))
    ensures Trim(CsvText(columns, data, show)) == CsvText(columns, data, show)
  {
    var lines := CsvLines(columns, data, show);
    var n := |data| - 1;
    assert lines[n + 1] == Join(Fields(columns, data[n], show), ',');
    CsvLinesEnds(columns, data[n], show, lines);
  }

  /** Lines headed by the labels and ended by a row line join into a text that trimming leaves as it is,
      when the first heading and the last field are plain. */
  lemma CsvLinesEnds(columns: seq<Column>, cells: map<string, Cell>, show: real -> string, lines: seq<string>)
    requires |columns| >= 1 && PlainField(columns[0].heading)
    requires PlainField(CellString(cells, columns[|columns| - 1].key, show))
    requires |lines| >= 1 && lines[0] == Join(Labels(columns), ',')
    requires lines[|lines| - 1] == Join(Fields(columns, cells, show), ',')
    ensures Trim(Join(lines, '\n')) == Join(lines, '\n')
  {
    HeaderBegins(columns);
    RowLineEnds(columns, cells, show);
    JoinedLinesTrimmed(lines);
  }

  /** Exported text splits back into its lines, and each row line reads back as its row. */
  lemma ExportedLines(columns: seq<Column>, data: seq<map<string, Cell>>, show: real -> string, parse: string -> Option<real>)
    requires Exportable(columns, data, show, parse)
    ensures Split(CsvText(columns, data, show), '\n') == CsvLines(columns, data, show)
    ensures forall i :: 0 <= i < |data| ==>
              PastedRow(columns, Split(CsvLines(columns, data, show)[i + 1], ','), parse) == data[i]
  {
    var lines := CsvLines(columns, data, show);
    PlainLine(Labels(columns));
    forall i | 0 <= i < |data|
      ensures '\n' !in lines[i + 1] && PastedRow(columns, Split(lines[i + 1], ','), parse) == data[i]
    {
      ExportedRow(columns, data, show, parse, i);
    }
    forall i | 0 <= i < |lines| ensures '\n' !in lines[i] {
      if i > 0 {
        assert lines[(i - 1) + 1] == lines[i];
      }
    }
    SplitJoin(lines, '\n');
  }

  /** Exporting exportable data as CSV and pasting the text back gives the same data. */
  lemma CsvPasteRoundTrip(columns: seq<Column>, data: seq<map<string, Cell>>, show: real -> string, parse: string -> Option<real>)
    requires |data| >= 1 && Exportable(columns, data, show, parse)
    ensures ParsePaste(CsvText(columns, data, show), columns, parse) == Some(data)
  {
    var text := CsvText(columns, data, show);
    ExportedEnds(columns, data, show, parse);
    ExportedLines(columns, data, show, parse);
    ExportedHeader(columns, data, show, parse);
    assert Split(Trim(text), '\n') == CsvLines(columns, data, show);
    HeaderedPaste(text, columns, parse, data);
  }

  /** Exported text of at least one row is its own trim. */
  lemma ExportedEnds(columns: seq<Column>, data: seq<map<string, Cell>>, show: real -> string, parse: string -> Option<real>)
    requires |data| >= 1 && Exportable(columns, data, show, parse)
    ensures Trim(CsvText(columns, data, show)) == CsvText(columns, data, show)
  {
    var n, m := |data| - 1, |columns| - 1;
    assert columns[m].key in data[n] && RoundTrips(columns[m], data[n][columns[m].key], show, parse);
    ExportedTextTrimmed(columns, data, show);
  }

  /** The first line of exported text reads as a header. */
  lemma ExportedHeader(columns: seq<Column>, data: seq<map<string, Cell>>, show: real -> string, parse: string -> Option<real>)
    requires Exportable(columns, data, show, parse)
    ensures HasHeader(CsvLines(columns, data, show), parse)
  {
    PlainLine(Labels(columns));
  }

  /** Text of a header line and one line per row, each reading back as its row, pastes as those rows. */
  lemma HeaderedPaste(text: string, columns: seq<Column>, parse: string -> Option<real>, data: seq<map<string, Cell>>)
    requires var lines := Split(Trim(text), '\n');
             && |lines| == |data| + 1 && |data| >= 1 && HasHeader(lines, parse)
             && forall i :: 0 <= i < |data| ==> PastedRow(columns, Split(lines[i + 1], ','), parse) == data[i]
    ensures ParsePaste(text, columns, parse) == Some(data)
  {
    var lines := Split(Trim(text), '\n');
    var r := ParsePaste(text, columns, parse);
    assert r.Some? && |r.value| == |data|;
    forall i | 0 <= i < |data| ensures r.value[i] == data[i] {
      assert r.value[i] == PastedRow(columns, Split(lines[i + 1], ','), parse);
    }
    assert r.value == data;
  }

  /** The table: its columns and the row objects it currently shows. */
  class Table {
    const columns: seq<Column>
    var rows: seq<Row>

    /** Every row object appears once. */
    ghost predicate Valid()
      reads this
    {
      forall i, j :: 0 <= i < j < |rows| ==> rows[i] != rows[j]
    }

    /** The cells of the rows, in order. */
    function Contents(): (s: seq<map<string, Cell>>)
      reads this, rows
      ensures |s| == |rows| && forall i :: 0 <= i < |rows| ==> s[i] == rows[i].cells
    {
      var rs := rows;
      seq(|rs|, i requires 0 <= i < |rs| reads rs => rs[i].cells)
    }

    /** An empty table with the given columns. */
    constructor (columns: seq<Column>)
      ensures this.columns == columns && rows == [] && Valid()
    {
      this.columns := columns;
      rows := [];
    }

    /** `addRow`: appends one new row holding the empty text under every column key. */
    method AddRow()
      requires Valid()
      modifies this
      ensures Valid()
      ensures |rows| == |old(rows)| + 1 && rows[..|old(rows)|] == old(rows) && fresh(rows[|rows| - 1])
      ensures Contents() == old(Contents()) + [BlankCells(columns)]
    {
      var acc: map<string, Cell> := map[];
      for i := 0 to |columns|
        invariant acc.Keys == Keys(columns[..i])
        invariant forall k :: k in acc ==> acc[k] == Text("")
      {
        assert Keys(columns[..i + 1]) == Keys(columns[..i]) + {columns[i].key} by {
          assert forall j :: 0 <= j < i ==> columns[..i + 1][j] == columns[..i][j];
        }
        acc := acc[columns[i].key := Text("")];
      }
      assert columns[..|columns|] == columns;
      assert acc == BlankCells(columns);
      var row := new Row(acc);
      rows := rows + [row];
    }

    /** `removeRow`: drops the row at `index`; an index outside the table drops nothing. */
    method RemoveRow(index: int)
      requires Valid()
      modifies this
      ensures Valid()
      ensures rows == Lists.RemoveAt(old(rows), index)
      ensures Contents() == Lists.RemoveAt(old(Contents()), index)
    {
      rows := Lists.RemoveAt(rows, index);
    }

    /** `updateCell`: writes the entered cell under `key` into the row object at `rowIndex`; the
        list of row objects stays the same, and no other row or key changes. */
    method UpdateCell(rowIndex: int, key: string, value: string, parse: string -> Option<real>)
      requires Valid() && 0 <= rowIndex < |rows|
      modifies rows[rowIndex]
      ensures rows == old(rows) && Valid()
      ensures Contents() == old(Contents())[rowIndex := old(rows[rowIndex].cells)[key := EnteredCell(columns, key, value, parse)]]
    {
      var row := rows[rowIndex];
      row.cells := row.cells[key := EnteredCell(columns, key, value, parse)];
    }

    /** `clearData`: no rows remain. */
    method ClearData()
      modifies this
      ensures rows == [] && Valid()
    {
      rows := [];
    }

    /** The CSV text of the table as `downloadCSV` builds it. */
    function Csv(show: real -> string): (t: string)
      reads this, rows
      ensures Split(t, '\n')[0] == Join(Labels(columns), ',') ||
              exists m :: 0 <= m < |columns| && '\n' in columns[m].heading
    {
      var t := CsvText(columns, Contents(), show);
      var header := Join(Labels(columns), ',');
      if forall m :: 0 <= m < |columns| ==> '\n' !in columns[m].heading then
        JoinWithout(Labels(columns), ',', '\n');
        HeaderLeads(CsvLines(columns, Contents(), show));
        t
      else t
    }

    /** `handlePasteCSV`: a paste that parses replaces every row with new row objects holding the
        parsed cells; a paste of at most one line leaves the table as it was. */
    method HandlePaste(text: string, parse: string -> Option<real>)
      requires Valid()
      modifies this
      ensures Valid()
      ensures ParsePaste(text, columns, parse).None? ==> rows == old(rows)
      ensures ParsePaste(text, columns, parse).Some? ==>
                Contents() == ParsePaste(text, columns, parse).value &&
                forall i :: 0 <= i < |rows| ==> fresh(rows[i])
    {
      var pasted := ParsePaste(text, columns, parse);
      match pasted
      case None =>
      case Some(parsed) =>
        var created := NewRows(parsed);
        rows := created;
        assert Contents() == parsed;
    }
  }

  /** One new, distinct row object per map, holding that map's cells. */
  method NewRows(parsed: seq<map<string, Cell>>) returns (created: seq<Row>)
    ensures |created| == |parsed|
    ensures forall j :: 0 <= j < |parsed| ==> fresh(created[j]) && created[j].cells == parsed[j]
    ensures forall j, l :: 0 <= j < l < |parsed| ==> created[j] != created[l]
  {
    created := [];
    for i := 0 to |parsed|
      invariant |created| == i
      invariant forall j :: 0 <= j < i ==> fresh(created[j]) && created[j].cells == parsed[j]
      invariant forall j, l :: 0 <= j < l < i ==> created[j] != created[l]
    {
      var row := new Row(parsed[i]);
      created := created + [row];
    }
  }

  /** The first line of a join by newlines is the first part, when that part has no newline. */
  lemma HeaderLeads(lines: seq<string>)
    requires |lines| >= 1 && '\n' !in lines[0]
    ensures Split(Join(lines, '\n'), '\n')[0] == lines[0]
  {
    if |lines| == 1 {
      SplitWithoutSeparator(lines[0], '\n');
    } else {
      SplitAfterPiece(lines[0], Join(lines[1..], '\n'), '\n');
    }
  }
}
