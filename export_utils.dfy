/**
 * utils/exportUtils.ts: exportToCSV turns a list of plain objects into CSV text, one
 * header line from the first object's keys and one line per object. The download
 * that follows is not part of this model.
 */
module ExportUtils {
  import opened Wrappers
  import opened Text

  /** The kinds of value a cell can hold, each carrying what the cell rule needs of it. */
  datatype JsValue =
    | Str(s: string)
    | Num(text: string)           // the number as `String(n)` prints it
    | Bool(b: bool)
    | DateObj(localeText: string) // `toLocaleDateString()` of the date
    | Obj(json: string)           // `JSON.stringify` of the object or array
    | Null
    | Undefined

  /** An object literal: the keys in the order `Object.keys` reports. */
  type Row = seq<(string, JsValue)>

  function Keys(row: Row): (r: seq<string>)
    ensures |r| == |row| && forall i :: 0 <= i < |row| ==> r[i] == row[i].0
  {
    if row == [] then [] else [row[0].0] + Keys(row[1..])
  }

  /** `row[fieldName]`: the value under the key, undefined when the object lacks it. */
  function Lookup(row: Row, key: string): (r: JsValue)
    ensures (forall i :: 0 <= i < |row| ==> row[i].0 != key) ==> r == Undefined
    ensures forall i :: 0 <= i < |row| && row[i].0 == key && (forall j :: 0 <= j < i ==> row[j].0 != key) ==> r == row[i].1
  {
    if row == [] then Undefined else if row[0].0 == key then row[0].1 else Lookup(row[1..], key)
  }

  /** `s.replace(/"/g, '""')`. */
  function DoubleQuotes(s: string): (r: string)
    ensures |r| >= |s|
  {
    if s == [] then [] else (if s[0] == '"' then "\"\"" else [s[0]]) + DoubleQuotes(s[1..])
  }

  /** Reads a doubled string back: a quote must come as a pair; a lone quote is malformed. */
  function UndoubleQuotes(s: string): Option<string> {
    if s == [] then Some([])
    else if s[0] == '"' then
      if |s| >= 2 && s[1] == '"' then
        match UndoubleQuotes(s[2..])
        case Some(rest) => Some("\"" + rest)
        case None => None
      else None
    else
      match UndoubleQuotes(s[1..])
      case Some(rest) => Some([s[0]] + rest)
      case None => None
  }

  /** Doubling loses nothing: reading the doubled text back gives the original. */
  lemma {:induction false} UndoubleDouble(s: string)
    ensures UndoubleQuotes(DoubleQuotes(s)) == Some(s)
  {
    if s != [] {
      UndoubleDouble(s[1..]);
      var head := if s[0] == '"' then "\"\"" else [s[0]];
      var d := head + DoubleQuotes(s[1..]);
      if s[0] == '"' {
        assert d[2..] == DoubleQuotes(s[1..]);
      } else {
        assert d[1..] == DoubleQuotes(s[1..]);
      }
      assert [s[0]] + s[1..] == s;
    }
  }

  /** Doubling adds only quotes. */
  lemma {:induction false} DoubleQuotesAvoids(s: string, c: char)
    requires c != '"' && c !in s
    ensures c !in DoubleQuotes(s)
  {
    if s != [] {
      DoubleQuotesAvoids(s[1..], c);
    }
  }

  /** `"…"` around the doubled text. */
  function Quote(s: string): string {
    "\"" + DoubleQuotes(s) + "\""
  }

  /** The cell rules, in the order the source tests them; `join` prints null and undefined as empty. */
  function Cell(v: JsValue): string {
    match v
    case Str(s) => Quote(s)
    case DateObj(t) => "\"" + t + "\""
    case Obj(json) => Quote(json)
    case Num(text) => text
    case Bool(b) => if b then "true" else "false"
    case Null => ""
    case Undefined => ""
  }

  /** A quoted string cell reads back as the string it was made from. */
  lemma StringCellRoundTrip(s: string)
    ensures |Cell(Str(s))| >= 2 && Cell(Str(s))[0] == '"' && Cell(Str(s))[|Cell(Str(s))| - 1] == '"'
    ensures UndoubleQuotes(Cell(Str(s))[1..|Cell(Str(s))| - 1]) == Some(s)
  {
    var c := Cell(Str(s));
    assert c[1..|c| - 1] == DoubleQuotes(s);
    UndoubleDouble(s);
  }

  /** One data line: the row's value under each header, in header order. */
  function Cells(row: Row, headers: seq<string>): (r: seq<string>)
    ensures |r| == |headers| && forall j :: 0 <= j < |headers| ==> r[j] == Cell(Lookup(row, headers[j]))
  {
    if headers == [] then []
    else
      var rest := Cells(row, headers[1..]);
      assert forall j :: 1 <= j < |headers| ==> rest[j - 1] == Cell(Lookup(row, headers[j]));
      [Cell(Lookup(row, headers[0]))] + rest
  }

  function RowLines(rows: seq<Row>, headers: seq<string>): (r: seq<string>)
    ensures |r| == |rows| && forall i :: 0 <= i < |rows| ==> r[i] == Join(Cells(rows[i], headers), ",")
  {
    if rows == [] then [] else [Join(Cells(rows[0], headers), ",")] + RowLines(rows[1..], headers)
  }

  /** exportToCSV's text: None when there is no data (the "No data to export" alert). */
  function ToCsv(data: Option<seq<Row>>): Option<string> {
    if data.None? || |data.value| == 0 then None
    else
      var headers := Keys(data.value[0]);
      Some(Join([Join(headers, ",")] + RowLines(data.value, headers), "\n"))
  }

  /** No line break anywhere in the value's printed text. */
  predicate NoBreak(v: JsValue) {
    match v
    case Str(s) => '\n' !in s
    case Num(t) => '\n' !in t
    case DateObj(t) => '\n' !in t
    case Obj(j) => '\n' !in j
    case _ => true
  }

  predicate RowNoBreak(row: Row) {
    forall i :: 0 <= i < |row| ==> '\n' !in row[i].0 && NoBreak(row[i].1)
  }

  lemma CellNoBreak(v: JsValue)
    requires NoBreak(v)
    ensures '\n' !in Cell(v)
  {
    match v
    case Str(s) => DoubleQuotesAvoids(s, '\n');
    case Obj(j) => DoubleQuotesAvoids(j, '\n');
    case _ =>
  }

  lemma {:induction false} LookupNoBreak(row: Row, key: string)
    requires RowNoBreak(row)
    ensures NoBreak(Lookup(row, key))
  {
    if row != [] && row[0].0 != key {
      LookupNoBreak(row[1..], key);
    }
  }

  /** A line built from break-free rows has no break of its own. */
  lemma LineNoBreak(row: Row, headers: seq<string>)
    requires RowNoBreak(row)
    ensures '\n' !in Join(Cells(row, headers), ",")
  {
    var cells := Cells(row, headers);
    forall j | 0 <= j < |cells| ensures '\n' !in cells[j] {
      LookupNoBreak(row, headers[j]);
      CellNoBreak(Lookup(row, headers[j]));
    }
    JoinAvoids(cells, ",", '\n');
  }

  /**
   * When no key or value holds a line break, the text splits into exactly one header
   * line and one line per row: the first object's keys, then each row's cells.
   */
  lemma CsvLines(rows: seq<Row>)
    requires |rows| > 0 && forall i :: 0 <= i < |rows| ==> RowNoBreak(rows[i])
    ensures ToCsv(Some(rows)).Some?
    ensures var lines := SplitOn(ToCsv(Some(rows)).value, '\n');
      && |lines| == |rows| + 1
      && lines[0] == Join(Keys(rows[0]), ",")
      && forall i :: 0 <= i < |rows| ==> lines[i + 1] == Join(Cells(rows[i], Keys(rows[0])), ",")
  {
    var headers := Keys(rows[0]);
    var lines := [Join(headers, ",")] + RowLines(rows, headers);
    JoinAvoids(headers, ",", '\n');
    forall k | 0 <= k < |lines| ensures '\n' !in lines[k] {
      if k > 0 {
        LineNoBreak(rows[k - 1], headers);
      }
    }
    SplitJoin(lines, '\n');
  }

  /** No data means no file. */
  lemma EmptyExportsNothing()
    ensures ToCsv(None) == None && ToCsv(Some([])) == None
  {
  }
}
