/** The data service of src/services/data/dataService.ts: a key/value store,
    and `exportData`, which turns data into downloadable content (JSON text, or
    CSV for an array of records) and announces the export. The browser's `Blob`
    and `URL.createObjectURL` are outside the model: the object URL comes in as
    an argument and the content handed to it is recorded. */
module Data {
  import opened Wrappers
  import opened Ordered
  import opened Messages

  /** A value as `${val}` renders it, or one of the two values the CSV writer
      replaces by the empty string. */
  datatype Cell = Undefined | Null | Text(rendered: string)

  /** A record; `keys` is what `Object.keys` lists, in insertion order. */
  type Row = OMap<string, Cell>

  /** Data handed to the service: an array of records, or any other value by
      identity. */
  datatype Datum = Records(rows: seq<Row>) | Other(handle: nat)

  /** `ExportOptions` (`None` is undefined). */
  datatype ExportOptions = ExportOptions(format: string, filename: Option<string>)

  /** What `exportData` puts in the `Blob`: the `JSON.stringify` of the data,
      or CSV text. */
  datatype Content = JsonOf(data: Datum) | CsvText(text: string)

  datatype Effect = Download(content: Content) | Published(message: Message)

  /** `parts.join(sep)`. */
  function Join(parts: seq<string>, sep: string): (r: string)
    ensures parts == [] ==> r == ""
    ensures parts != [] ==> |parts[0]| <= |r| && r[..|parts[0]|] == parts[0]
    ensures parts != [] ==> |parts[|parts| - 1]| <= |r| && r[|r| - |parts[|parts| - 1]|..] == parts[|parts| - 1]
    decreases |parts|
  {
    if parts == [] then ""
    else if |parts| == 1 then parts[0]
    else Join(parts[..|parts| - 1], sep) + sep + parts[|parts| - 1]
  }

  /** `row[header]`: an absent key reads as `undefined`. */
  function CellOf(row: Row, header: string): Cell {
    if header in row.entries then row.entries[header] else Undefined
  }

  /** One CSV cell: the rendered value between double quotes, `undefined` and
      `null` as `""`, and no escaping. */
  function Quoted(c: Cell): (s: string)
    ensures |s| >= 2 && s[0] == '"' && s[|s| - 1] == '"'
    ensures c.Text? ==> s[1..|s| - 1] == c.rendered
    ensures !c.Text? ==> s == "\"\""
  {
    "\"" + (if c.Text? then c.rendered else "") + "\""
  }

  /** `headers.map(…).join(',')` for one record. */
  function RowLine(headers: seq<string>, row: Row): (r: string)
    ensures headers == [] ==> r == ""
    ensures headers != [] ==> |r| >= 2 && r[0] == '"' && r[|r| - 1] == '"'
  {
    Join(seq(|headers|, i requires 0 <= i < |headers| => Quoted(CellOf(row, headers[i]))), ",")
  }

  /** The lines `_convertToCSV` collects: the header, then one per record, all
      over the keys of the first record. */
  function CsvLines(data: seq<Row>): (lines: seq<string>)
    ensures data == [] ==> lines == []
    ensures data != [] ==> |lines| == |data| + 1 && lines[0] == Join(data[0].keys, ",")
    ensures data != [] ==> forall i :: 0 <= i < |data| ==> lines[i + 1] == RowLine(data[0].keys, data[i])
  {
    if data == [] then []
    else [Join(data[0].keys, ",")] + seq(|data|, i requires 0 <= i < |data| => RowLine(data[0].keys, data[i]))
  }

  /** `_convertToCSV(data)`. */
  function Csv(data: seq<Row>): (r: string)
    ensures data == [] ==> r == ""
    ensures data != [] ==> var header := Join(data[0].keys, ","); |header| <= |r| && r[..|header|] == header
  {
    Join(CsvLines(data), "\n")
  }

  /** `options.filename || 'export'`. */
  function FileName(o: ExportOptions): (name: string)
    ensures o.filename.Some? && o.filename.value != "" ==> name == o.filename.value
    ensures !(o.filename.Some? && o.filename.value != "") ==> name == "export"
  {
    if o.filename.Some? && o.filename.value != "" then o.filename.value else "export"
  }

  datatype ExportResult = ExportResult(url: Result<string, Error>, effects: seq<Effect>)

  /** The format `switch` of `exportData`: the content, or the error thrown. */
  function ExportContent(data: Datum, format: string): Result<Content, Error> {
    match format
    case "json" => Ok(JsonOf(data))
    case "geojson" => Ok(JsonOf(data))
    case "csv" => if data.Records? then Ok(CsvText(Csv(data.rows))) else Err(CsvRequiresArray)
    case "kml" => Err(KmlNotImplemented)
    case _ => Err(UnsupportedExportFormat(format))
  }

  /** `exportData(data, options)`, with `url` the object URL the browser makes. */
  function Exported(data: Datum, o: ExportOptions, url: string): (r: ExportResult)
    ensures r.url.Err? ==> r.effects == [] && ExportContent(data, o.format) == Err(r.url.error)
    ensures r.url.Ok? ==> r.url.value == url && ExportContent(data, o.format).Ok?
    ensures r.url.Ok? ==> r.effects == [Download(ExportContent(data, o.format).value),
                                        Published(Message("data.exported", ExportData(o.format, FileName(o))))]
  {
    match ExportContent(data, o.format)
    case Err(e) => ExportResult(Err(e), [])
    case Ok(c) => ExportResult(Ok(url), [Download(c), Published(Message("data.exported", ExportData(o.format, FileName(o))))])
  }

  /** Number of occurrences of `c` in `s`. */
  function Occurrences(s: string, c: char): nat
    decreases |s|
  {
    if s == [] then 0 else Occurrences(s[..|s| - 1], c) + (if s[|s| - 1] == c then 1 else 0)
  }

  lemma {:induction false} OccurrencesAppend(a: string, b: string, c: char)
    ensures Occurrences(a + b, c) == Occurrences(a, c) + Occurrences(b, c)
    decreases |b|
  {
    if b == [] {
      assert a + b == a;
    } else {
      assert (a + b)[..|a + b| - 1] == a + b[..|b| - 1];
      OccurrencesAppend(a, b[..|b| - 1], c);
    }
  }

  /** A character in none of the parts and not in the separator is not in
      their join. */
  lemma {:induction false} JoinFree(parts: seq<string>, sep: string, c: char)
    requires Occurrences(sep, c) == 0
    requires forall i :: 0 <= i < |parts| ==> Occurrences(parts[i], c) == 0
    ensures Occurrences(Join(parts, sep), c) == 0
    decreases |parts|
  {
    if |parts| > 1 {
      var init := parts[..|parts| - 1];
      JoinFree(init, sep, c);
      OccurrencesAppend(Join(init, sep), sep, c);
      OccurrencesAppend(Join(init, sep) + sep, parts[|parts| - 1], c);
    }
  }

  /** Lines free of line breaks, joined by `\n`, hold one fewer line break than
      there are lines. */
  lemma {:induction false} JoinLines(lines: seq<string>)
    requires lines != []
    requires forall i :: 0 <= i < |lines| ==> Occurrences(lines[i], '\n') == 0
    ensures Occurrences(Join(lines, "\n"), '\n') == |lines| - 1
    decreases |lines|
  {
    if |lines| > 1 {
      var init := lines[..|lines| - 1];
      JoinLines(init);
      OccurrencesAppend(Join(init, "\n"), "\n", '\n');
      OccurrencesAppend(Join(init, "\n") + "\n", lines[|lines| - 1], '\n');
      assert Occurrences("\n", '\n') == 1 by {
        assert "\n"[..0] == [];
      }
    }
  }

  /** No line break appears in a line built from cells that have none. */
  lemma RowLineFree(headers: seq<string>, row: Row)
    requires forall k :: k in row.entries && row.entries[k].Text? ==> Occurrences(row.entries[k].rendered, '\n') == 0
    ensures Occurrences(RowLine(headers, row), '\n') == 0
  {
    var cells := seq(|headers|, i requires 0 <= i < |headers| => Quoted(CellOf(row, headers[i])));
    forall i | 0 <= i < |cells| ensures Occurrences(cells[i], '\n') == 0 {
      var c := CellOf(row, headers[i]);
      var inner := if c.Text? then c.rendered else "";
      assert Occurrences(inner, '\n') == 0;
      assert Occurrences("\"", '\n') == 0 by {
        assert "\""[..0] == [];
      }
      OccurrencesAppend("\"", inner, '\n');
      OccurrencesAppend("\"" + inner, "\"", '\n');
    }
    assert Occurrences(",", '\n') == 0 by {
      assert ","[..0] == [];
    }
    JoinFree(cells, ",", '\n');
  }

  /** The lines up to record `i` are those before it and its own. */
  lemma CsvLinesGrow(data: seq<Row>, i: nat)
    requires i < |data|
    ensures CsvLines(data)[..i + 2] == CsvLines(data)[..i + 1] + [RowLine(data[0].keys, data[i])]
  {
    var all := CsvLines(data);
    assert all[..i + 2] == all[..i + 1] + [all[i + 1]];
  }

  /** `_convertToCSV([])` is the empty string. */
  lemma CsvEmpty()
    ensures Csv([]) == ""
  {
  }

  /** The CSV text of `n` records is `n + 1` lines joined by `\n`: as long as no
      header and no cell contains a line break, it holds exactly `n` of them. */
  lemma CsvLineCount(data: seq<Row>)
    requires data != []
    requires forall i :: 0 <= i < |data[0].keys| ==> Occurrences(data[0].keys[i], '\n') == 0
    requires forall i, k :: 0 <= i < |data| && k in data[i].entries && data[i].entries[k].Text? ==>
      Occurrences(data[i].entries[k].rendered, '\n') == 0
    ensures Occurrences(Csv(data), '\n') == |data|
  {
    var lines := CsvLines(data);
    CsvLinesFree(data);
    JoinLines(lines);
  }

  /** Under the same conditions no single line holds a line break. */
  lemma CsvLinesFree(data: seq<Row>)
    requires data != []
    requires forall i :: 0 <= i < |data[0].keys| ==> Occurrences(data[0].keys[i], '\n') == 0
    requires forall i, k :: 0 <= i < |data| && k in data[i].entries && data[i].entries[k].Text? ==>
      Occurrences(data[i].entries[k].rendered, '\n') == 0
    ensures forall i :: 0 <= i < |CsvLines(data)| ==> Occurrences(CsvLines(data)[i], '\n') == 0
  {
    var lines := CsvLines(data);
    assert Occurrences(",", '\n') == 0 by {
      assert ","[..0] == [];
    }
    JoinFree(data[0].keys, ",", '\n');
    forall i | 0 <= i < |lines| ensures Occurrences(lines[i], '\n') == 0 {
      if i > 0 {
        RowLineFree(data[0].keys, data[i - 1]);
      }
    }
  }

  /** A later record is written only through the first record's keys: two
      records that agree on those keys give the same line, whatever else they
      hold. */
  lemma LaterRowsUseFirstKeys(data: seq<Row>, i: nat, j: nat)
    requires i < |data| && j < |data|
    requires forall h :: h in data[0].keys ==> CellOf(data[i], h) == CellOf(data[j], h)
    ensures CsvLines(data)[i + 1] == CsvLines(data)[j + 1]
  {
    var hs := data[0].keys;
    assert seq(|hs|, k requires 0 <= k < |hs| => Quoted(CellOf(data[i], hs[k]))) ==
           seq(|hs|, k requires 0 <= k < |hs| => Quoted(CellOf(data[j], hs[k])));
  }

  /** Cells are quoted but not escaped: a value holding a double quote is
      written with it as is. */
  lemma QuotesNotEscaped()
    ensures Quoted(Text("a\"b")) == "\"a\"b\""
    ensures Quoted(Null) == Quoted(Undefined) == "\"\""
  {
  }

  /** `exportData` refuses a `csv` request for data that is not an array, any
      `kml` request, and every format it does not know, and then emits
      nothing; the four known formats with suitable data succeed under the
      filename given or `export`. */
  lemma ExportDispatch(data: Datum, o: ExportOptions, url: string)
    ensures o.format == "csv" && data.Other? ==> Exported(data, o, url) == ExportResult(Err(CsvRequiresArray), [])
    ensures o.format == "kml" ==> Exported(data, o, url) == ExportResult(Err(KmlNotImplemented), [])
    ensures o.format !in {"json", "geojson", "csv", "kml"} ==>
      Exported(data, o, url) == ExportResult(Err(UnsupportedExportFormat(o.format)), [])
    ensures Exported(data, o, url).url.Ok? <==>
      o.format in {"json", "geojson"} || (o.format == "csv" && data.Records?)
    ensures Exported(data, o, url).url.Ok? ==>
      && Exported(data, o, url).url.value == url
      && Exported(data, o, url).effects[1] == Published(Message("data.exported", ExportData(o.format, FileName(o))))
  {
  }

  /** A CSV export hands the CSV text to the download. */
  lemma CsvExportContent(rows: seq<Row>, o: ExportOptions, url: string)
    requires o.format == "csv"
    ensures Exported(Records(rows), o, url).effects[0] == Download(CsvText(Csv(rows)))
    ensures rows == [] ==> Exported(Records(rows), o, url).effects[0] == Download(CsvText(""))
  {
  }

  /** `_dataStore` after `saveData(key, data)`. */
  function Stored(store: map<string, Datum>, key: string, data: Datum): (r: map<string, Datum>)
    ensures r.Keys == store.Keys + {key} && r[key] == data
    ensures forall k :: k in store && k != key ==> r[k] == store[k]
  {
    store[key := data]
  }

  /** `getData(key)` on `_dataStore`: `undefined` (`None`) for a key never saved. */
  function Lookup(store: map<string, Datum>, key: string): (r: Option<Datum>)
    ensures r.Some? <==> key in store
    ensures r.Some? ==> r.value == store[key]
  {
    if key in store then Some(store[key]) else None
  }

  class DataService {
    /** `_dataStore`. */
    var store: map<string, Datum>
    /** The downloads made and the events emitted, oldest first. */
    var effects: seq<Effect>

    constructor()
      ensures store == map[] && effects == []
    {
      store, effects := map[], [];
    }

    method SaveData(key: string, data: Datum)
      modifies this
      ensures store == Stored(old(store), key, data)
      ensures effects == old(effects) + [Published(Message("data.saved", IdData(key)))]
    {
      store := store[key := data];
      effects := effects + [Published(Message("data.saved", IdData(key)))];
    }

    /** `getData(key)`; `undefined` for a key never saved. */
    function GetData(key: string): (r: Option<Datum>)
      reads this
      ensures r == Lookup(store, key)
    {
      if key in store then Some(store[key]) else None
    }

    method ExportData(data: Datum, o: ExportOptions, url: string) returns (r: Result<string, Error>)
      modifies this
      ensures store == old(store)
      ensures r == Exported(data, o, url).url
      ensures effects == old(effects) + Exported(data, o, url).effects
    {
      var content: Content;
      if o.format == "json" || o.format == "geojson" {
        content := JsonOf(data);
      } else if o.format == "csv" {
        if !data.Records? {
          return Err(CsvRequiresArray);
        }
        var text := ConvertToCsv(data.rows);
        content := CsvText(text);
      } else if o.format == "kml" {
        return Err(KmlNotImplemented);
      } else {
        return Err(UnsupportedExportFormat(o.format));
      }
      var filename := if o.filename.Some? && o.filename.value != "" then o.filename.value else "export";
      effects := effects + [Download(content)];
      effects := effects + [Published(Message("data.exported", Payload.ExportData(o.format, filename)))];
      r := Ok(url);
    }

    /** `_convertToCSV(data)`: the header line, then one line per record pushed
        in a loop, joined by `\n`. */
    method ConvertToCsv(data: seq<Row>) returns (text: string)
      ensures text == Csv(data)
    {
      if |data| == 0 {
        return "";
      }
      var headers := data[0].keys;
      var lines := [Join(headers, ",")];
      for i := 0 to |data|
        invariant lines == CsvLines(data)[..i + 1]
      {
        CsvLinesGrow(data, i);
        lines := lines + [RowLine(headers, data[i])];
      }
      assert CsvLines(data)[..|data| + 1] == CsvLines(data);
      text := Join(lines, "\n");
    }
  }

  /** `getData(k)` after `saveData(k, v)` is `v`, every other key reads as
      before, and saving again under `k` replaces the first value. */
  lemma SaveThenGet(store: map<string, Datum>, k: string, v: Datum, w: Datum, other: string)
    requires other != k
    ensures Lookup(Stored(store, k, v), k) == Some(v)
    ensures Lookup(Stored(store, k, v), other) == Lookup(store, other)
    ensures Stored(Stored(store, k, v), k, w) == Stored(store, k, w)
  {
  }
}
