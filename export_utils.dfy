/** The CSV text that exportToCSV of lib/export-utils.ts builds: a header of the
    column labels, then one line per data row of escaped cells. A field reader
    in the style of section 2 of RFC 4180 is the partner against which the
    escaping is proved. */
module ExportUtils {
  import opened Domain
  import opened Strings

  datatype Column = Column(key: string, heading: string)

  /** One data row: an absent key reads as `undefined`, a present `None` is
      `null`, and `Some(s)` is a value whose `String(val)` is `s`. */
  type Row = map<string, Option<string>>

  /** `val === null || val === undefined ? "" : String(val)`. */
  function CellText(row: Row, key: string): (s: string)
    ensures key !in row || row[key] == None ==> s == ""
    ensures key in row && row[key] != None ==> s == row[key].value
  {
    if key in row && row[key].Some? then row[key].value else ""
  }

  /** `str.includes(",") || str.includes('"') || str.includes("\n")`. */
  predicate NeedsQuotes(s: string)
  {
    ',' in s || '"' in s || '\n' in s
  }

  /** `str.replace(/"/g, '""')`. */
  function DoubleQuotes(s: string): (r: string)
    ensures |r| >= |s|
    ensures forall c :: c in r <==> c in s
  {
    if s == [] then []
    else (if s[0] == '"' then "\"\"" else [s[0]]) + DoubleQuotes(s[1..])
  }

  /** The encoding of one cell. */
  function EscapeCell(s: string): (r: string)
    ensures !NeedsQuotes(s) ==> r == s
    ensures NeedsQuotes(s) ==> |r| >= 2 && r[0] == '"' && r[|r| - 1] == '"'
  {
    if NeedsQuotes(s) then "\"" + DoubleQuotes(s) + "\"" else s
  }

  /** The encoded cells of a row, in column order. */
  function Cells(row: Row, columns: seq<Column>): (r: seq<string>)
    ensures |r| == |columns|
    ensures forall i :: 0 <= i < |r| ==> r[i] == EscapeCell(CellText(row, columns[i].key))
  {
    if columns == [] then [] else [EscapeCell(CellText(row, columns[0].key))] + Cells(row, columns[1..])
  }

  function Texts(row: Row, columns: seq<Column>): (r: seq<string>)
    ensures |r| == |columns|
    ensures forall i :: 0 <= i < |r| ==> r[i] == CellText(row, columns[i].key)
  {
    if columns == [] then [] else [CellText(row, columns[0].key)] + Texts(row, columns[1..])
  }

  function Labels(columns: seq<Column>): (r: seq<string>)
    ensures |r| == |columns|
    ensures forall i :: 0 <= i < |r| ==> r[i] == columns[i].heading
  {
    if columns == [] then [] else [columns[0].heading] + Labels(columns[1..])
  }

  /** `columns.map(c => c.label).join(",")`: the labels are not escaped. */
  function Header(columns: seq<Column>): string
  {
    Join(Labels(columns), ',')
  }

  function RowLine(row: Row, columns: seq<Column>): string
  {
    Join(Cells(row, columns), ',')
  }

  function RowLines(data: seq<Row>, columns: seq<Column>): (r: seq<string>)
    ensures |r| == |data|
    ensures forall i :: 0 <= i < |r| ==> r[i] == RowLine(data[i], columns)
  {
    if data == [] then [] else [RowLine(data[0], columns)] + RowLines(data[1..], columns)
  }

  /** `[header, ...rows].join("\n")`. */
  function Csv(data: seq<Row>, columns: seq<Column>): string
  {
    Join([Header(columns)] + RowLines(data, columns), '\n')
  }

  // ------------------------------------------------------------------ reader

  /** Reads the body of a quoted field up to its closing quote, `""` standing
      for one quote; the rest of the text follows. None if no closing quote. */
  function ReadQuoted(t: string): (r: Option<(string, string)>)
    ensures r != None ==> |r.value.1| < |t|
  {
    if t == [] then None
    else if t[0] == '"' then
      if |t| >= 2 && t[1] == '"' then
        match ReadQuoted(t[2..])
        case None => None
        case Some(result) => Some(("\"" + result.0, result.1))
      else Some(("", t[1..]))
    else
      match ReadQuoted(t[1..])
      case None => None
      case Some(result) => Some(([t[0]] + result.0, result.1))
  }

  /** Reads an unquoted field up to the next comma. */
  function ReadPlain(t: string): (r: (string, string))
    ensures r.0 + r.1 == t && ',' !in r.0
    ensures r.1 == [] || r.1[0] == ','
  {
    if t == [] || t[0] == ',' then ("", t)
    else
      var rest := ReadPlain(t[1..]);
      var field := [t[0]] + rest.0;
      assert field + rest.1 == [t[0]] + t[1..] == t;
      assert forall c :: c in field ==> c == t[0] || c in rest.0;
      (field, rest.1)
  }

  /** One field: quoted when it starts with a quote, plain otherwise. */
  function ReadField(t: string): (r: Option<(string, string)>)
    ensures r != None ==> |r.value.1| <= |t|
  {
    if t != [] && t[0] == '"' then ReadQuoted(t[1..]) else Some(ReadPlain(t))
  }

  /** The fields of one record; None when it is malformed. */
  function ParseRecord(t: string): Option<seq<string>>
    decreases |t|
  {
    match ReadField(t)
    case None => None
    case Some(result) =>
      var rest := result.1;
      if rest == [] then Some([result.0])
      else if rest[0] == ',' then
        match ParseRecord(rest[1..])
        case None => None
        case Some(fields) => Some([result.0] + fields)
      else None
  }

  // ------------------------------------------------------------------ proofs

  /** Un-doubling a doubled body gives the original back, and the closing quote
      ends it. */
  lemma {:induction false} ReadQuotedDoubled(s: string, tail: string)
    requires tail == [] || tail[0] != '"'
    ensures ReadQuoted(DoubleQuotes(s) + "\"" + tail) == Some((s, tail))
  {
    var t := DoubleQuotes(s) + "\"" + tail;
    if s == [] {
      assert t == "\"" + tail;
      assert t[1..] == tail;
    } else {
      ReadQuotedDoubled(s[1..], tail);
      var rest := DoubleQuotes(s[1..]) + "\"" + tail;
      if s[0] == '"' {
        assert t == "\"\"" + rest;
        assert t[2..] == rest;
      } else {
        assert t == [s[0]] + rest;
        assert t[1..] == rest;
      }
      assert [s[0]] + s[1..] == s;
    }
  }

  lemma {:induction false} ReadPlainClean(s: string, tail: string)
    requires ',' !in s
    requires tail == [] || tail[0] == ','
    ensures ReadPlain(s + tail) == (s, tail)
  {
    if s == [] {
      assert s + tail == tail;
    } else {
      assert (s + tail)[0] == s[0] && (s + tail)[1..] == s[1..] + tail;
      ReadPlainClean(s[1..], tail);
      assert [s[0]] + s[1..] == s;
    }
  }

  /** Whatever the cell's text, the reader gets it back from the encoding. */
  lemma ReadFieldEscaped(s: string, tail: string)
    requires tail == [] || tail[0] == ','
    ensures ReadField(EscapeCell(s) + tail) == Some((s, tail))
  {
    if NeedsQuotes(s) {
      var t := EscapeCell(s) + tail;
      assert t == "\"" + (DoubleQuotes(s) + "\"" + tail);
      assert t[1..] == DoubleQuotes(s) + "\"" + tail;
      ReadQuotedDoubled(s, tail);
    } else {
      ReadPlainClean(s, tail);
      if s != [] {
        assert (s + tail)[0] == s[0];
      }
    }
  }

  function EscapeAll(texts: seq<string>): (r: seq<string>)
    ensures |r| == |texts|
    ensures forall i :: 0 <= i < |r| ==> r[i] == EscapeCell(texts[i])
  {
    if texts == [] then [] else [EscapeCell(texts[0])] + EscapeAll(texts[1..])
  }

  /** A record of escaped cells reads back as exactly those cells. */
  lemma {:induction false} RecordRoundTrip(texts: seq<string>)
    requires texts != []
    ensures ParseRecord(Join(EscapeAll(texts), ',')) == Some(texts)
  {
    var parts := EscapeAll(texts);
    if |texts| == 1 {
      assert Join(parts, ',') == EscapeCell(texts[0]) + [];
      ReadFieldEscaped(texts[0], []);
      assert texts == [texts[0]];
    } else {
      var tail := [','] + Join(parts[1..], ',');
      assert Join(parts, ',') == EscapeCell(texts[0]) + tail;
      ReadFieldEscaped(texts[0], tail);
      assert EscapeAll(texts[1..]) == parts[1..];
      RecordRoundTrip(texts[1..]);
      assert tail[1..] == Join(parts[1..], ',');
      assert [texts[0]] + texts[1..] == texts;
    }
  }

  /** A row line is the join of one encoded cell per column, and reads back as
      the cells' texts in column order. */
  lemma RowRoundTrip(row: Row, columns: seq<Column>)
    requires columns != []
    ensures ParseRecord(RowLine(row, columns)) == Some(Texts(row, columns))
  {
    assert Cells(row, columns) == EscapeAll(Texts(row, columns));
    RecordRoundTrip(Texts(row, columns));
  }

  /** A cell without a special character is emitted verbatim; one with a comma,
      a quote or a line feed is wrapped in quotes with every quote doubled. */
  lemma EscapeCases(s: string)
    ensures EscapeCell(s) == s <==> !NeedsQuotes(s)
    ensures NeedsQuotes(s) ==> EscapeCell(s) == "\"" + DoubleQuotes(s) + "\""
  {
    if NeedsQuotes(s) {
      assert |EscapeCell(s)| >= |s| + 2;
    }
  }

  lemma {:induction false} DoubleQuotesNoQuote(s: string)
    ensures '"' !in s ==> DoubleQuotes(s) == s
  {
    if s != [] {
      DoubleQuotesNoQuote(s[1..]);
      assert [s[0]] + s[1..] == s;
    }
  }

  /** With no line feed in any heading or cell text, the text splits on line feeds
      into the header followed by exactly one line per data row, and with
      headings free of commas, quotes and line feeds, the header reads back as the
      labels. */
  lemma CsvLines(data: seq<Row>, columns: seq<Column>)
    requires forall i :: 0 <= i < |columns| ==> '\n' !in columns[i].heading
    requires forall r, i :: r in data && 0 <= i < |columns| ==> '\n' !in CellText(r, columns[i].key)
    ensures Split(Csv(data, columns), '\n') == [Header(columns)] + RowLines(data, columns)
  {
    var lines := [Header(columns)] + RowLines(data, columns);
    LabelsLineFree(columns);
    forall k | 0 <= k < |lines| ensures '\n' !in lines[k] {
      if k > 0 {
        var row := data[k - 1];
        assert row in data;
        assert lines[k] == RowLine(row, columns);
        forall i | 0 <= i < |Cells(row, columns)| ensures '\n' !in Cells(row, columns)[i] {
          assert '\n' !in CellText(row, columns[i].key);
        }
        JoinLineFree(Cells(row, columns));
      }
    }
    SplitJoin(lines, '\n');
  }

  lemma LabelsLineFree(columns: seq<Column>)
    requires forall i :: 0 <= i < |columns| ==> '\n' !in columns[i].heading
    ensures '\n' !in Header(columns)
  {
    JoinLineFree(Labels(columns));
  }

  /** Joining with commas adds no line feed. */
  lemma {:induction false} JoinLineFree(parts: seq<string>)
    requires forall i :: 0 <= i < |parts| ==> '\n' !in parts[i]
    ensures '\n' !in Join(parts, ',')
  {
    if |parts| > 1 {
      JoinLineFree(parts[1..]);
    }
  }

  /** The header reads back as the labels when they hold nothing special. */
  lemma HeaderRoundTrip(columns: seq<Column>)
    requires columns != []
    requires forall i :: 0 <= i < |columns| ==> !NeedsQuotes(columns[i].heading)
    ensures ParseRecord(Header(columns)) == Some(Labels(columns))
  {
    assert EscapeAll(Labels(columns)) == Labels(columns);
    RecordRoundTrip(Labels(columns));
  }

  /** Labels are not escaped: a label holding a comma reads back as two fields. */
  lemma LabelWithCommaSplits()
    ensures Header([Column("k", "a,b")]) == "a,b"
    ensures ParseRecord(Header([Column("k", "a,b")])) == Some(["a", "b"])
  {
    assert Labels([Column("k", "a,b")]) == ["a,b"];
    ReadPlainClean("a", ",b");
    ReadPlainClean("b", "");
    assert "a" + ",b" == "a,b" && "b" + "" == "b";
    assert ReadField("b") == Some(("b", ""));
    assert ParseRecord("b") == Some(["b"]);
    assert ReadField("a,b") == Some(("a", ",b"));
    assert ",b"[1..] == "b";
    assert ParseRecord("a,b") == Some(["a"] + ["b"]);
    assert ["a"] + ["b"] == ["a", "b"];
  }
}
