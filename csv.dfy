/** The two uses the Collmex API makes of Python's `csv` module:
    a writer with `delimiter=";"`, `quotechar='"'`, `quoting=QUOTE_ALL`
    and `lineterminator="\r\n"`, and a reader with `delimiter=";"`,
    `quotechar='"'` and otherwise default dialect settings
    (`doublequote=True`, `strict=False`, no escape character), fed from
    a text stream that splits lines after each `\n` only. */
module Csv {
  import opened Wrappers

  type Row = seq<string>

  // ---------------------------------------------------------------
  // Writer
  // ---------------------------------------------------------------

  /** The body of a quoted field: every `"` is written twice. */
  function Escape(f: string): string
  {
    if f == [] then []
    else Escape(f[..|f| - 1]) + (if f[|f| - 1] == '"' then "\"\"" else [f[|f| - 1]])
  }

  /** Under `QUOTE_ALL` every field is enclosed in quotes. */
  function Quote(f: string): string
  {
    "\"" + Escape(f) + "\""
  }

  /** The quoted fields of a non-empty row, separated by `;`. */
  function JoinQuoted(row: Row): string
    requires |row| > 0
  {
    if |row| == 1 then Quote(row[0])
    else JoinQuoted(row[..|row| - 1]) + ";" + Quote(row[|row| - 1])
  }

  /** `writer.writerow(row)`: the joined fields and the line terminator;
      an empty row is the terminator alone. */
  function EncodeRow(row: Row): string
  {
    (if row == [] then "" else JoinQuoted(row)) + "\r\n"
  }

  /** `writer.writerows(rows)`: the encoded rows, one after the other. */
  function EncodeRows(rows: seq<Row>): string
  {
    if rows == [] then ""
    else EncodeRows(rows[..|rows| - 1]) + EncodeRow(rows[|rows| - 1])
  }

  /** Proof step: joining strings is associative (used by EncodeRowsAppend). */
  lemma ConcatAssoc(x: string, y: string, z: string)
    ensures x + y + z == x + (y + z)
  {
  }

  /** Writing a list of rows writes each part in turn. */
  lemma {:induction false} EncodeRowsAppend(a: seq<Row>, b: seq<Row>)
    ensures EncodeRows(a + b) == EncodeRows(a) + EncodeRows(b)
  {
    if b != [] {
      var b' := b[..|b| - 1];
      var last := b[|b| - 1];
      assert (a + b)[..|a + b| - 1] == a + b';
      assert (a + b)[|a + b| - 1] == last;
      assert EncodeRows(a + b) == EncodeRows(a + b') + EncodeRow(last);
      assert EncodeRows(b) == EncodeRows(b') + EncodeRow(last);
      EncodeRowsAppend(a, b');
      ConcatAssoc(EncodeRows(a), EncodeRows(b'), EncodeRow(last));
    } else {
      assert a + b == a;
    }
  }

  /** Every row the writer emits ends in `\r\n`, so a non-empty output
      ends in a newline. */
  lemma EncodeRowsEnd(rows: seq<Row>)
    requires rows != []
    ensures |EncodeRows(rows)| >= 2
    ensures EncodeRows(rows)[|EncodeRows(rows)| - 2..] == "\r\n"
  {
  }

  // ---------------------------------------------------------------
  // Reader
  // ---------------------------------------------------------------

  /** The parser states of the reader; the escape state is unreachable
      without an escape character and is left out. */
  datatype State = StartRecord | StartField | InField | InQuotedField | QuoteInQuotedField | EatNewline

  /** A character of a line, or the end-of-line mark the reader feeds
      after each line it receives. */
  datatype Symbol = Char(c: char) | LineEnd

  /** The parser: its state, the field and the fields of the record being
      read, and the records read so far. */
  datatype Reader = Reader(state: State, field: string, fields: Row, rows: seq<Row>)

  /** The one error the reader can raise here: a character after a
      line break outside quotes ("new-line character seen in unquoted
      field"). */
  datatype CsvError = NewlineInUnquotedField

  const Initial := Reader(StartRecord, [], [], [])

  predicate IsNewline(c: char)
  {
    c == '\n' || c == '\r'
  }

  function SaveField(r: Reader): Reader
  {
    r.(field := [], fields := r.fields + [r.field])
  }

  function AddChar(r: Reader, c: char): Reader
  {
    r.(field := r.field + [c])
  }

  /** A character at the start of a field. */
  function BeginField(r: Reader, c: char): Reader
  {
    if IsNewline(c) then SaveField(r).(state := EatNewline)
    else if c == '"' then r.(state := InQuotedField)
    else if c == ';' then SaveField(r).(state := StartField)
    else AddChar(r, c).(state := InField)
  }

  /** The end-of-line mark: a field in progress is saved and the record
      ends, except inside quotes, where the line break belongs to the
      field. */
  function EndLine(r: Reader): Reader
  {
    if r.state == StartRecord || r.state == InQuotedField then r
    else if r.state == EatNewline then r.(state := StartRecord)
    else SaveField(r).(state := StartRecord)
  }

  /** One character of a line. */
  function OnChar(r: Reader, c: char): Result<Reader, CsvError>
  {
    if r.state == StartRecord then
      Success(if IsNewline(c) then r.(state := EatNewline) else BeginField(r, c))
    else if r.state == StartField then Success(BeginField(r, c))
    else if r.state == InField then
      Success(
        if IsNewline(c) then SaveField(r).(state := EatNewline)
        else if c == ';' then SaveField(r).(state := StartField)
        else AddChar(r, c))
    else if r.state == InQuotedField then
      Success(if c == '"' then r.(state := QuoteInQuotedField) else AddChar(r, c))
    else if r.state == QuoteInQuotedField then
      Success(
        if c == '"' then AddChar(r, c).(state := InQuotedField)
        else if c == ';' then SaveField(r).(state := StartField)
        else if IsNewline(c) then SaveField(r).(state := EatNewline)
        else AddChar(r, c).(state := InField))
    else if IsNewline(c) then Success(r)
    else Failure(NewlineInUnquotedField)
  }

  /** One transition of the parser. */
  function Transition(r: Reader, s: Symbol): Result<Reader, CsvError>
  {
    match s
    case LineEnd => Success(EndLine(r))
    case Char(c) => OnChar(r, c)
  }

  /** A transition; when an end of line leaves the parser at the start of
      a record, the record is complete and is handed out. */
  function Advance(r: Reader, s: Symbol): Result<Reader, CsvError>
  {
    var r' :- Transition(r, s);
    if s == LineEnd && r'.state == StartRecord then
      Success(r'.(field := [], fields := [], rows := r'.rows + [r'.fields]))
    else Success(r')
  }

  /** One character of the text; a `\n` closes the current line. */
  function ReadChar(r: Reader, c: char): Result<Reader, CsvError>
  {
    var r' :- Advance(r, Char(c));
    if c == '\n' then Advance(r', LineEnd) else Success(r')
  }

  /** The characters of `text`, in order, stopping at the first error. */
  function Feed(r: Reader, text: string): Result<Reader, CsvError>
  {
    if text == [] then Success(r)
    else
      var r' :- Feed(r, text[..|text| - 1]);
      ReadChar(r', text[|text| - 1])
  }

  /** At the end of the text an open quoted field, or a partly read field,
      is saved and its record handed out. */
  function Finish(r: Reader): seq<Row>
  {
    if r.state == InQuotedField || r.field != [] then r.rows + [r.fields + [r.field]]
    else r.rows
  }

  /** `list(csv.reader(io.StringIO(text), delimiter=";", quotechar='"'))`:
      a last line without `\n` still gets its end-of-line mark. */
  function DecodeText(text: string): Result<seq<Row>, CsvError>
  {
    var r :- Feed(Initial, text);
    var r' :- if text != [] && text[|text| - 1] != '\n' then Advance(r, LineEnd) else Success(r);
    Success(Finish(r'))
  }

  /** Feeding a text in two pieces is feeding it whole. */
  lemma {:induction false} FeedAppend(r: Reader, a: string, b: string)
    ensures Feed(r, a + b) == (match Feed(r, a) case Success(r') => Feed(r', b) case Failure(e) => Failure(e))
  {
    if b == [] {
      assert a + b == a;
    } else {
      var b' := b[..|b| - 1];
      assert (a + b)[..|a + b| - 1] == a + b';
      assert (a + b)[|a + b| - 1] == b[|b| - 1];
      FeedAppend(r, a, b');
    }
  }

  /** Feeding one character is reading it. */
  lemma FeedChar(r: Reader, c: char)
    ensures Feed(r, [c]) == ReadChar(r, c)
  {
    assert [c][..0] == [];
  }

  // Single transitions the round trip goes through.

  lemma ReadOpenQuote(r: Reader)
    requires r.state == StartRecord || r.state == StartField
    ensures ReadChar(r, '"') == Success(r.(state := InQuotedField))
  {
    assert OnChar(r, '"') == Success(r.(state := InQuotedField));
    assert Transition(r, Char('"')) == OnChar(r, '"');
  }

  lemma ReadQuotedChar(r: Reader, c: char)
    requires r.state == InQuotedField && c != '"'
    ensures ReadChar(r, c) == Success(AddChar(r, c))
  {
    assert OnChar(r, c) == Success(AddChar(r, c));
    assert Transition(r, Char(c)) == OnChar(r, c);
    if c == '\n' {
      assert Transition(AddChar(r, c), LineEnd) == Success(AddChar(r, c));
    }
  }

  lemma ReadCloseQuote(r: Reader)
    requires r.state == InQuotedField
    ensures ReadChar(r, '"') == Success(r.(state := QuoteInQuotedField))
  {
    assert OnChar(r, '"') == Success(r.(state := QuoteInQuotedField));
    assert Transition(r, Char('"')) == OnChar(r, '"');
  }

  lemma ReadDoubledQuote(r: Reader)
    requires r.state == QuoteInQuotedField
    ensures ReadChar(r, '"') == Success(AddChar(r, '"').(state := InQuotedField))
  {
    assert OnChar(r, '"') == Success(AddChar(r, '"').(state := InQuotedField));
    assert Transition(r, Char('"')) == OnChar(r, '"');
  }

  lemma ReadDelimiterAfterQuote(r: Reader)
    requires r.state == QuoteInQuotedField
    ensures ReadChar(r, ';') == Success(SaveField(r).(state := StartField))
  {
    assert OnChar(r, ';') == Success(SaveField(r).(state := StartField));
    assert Transition(r, Char(';')) == OnChar(r, ';');
  }

  lemma ReadReturnAfterQuote(r: Reader)
    requires r.state == QuoteInQuotedField
    ensures ReadChar(r, '\r') == Success(SaveField(r).(state := EatNewline))
  {
    assert OnChar(r, '\r') == Success(SaveField(r).(state := EatNewline));
    assert Transition(r, Char('\r')) == OnChar(r, '\r');
  }

  lemma ReadReturnAtStart(r: Reader)
    requires r.state == StartRecord
    ensures ReadChar(r, '\r') == Success(r.(state := EatNewline))
  {
    assert OnChar(r, '\r') == Success(r.(state := EatNewline));
    assert Transition(r, Char('\r')) == OnChar(r, '\r');
  }

  /** The `\n` of a `\r\n` ends the line and hands out the record. */
  lemma ReadLineFeedAfterReturn(r: Reader)
    requires r.state == EatNewline
    ensures ReadChar(r, '\n') == Success(Reader(StartRecord, [], [], r.rows + [r.fields]))
  {
    assert OnChar(r, '\n') == Success(r);
    assert Transition(r, Char('\n')) == OnChar(r, '\n');
    assert Advance(r, Char('\n')) == Success(r);
    assert Transition(r, LineEnd) == Success(r.(state := StartRecord));
  }

  /** Inside quotes the escaped body of a field reads back as the field,
      whatever delimiters, quotes or line breaks it holds. */
  lemma {:induction false} FeedEscape(r: Reader, f: string)
    requires r.state == InQuotedField
    ensures Feed(r, Escape(f)) == Success(r.(field := r.field + f))
  {
    if f != [] {
      var f' := f[..|f| - 1];
      var c := f[|f| - 1];
      var piece := if c == '"' then "\"\"" else [c];
      assert Escape(f) == Escape(f') + piece;
      FeedEscape(r, f');
      FeedAppend(r, Escape(f'), piece);
      var mid := r.(field := r.field + f');
      assert Feed(r, Escape(f)) == Feed(mid, piece);
      if c == '"' {
        assert piece == ['"'] + ['"'];
        FeedAppend(mid, ['"'], ['"']);
        var q := mid.(state := QuoteInQuotedField);
        FeedChar(mid, '"');
        ReadCloseQuote(mid);
        FeedChar(q, '"');
        ReadDoubledQuote(q);
        assert Feed(mid, piece) == Success(AddChar(mid, '"'));
      } else {
        FeedChar(mid, c);
        ReadQuotedChar(mid, c);
        assert Feed(mid, piece) == Success(AddChar(mid, c));
      }
      assert r.field + f' + [c] == r.field + f;
    } else {
      assert r.field + f == r.field;
    }
  }

  /** A quoted field read at the start of a field leaves the parser just
      after the closing quote, holding the field. */
  lemma FeedQuote(r: Reader, f: string)
    requires r.state == StartRecord || r.state == StartField
    requires r.field == []
    ensures Feed(r, Quote(f)) == Success(r.(state := QuoteInQuotedField, field := f))
  {
    var open := r.(state := InQuotedField);
    FeedChar(r, '"');
    ReadOpenQuote(r);
    FeedEscape(open, f);
    assert open.field + f == f;
    FeedAppend(r, "\"", Escape(f));
    FeedAppend(r, "\"" + Escape(f), "\"");
    FeedChar(open.(field := f), '"');
    ReadCloseQuote(open.(field := f));
  }

  /** The joined fields of a row read back as that row, minus its last
      field, which is still being held. */
  lemma {:induction false} FeedJoin(r: Reader, row: Row)
    requires |row| > 0
    requires r.state == StartRecord || r.state == StartField
    requires r.field == []
    ensures Feed(r, JoinQuoted(row)) ==
      Success(r.(state := QuoteInQuotedField, field := row[|row| - 1], fields := r.fields + row[..|row| - 1]))
  {
    if |row| == 1 {
      FeedQuote(r, row[0]);
      assert r.fields + row[..0] == r.fields;
    } else {
      var init := row[..|row| - 1];
      var last := row[|row| - 1];
      assert init[..|init| - 1] + [init[|init| - 1]] == init;
      assert JoinQuoted(row) == JoinQuoted(init) + ";" + Quote(last);
      FeedJoin(r, init);
      var held := r.(state := QuoteInQuotedField, field := init[|init| - 1], fields := r.fields + init[..|init| - 1]);
      FeedAppend(r, JoinQuoted(init), ";");
      var next := SaveField(held).(state := StartField);
      FeedChar(held, ';');
      ReadDelimiterAfterQuote(held);
      FeedAppend(r, JoinQuoted(init) + ";", Quote(last));
      FeedQuote(next, last);
      assert next.fields == r.fields + init;
    }
  }

  /** An empty row is written as a bare line break and read back as an
      empty record. */
  lemma FeedEmptyRow(r: Reader)
    requires r.state == StartRecord && r.field == [] && r.fields == []
    ensures Feed(r, EncodeRow([])) == Success(r.(rows := r.rows + [[]]))
  {
    var eat := r.(state := EatNewline);
    assert EncodeRow([]) == "\r" + "\n";
    FeedAppend(r, "\r", "\n");
    FeedChar(r, '\r');
    ReadReturnAtStart(r);
    assert Feed(r, "\r") == Success(eat);
    FeedChar(eat, '\n');
    ReadLineFeedAfterReturn(eat);
    assert Feed(eat, "\n") == Success(r.(rows := r.rows + [[]]));
  }

  /** The line break after the last field hands the row out. */
  lemma FeedTerminator(held: Reader)
    requires held.state == QuoteInQuotedField
    ensures Feed(held, "\r\n") == Success(Reader(StartRecord, [], [], held.rows + [held.fields + [held.field]]))
  {
    var eat := SaveField(held).(state := EatNewline);
    assert "\r\n" == "\r" + "\n";
    FeedAppend(held, "\r", "\n");
    FeedChar(held, '\r');
    ReadReturnAfterQuote(held);
    FeedChar(eat, '\n');
    ReadLineFeedAfterReturn(eat);
  }

  /** A written non-empty row reads back as one record. */
  lemma FeedFilledRow(r: Reader, row: Row)
    requires r.state == StartRecord && r.field == [] && r.fields == []
    requires row != []
    ensures Feed(r, JoinQuoted(row) + "\r\n") == Success(r.(rows := r.rows + [row]))
  {
    FeedJoin(r, row);
    var held := r.(state := QuoteInQuotedField, field := row[|row| - 1], fields := row[..|row| - 1]);
    assert r.fields + row[..|row| - 1] == row[..|row| - 1];
    FeedAppend(r, JoinQuoted(row), "\r\n");
    FeedTerminator(held);
    assert held.fields + [held.field] == row;
  }

  /** A written row reads back as one record, whatever its fields hold. */
  lemma FeedRow(r: Reader, row: Row)
    requires r.state == StartRecord && r.field == [] && r.fields == []
    ensures Feed(r, EncodeRow(row)) == Success(r.(rows := r.rows + [row]))
  {
    if row == [] {
      FeedEmptyRow(r);
    } else {
      FeedFilledRow(r, row);
    }
  }

  /** Everything the writer writes, the reader reads back record for record. */
  lemma {:induction false} FeedRows(rows: seq<Row>)
    ensures Feed(Initial, EncodeRows(rows)) == Success(Initial.(rows := rows))
  {
    if rows != [] {
      var init := rows[..|rows| - 1];
      var last := rows[|rows| - 1];
      var r := Initial.(rows := init);
      assert init + [last] == rows;
      assert r.(rows := r.rows + [last]) == Initial.(rows := rows);
      FeedRows(init);
      FeedAppend(Initial, EncodeRows(init), EncodeRow(last));
      FeedRow(r, last);
    }
  }

  /** Decoding what was encoded gives the rows back, for any rows of any
      strings: embedded quotes, delimiters and line breaks included. */
  lemma DecodeEncode(rows: seq<Row>)
    ensures DecodeText(EncodeRows(rows)) == Success(rows)
  {
    FeedRows(rows);
    if rows != [] {
      EncodeRowsEnd(rows);
    }
  }

  /** A quoted field left open at the end of the text is not an error:
      the reader hands out what it has read. */
  lemma UnterminatedQuoteExample()
    ensures DecodeText("\"ab") == Success([["ab"]])
  {
    var open := Reader(InQuotedField, [], [], []);
    var a := AddChar(open, 'a');
    var ab := AddChar(a, 'b');
    assert "\"ab" == "\"" + "a" + "b";
    FeedAppend(Initial, "\"", "a");
    FeedAppend(Initial, "\"a", "b");
    FeedChar(Initial, '"');
    ReadOpenQuote(Initial);
    FeedChar(open, 'a');
    ReadQuotedChar(open, 'a');
    FeedChar(a, 'b');
    ReadQuotedChar(a, 'b');
    assert Feed(Initial, "\"ab") == Success(ab);
    assert Transition(ab, LineEnd) == Success(ab);
    assert Advance(ab, LineEnd) == Success(ab);
    assert ab.field == "ab";
    var row: Row := ab.fields + [ab.field];
    assert row == ["ab"];
    assert Finish(ab) == ab.rows + [row];
    assert ab.rows + [row] == [["ab"]];
    var text := "\"ab";
    assert text != [] && text[|text| - 1] != '\n';
  }

  /** A character after a carriage return outside quotes is an error. */
  lemma NewlineInFieldExample()
    ensures DecodeText("a\rb") == Failure(NewlineInUnquotedField)
  {
    var inField := Reader(InField, "a", [], []);
    var eat := Reader(EatNewline, [], ["a"], []);
    assert "a\rb" == "a" + "\r" + "b";
    FeedAppend(Initial, "a", "\r");
    FeedAppend(Initial, "a\r", "b");
    FeedChar(Initial, 'a');
    assert BeginField(Initial, 'a') == inField;
    assert OnChar(Initial, 'a') == Success(inField);
    assert Transition(Initial, Char('a')) == OnChar(Initial, 'a');
    assert Feed(Initial, "a") == Success(inField);
    FeedChar(inField, '\r');
    assert SaveField(inField).(state := EatNewline) == eat;
    assert OnChar(inField, '\r') == Success(eat);
    assert Transition(inField, Char('\r')) == OnChar(inField, '\r');
    assert Feed(inField, "\r") == Success(eat);
    FeedChar(eat, 'b');
    assert OnChar(eat, 'b') == Failure(NewlineInUnquotedField);
    assert Transition(eat, Char('b')) == OnChar(eat, 'b');
    assert Feed(eat, "b") == Failure(NewlineInUnquotedField);
  }
}
