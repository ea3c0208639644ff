/** The low-level Collmex API client of `api.py`: rows go out as
    semicolon-separated, fully quoted CSV in code page 1252 behind a
    `LOGIN` row, the response is read back the same way and scanned for
    error messages, and one HTTP connection is opened lazily and closed on
    demand. The HTTP exchange itself is a function the client is given. */
module Api {
  import opened Wrappers
  import Csv
  import Cp1252
  import opened PyInt

  type Row = Csv.Row
  type Bytes = seq<Cp1252.byte>

  /** What `CollmexAPI` reads from its configuration. */
  datatype Config = Config(username: string, password: string, companyId: int)

  /** The exceptions a request raises. `CollmexAuthError` is a subclass
      of `CollmexError`; both carry the message text and the code. The
      other four stand for the codec and transport exceptions
      (`UnicodeEncodeError`, `UnicodeDecodeError`, `csv.Error`, and
      `httpx`'s errors including `raise_for_status`). */
  datatype ApiError =
    | CollmexError(message: string, code: string)
    | CollmexAuthError(message: string, code: string)
    | EncodingFailed
    | DecodingFailed
    | MalformedCsv(error: Csv.CsvError)
    | TransportFailed
  {
    /** `isinstance(e, CollmexError)`. */
    predicate IsCollmexError()
    {
      CollmexError? || CollmexAuthError?
    }
  }

  /** The HTTP POST of a payload: the response body, or `None` when the
      transport fails or the status is an error. */
  type Exchange = Bytes -> Option<Bytes>

  // ---------------------------------------------------------------
  // Wire format
  // ---------------------------------------------------------------

  /** `_encode_csv`: the rows are written one by one into a text buffer,
      which is then encoded; `None` where encoding raises. */
  method EncodeCsv(rows: seq<Row>) returns (payload: Option<Bytes>)
    ensures payload == Cp1252.Encode(Csv.EncodeRows(rows))
  {
    var output := "";
    var i := 0;
    while i < |rows|
      invariant 0 <= i <= |rows|
      invariant output == Csv.EncodeRows(rows[..i])
    {
      assert rows[..i + 1][..i] == rows[..i];
      output := output + Csv.EncodeRow(rows[i]);
      i := i + 1;
    }
    assert rows[..i] == rows;
    payload := Cp1252.Encode(output);
  }

  /** `_decode_csv`: the bytes are decoded, then read as CSV. */
  function DecodeCsv(data: Bytes): Result<seq<Row>, ApiError>
  {
    match Cp1252.Decode(data)
    case None => Failure(DecodingFailed)
    case Some(text) =>
      match Csv.DecodeText(text)
      case Failure(e) => Failure(MalformedCsv(e))
      case Success(rows) => Success(rows)
  }

  /** Every field of a row uses only characters of the code page. */
  predicate RowRepresentable(row: Row)
  {
    forall j :: 0 <= j < |row| ==> Cp1252.Representable(row[j])
  }

  /** Every field of every row does. */
  predicate FieldsRepresentable(rows: seq<Row>)
  {
    forall i :: 0 <= i < |rows| ==> RowRepresentable(rows[i])
  }

  lemma RepresentableAppend(a: string, b: string)
    ensures Cp1252.Representable(a + b) <==> Cp1252.Representable(a) && Cp1252.Representable(b)
  {
    var s := a + b;
    assert forall i :: 0 <= i < |a| ==> s[i] == a[i];
    assert forall i :: 0 <= i < |b| ==> s[|a| + i] == b[i];
    if Cp1252.Representable(a) && Cp1252.Representable(b) {
      forall i | 0 <= i < |s|
        ensures Cp1252.EncodeChar(s[i]).Some?
      {
        if i >= |a| {
          assert s[i] == b[i - |a|];
        }
      }
    }
    if Cp1252.Representable(s) {
      forall i | 0 <= i < |b|
        ensures Cp1252.EncodeChar(b[i]).Some?
      {
        assert s[|a| + i] == b[i];
      }
    }
  }

  /** Doubling quotes adds only quotes, which the code page has. */
  lemma {:induction false} EscapeRepresentable(f: string)
    ensures Cp1252.Representable(Csv.Escape(f)) <==> Cp1252.Representable(f)
  {
    if f != [] {
      var init := f[..|f| - 1];
      var c := f[|f| - 1];
      EscapeRepresentable(init);
      RepresentableAppend(Csv.Escape(init), if c == '"' then "\"\"" else [c]);
      RepresentableAppend(init, [c]);
      assert f == init + [c];
    }
  }

  lemma QuoteRepresentable(f: string)
    ensures Cp1252.Representable(Csv.Quote(f)) <==> Cp1252.Representable(f)
  {
    EscapeRepresentable(f);
    RepresentableAppend("\"", Csv.Escape(f));
    RepresentableAppend("\"" + Csv.Escape(f), "\"");
  }

  lemma {:induction false} JoinRepresentable(row: Row)
    requires |row| > 0
    ensures Cp1252.Representable(Csv.JoinQuoted(row)) <==> RowRepresentable(row)
  {
    var init := row[..|row| - 1];
    var last := row[|row| - 1];
    QuoteRepresentable(last);
    if |row| > 1 {
      JoinRepresentable(init);
      RepresentableAppend(Csv.JoinQuoted(init), ";");
      RepresentableAppend(Csv.JoinQuoted(init) + ";", Csv.Quote(last));
      assert RowRepresentable(row) <==> RowRepresentable(init) && Cp1252.Representable(last) by {
        assert row == init + [last];
      }
    }
  }

  lemma EncodeRowRepresentable(row: Row)
    ensures Cp1252.Representable(Csv.EncodeRow(row)) <==> RowRepresentable(row)
  {
    if row != [] {
      JoinRepresentable(row);
    }
    RepresentableAppend(if row == [] then "" else Csv.JoinQuoted(row), "\r\n");
  }

  /** The text written for some rows can be encoded exactly when every
      field can: the quotes, separators and line breaks always can. */
  lemma {:induction false} RowsRepresentable(rows: seq<Row>)
    ensures Cp1252.Representable(Csv.EncodeRows(rows)) <==> FieldsRepresentable(rows)
  {
    if rows != [] {
      var init := rows[..|rows| - 1];
      var last := rows[|rows| - 1];
      RowsRepresentable(init);
      EncodeRowRepresentable(last);
      RepresentableAppend(Csv.EncodeRows(init), Csv.EncodeRow(last));
      FieldsSplit(rows);
    }
  }

  lemma FieldsSplit(rows: seq<Row>)
    requires rows != []
    ensures FieldsRepresentable(rows) <==>
      FieldsRepresentable(rows[..|rows| - 1]) && RowRepresentable(rows[|rows| - 1])
  {
    var init := rows[..|rows| - 1];
    assert forall i :: 0 <= i < |init| ==> init[i] == rows[i];
    if FieldsRepresentable(init) && RowRepresentable(rows[|rows| - 1]) {
      forall i | 0 <= i < |rows|
        ensures RowRepresentable(rows[i])
      {
        if i < |init| {
          assert RowRepresentable(init[i]);
        }
      }
    }
  }

  /** Encoding fails exactly when some field has a character outside the
      code page; otherwise decoding gives back the rows exactly. */
  lemma CsvRoundTrip(rows: seq<Row>)
    ensures Cp1252.Encode(Csv.EncodeRows(rows)).Some? <==> FieldsRepresentable(rows)
    ensures FieldsRepresentable(rows) ==> DecodeCsv(Cp1252.Encode(Csv.EncodeRows(rows)).value) == Success(rows)
  {
    var text := Csv.EncodeRows(rows);
    RowsRepresentable(rows);
    Cp1252.EncodeDecode(text);
    Csv.DecodeEncode(rows);
  }

  // ---------------------------------------------------------------
  // Error scan
  // ---------------------------------------------------------------

  /** `row[i] if len(row) > i else default`. */
  function FieldOr(row: Row, i: nat, default: string): string
  {
    if |row| > i then row[i] else default
  }

  /** A non-empty `MESSAGE` row of type `E`. */
  predicate IsErrorRow(row: Row)
  {
    row != [] && row[0] == "MESSAGE" && FieldOr(row, 1, "") == "E"
  }

  /** The codes that mean the login was refused. */
  const AuthCodes: set<string> := {"101001", "101002", "101003"}

  /** The exception an error row raises. */
  function RowError(row: Row): (e: ApiError)
    requires IsErrorRow(row)
    ensures e.IsCollmexError() && e.code == FieldOr(row, 2, "") && e.message == FieldOr(row, 3, "Unknown error")
    ensures e.CollmexAuthError? <==> FieldOr(row, 2, "") in AuthCodes
  {
    var code := FieldOr(row, 2, "");
    var text := FieldOr(row, 3, "Unknown error");
    if code in AuthCodes then CollmexAuthError(text, code) else CollmexError(text, code)
  }

  /** The exception the first error row raises, if there is one. */
  function FirstError(rows: seq<Row>): Option<ApiError>
  {
    if rows == [] then None
    else if IsErrorRow(rows[0]) then Some(RowError(rows[0]))
    else FirstError(rows[1..])
  }

  /** `_check_errors`: the rows are scanned in order and the first error
      row raises; warnings, successes and all other rows pass. */
  method CheckErrors(rows: seq<Row>) returns (error: Option<ApiError>)
    ensures error == FirstError(rows)
  {
    var i := 0;
    while i < |rows|
      invariant 0 <= i <= |rows|
      invariant FirstError(rows) == FirstError(rows[i..])
    {
      assert rows[i..][1..] == rows[i + 1..];
      var row := rows[i];
      if row != [] {
        var recordType := row[0];
        if recordType == "MESSAGE" {
          var msgType := if |row| > 1 then row[1] else "";
          var msgCode := if |row| > 2 then row[2] else "";
          var msgText := if |row| > 3 then row[3] else "Unknown error";
          if msgType == "E" {
            if msgCode in AuthCodes {
              return Some(CollmexAuthError(msgText, msgCode));
            }
            return Some(CollmexError(msgText, msgCode));
          }
        }
      }
      i := i + 1;
    }
    return None;
  }

  /** An error is raised exactly when some row is an error row, and then
      it is the one the earliest error row raises. */
  lemma {:induction false} FirstErrorSpec(rows: seq<Row>)
    ensures FirstError(rows).Some? <==> exists i :: 0 <= i < |rows| && IsErrorRow(rows[i])
    ensures FirstError(rows).Some? ==>
      exists k :: 0 <= k < |rows| && IsErrorRow(rows[k]) && FirstError(rows) == Some(RowError(rows[k]))
        && forall j :: 0 <= j < k ==> !IsErrorRow(rows[j])
  {
    if rows != [] {
      var rest := rows[1..];
      FirstErrorSpec(rest);
      assert forall i :: 0 <= i < |rest| ==> rest[i] == rows[i + 1];
      if !IsErrorRow(rows[0]) {
        if FirstError(rows).Some? {
          var k' :| 0 <= k' < |rest| && IsErrorRow(rest[k']) && FirstError(rest) == Some(RowError(rest[k']))
            && forall j :: 0 <= j < k' ==> !IsErrorRow(rest[j]);
          assert IsErrorRow(rows[k' + 1]);
        }
        if exists i :: 0 <= i < |rows| && IsErrorRow(rows[i]) {
          var i :| 0 <= i < |rows| && IsErrorRow(rows[i]);
          assert IsErrorRow(rest[i - 1]);
        }
      }
    }
  }

  /** Rows that are not error rows never raise, wherever they stand. */
  lemma NoErrorRows(rows: seq<Row>)
    requires forall i :: 0 <= i < |rows| ==> !IsErrorRow(rows[i])
    ensures FirstError(rows) == None
  {
    FirstErrorSpec(rows);
  }

  /** A bare `MESSAGE;E` row raises a generic error with an empty code
      and the text "Unknown error"; an authentication code raises the
      authentication error. */
  lemma ErrorDefaults()
    ensures FirstError([["MESSAGE", "E"]]) == Some(CollmexError("Unknown error", ""))
    ensures FirstError([["MESSAGE", "W", "1"], ["MESSAGE", "E", "101002", "denied"]])
      == Some(CollmexAuthError("denied", "101002"))
  {
    var rows := [["MESSAGE", "W", "1"], ["MESSAGE", "E", "101002", "denied"]];
    assert !IsErrorRow(rows[0]);
    assert rows[1..] == [rows[1]];
  }

  // ---------------------------------------------------------------
  // Requests
  // ---------------------------------------------------------------

  /** `_build_login_row`. */
  function LoginRow(config: Config): Row
  {
    ["LOGIN", config.username, config.password]
  }

  /** The bytes a request sends: the login row, then the caller's rows. */
  function Payload(config: Config, rows: seq<Row>): Option<Bytes>
  {
    Cp1252.Encode(Csv.EncodeRows([LoginRow(config)] + rows))
  }

  /** What a response body turns into: its decoded rows, unless decoding
      fails or a row reports an error. */
  function Respond(response: Option<Bytes>): Result<seq<Row>, ApiError>
  {
    match response
    case None => Failure(TransportFailed)
    case Some(data) =>
      var rows :- DecodeCsv(data);
      match FirstError(rows)
      case Some(e) => Failure(e)
      case None => Success(rows)
  }

  /** The outcome of `request(*rows)` against a given exchange. */
  function Outcome(config: Config, exchange: Exchange, rows: seq<Row>): Result<seq<Row>, ApiError>
  {
    match Payload(config, rows)
    case None => Failure(EncodingFailed)
    case Some(payload) => Respond(exchange(payload))
  }

  /** The payload is the login row followed by the caller's rows,
      unchanged and in order, whenever it can be encoded at all. */
  lemma PayloadRows(config: Config, rows: seq<Row>)
    ensures Payload(config, rows).Some? <==> FieldsRepresentable([LoginRow(config)] + rows)
    ensures Payload(config, rows).Some? ==> DecodeCsv(Payload(config, rows).value) == Success([LoginRow(config)] + rows)
  {
    CsvRoundTrip([LoginRow(config)] + rows);
  }

  /** The one-row case, as the client sends it. */
  lemma SingleRowPayload(config: Config, row: Row)
    requires FieldsRepresentable([LoginRow(config), row])
    ensures Payload(config, [row]).Some?
    ensures DecodeCsv(Payload(config, [row]).value) == Success([LoginRow(config), row])
  {
    assert [LoginRow(config)] + [row] == [LoginRow(config), row];
    PayloadRows(config, [row]);
  }

  /** A request succeeds with exactly the decoded response, warnings and
      success messages included, when no row of it is an error row. */
  lemma RespondSuccess(data: Bytes, rows: seq<Row>)
    ensures Respond(Some(data)) == Success(rows) <==>
      DecodeCsv(data) == Success(rows) && forall i :: 0 <= i < |rows| ==> !IsErrorRow(rows[i])
  {
    if DecodeCsv(data) == Success(rows) {
      FirstErrorSpec(rows);
    }
  }

  /** A connection handle; its number tells apart the handles opened in
      turn. */
  datatype Handle = Handle(serial: nat)

  /** A query parameter: `None`, a `bool`, an `int` or a `str`. */
  datatype Param = NoneParam | BoolParam(flag: bool) | IntParam(number: int) | TextParam(text: string)

  /** How `query` writes a parameter: `None` as `""`, a bool as `"1"` or
      `"0"`, anything else with `str`. */
  function ParamText(p: Param): string
  {
    match p
    case NoneParam => ""
    case BoolParam(b) => if b then "1" else "0"
    case IntParam(n) => IntToString(n)
    case TextParam(s) => s
  }

  /** The query row: the record type, then the parameters in order. */
  function QueryRow(recordType: string, params: seq<Param>): (row: Row)
    ensures |row| == |params| + 1
  {
    [recordType] + seq(|params|, i requires 0 <= i < |params| => ParamText(params[i]))
  }

  /** A written parameter reads back: `None` as the empty field, `False`
      as 0 rather than empty, `True` as 1 and an integer as itself. */
  lemma ParamReadsBack(p: Param)
    ensures p.NoneParam? ==> ParamText(p) == ""
    ensures p.BoolParam? ==> ParamText(p) != "" && ParseInt(ParamText(p)) == Some(if p.flag then 1 else 0)
    ensures p.IntParam? ==> ParamText(p) != "" && ParseInt(ParamText(p)) == Some(p.number)
  {
    if p.IntParam? {
      ParseIntToString(p.number);
    } else if p.BoolParam? {
      DigitsParse(ParamText(p));
    }
  }

  /** A row `query` keeps: non-empty and not a message. */
  predicate IsDataRow(row: Row)
  {
    row != [] && row[0] != "MESSAGE"
  }

  /** The rows `query` returns are exactly the data rows of the response,
      in response order. */
  lemma DataRows(rows: seq<Row>, row: Row)
    ensures row in Keep(rows, IsDataRow) <==> row in rows && IsDataRow(row)
    ensures forall i :: 0 <= i < |Keep(rows, IsDataRow)| ==> IsDataRow(Keep(rows, IsDataRow)[i])
    ensures (forall i :: 0 <= i < |rows| ==> IsDataRow(rows[i])) ==> Keep(rows, IsDataRow) == rows
  {
    KeepMembers(rows, IsDataRow, row);
    KeepAllPass(rows, IsDataRow);
    if forall i :: 0 <= i < |rows| ==> IsDataRow(rows[i]) {
      KeepAll(rows, IsDataRow);
    }
  }

  /** How a request leaves the connection: untouched when the payload
      cannot be encoded, since encoding comes first; otherwise open, the
      same one when there was one and a newly opened one when not. */
  predicate AfterRequest(payload: Option<Bytes>, before: Option<Handle>, openedBefore: nat,
                         after: Option<Handle>, openedAfter: nat)
  {
    if payload.None? then after == before && openedAfter == openedBefore
    else if before.Some? then after == before && openedAfter == openedBefore
    else after == Some(Handle(openedBefore)) && openedAfter == openedBefore + 1
  }

  /** `CollmexAPI`: its configuration, the exchange it posts through, the
      lazily opened connection, and how many connections it has opened. */
  class CollmexApi {
    const config: Config
    const exchange: Exchange
    var connection: Option<Handle>
    var openings: nat

    constructor (config: Config, exchange: Exchange)
      ensures this.config == config && this.exchange == exchange
      ensures connection == None && openings == 0
    {
      this.config := config;
      this.exchange := exchange;
      connection := None;
      openings := 0;
    }

    /** The `client` property: a connection is opened only when there is
        none, and the open one is reused otherwise. */
    method Client() returns (h: Handle)
      modifies this
      ensures old(connection).Some? ==> h == old(connection).value && openings == old(openings)
      ensures old(connection).None? ==> h == Handle(old(openings)) && openings == old(openings) + 1
      ensures connection == Some(h)
    {
      if connection.None? {
        connection := Some(Handle(openings));
        openings := openings + 1;
      }
      h := connection.value;
    }

    /** `close`: afterwards there is no connection, whatever there was
        before, so closing twice is closing once. */
    method Close()
      modifies this
      ensures connection == None && openings == old(openings)
    {
      if connection.Some? {
        connection := None;
      }
    }

    /** `request(*rows)`: the payload is encoded first; only then is the
        connection obtained and the payload posted; the response is
        decoded and checked. */
    method Request(rows: seq<Row>) returns (result: Result<seq<Row>, ApiError>)
      modifies this
      ensures result == Outcome(config, exchange, rows)
      ensures AfterRequest(Payload(config, rows), old(connection), old(openings), connection, openings)
    {
      var allRows := [LoginRow(config)] + rows;
      var payload := EncodeCsv(allRows);
      if payload.None? {
        return Failure(EncodingFailed);
      }
      var _ := Client();
      var response := exchange(payload.value);
      if response.None? {
        return Failure(TransportFailed);
      }
      var decoded := DecodeCsv(response.value);
      if decoded.Failure? {
        return Failure(decoded.error);
      }
      var error := CheckErrors(decoded.value);
      if error.Some? {
        return Failure(error.value);
      }
      return Success(decoded.value);
    }

    /** `query(record_type, **params)`: the parameters are appended to the
        row one by one, the row is sent, and the data rows of the
        response come back. */
    method Query(recordType: string, params: seq<Param>) returns (result: Result<seq<Row>, ApiError>)
      modifies this
      ensures result == (match Outcome(config, exchange, [QueryRow(recordType, params)])
                         case Success(rows) => Success(Keep(rows, IsDataRow))
                         case Failure(e) => Failure(e))
      ensures AfterRequest(Payload(config, [QueryRow(recordType, params)]), old(connection), old(openings), connection, openings)
    {
      var row := [recordType];
      var i := 0;
      while i < |params|
        invariant 0 <= i <= |params|
        invariant row == QueryRow(recordType, params[..i])
      {
        var value := params[i];
        if value.NoneParam? {
          row := row + [""];
        } else if value.BoolParam? {
          row := row + [if value.flag then "1" else "0"];
        } else if value.IntParam? {
          row := row + [IntToString(value.number)];
        } else {
          row := row + [value.text];
        }
        assert params[..i + 1] == params[..i] + [params[i]];
        i := i + 1;
      }
      assert params[..i] == params;
      var response := Request([row]);
      if response.Failure? {
        return Failure(response.error);
      }
      return Success(Keep(response.value, IsDataRow));
    }
  }
}
