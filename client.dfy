/** The typed client of `client.py`: each query writes its parameters
    into one row at fixed positions, sends it through the API client,
    and decodes the response rows of the record type it asked for; the
    create operations send one record's row as it is. */
module Client {
  import opened Wrappers
  import opened PyInt
  import opened Models
  import Api

  /** What a client operation raises: an API error, or the exception a
      row decoder raises. */
  datatype ClientError = ApiFailure(error: Api.ApiError) | DecodeFailure(problem: CodecError)

  // ---------------------------------------------------------------
  // Decoding responses
  // ---------------------------------------------------------------

  /** `r and r[0] == tag`. */
  predicate Tagged(row: Row, tag: string)
  {
    row != [] && row[0] == tag
  }

  /** The row filter of one record type, as a value. */
  function HasTag(tag: string): Row -> bool
  {
    row => Tagged(row, tag)
  }

  /** `[decode(r) for r in rows]`: each row in order, the first failing
      one raising. */
  function DecodeAll<T>(rows: seq<Row>, decode: Row -> Result<T, CodecError>): Result<seq<T>, CodecError>
  {
    if rows == [] then Success([])
    else
      var init :- DecodeAll(rows[..|rows| - 1], decode);
      var last :- decode(rows[|rows| - 1]);
      Success(init + [last])
  }

  /** All rows decode exactly when each does, and then the records are
      those of the rows, one for one and in order; otherwise the error is
      that of the earliest row that fails. */
  lemma {:induction false} DecodeAllSpec<T>(rows: seq<Row>, decode: Row -> Result<T, CodecError>)
    ensures DecodeAll(rows, decode).Success? <==> forall i :: 0 <= i < |rows| ==> decode(rows[i]).Success?
    ensures DecodeAll(rows, decode).Success? ==>
      |DecodeAll(rows, decode).value| == |rows|
      && forall i :: 0 <= i < |rows| ==> decode(rows[i]) == Success(DecodeAll(rows, decode).value[i])
    ensures DecodeAll(rows, decode).Failure? ==>
      exists k :: 0 <= k < |rows| && decode(rows[k]) == Failure(DecodeAll(rows, decode).error)
        && forall j :: 0 <= j < k ==> decode(rows[j]).Success?
  {
    if rows != [] {
      var init := rows[..|rows| - 1];
      DecodeAllSpec(init, decode);
      assert forall i :: 0 <= i < |init| ==> init[i] == rows[i];
      var r := DecodeAll(rows, decode);
      if DecodeAll(init, decode).Failure? {
        var k :| 0 <= k < |init| && decode(init[k]) == Failure(DecodeAll(init, decode).error)
          && forall j :: 0 <= j < k ==> decode(init[j]).Success?;
        assert decode(rows[k]) == Failure(r.error);
      } else if decode(rows[|rows| - 1]).Failure? {
        assert decode(rows[|rows| - 1]) == Failure(r.error);
      } else {
        var xs := DecodeAll(init, decode).value;
        assert r.value == xs + [decode(rows[|rows| - 1]).value];
      }
    }
  }

  /** The typed result of a query: the rows of the record type, each
      decoded, or the error that the request or a decoder raised. */
  function Typed<T>(response: Result<seq<Row>, Api.ApiError>, tag: string,
                    decode: Row -> Result<T, CodecError>): Result<seq<T>, ClientError>
  {
    match response
    case Failure(e) => Failure(ApiFailure(e))
    case Success(rows) =>
      match DecodeAll(Keep(rows, HasTag(tag)), decode)
      case Failure(e) => Failure(DecodeFailure(e))
      case Success(records) => Success(records)
  }

  /** A typed result holds one record per response row of the record
      type, in response order, each decoded from its row; rows of other
      types, messages and empty rows are skipped. */
  lemma TypedSpec<T>(rows: seq<Row>, tag: string, decode: Row -> Result<T, CodecError>)
    ensures var selected := Keep(rows, HasTag(tag));
      && (forall i :: 0 <= i < |selected| ==> Tagged(selected[i], tag))
      && (forall row :: row in selected <==> row in rows && Tagged(row, tag))
      && (Typed(Success(rows), tag, decode).Success? <==> forall i :: 0 <= i < |selected| ==> decode(selected[i]).Success?)
      && (Typed(Success(rows), tag, decode).Success? ==>
            |Typed(Success(rows), tag, decode).value| == |selected|
            && forall i :: 0 <= i < |selected| ==> decode(selected[i]) == Success(Typed(Success(rows), tag, decode).value[i]))
  {
    var selected := Keep(rows, HasTag(tag));
    KeepAllPass(rows, HasTag(tag));
    forall row
      ensures row in selected <==> row in rows && Tagged(row, tag)
    {
      KeepMembers(rows, HasTag(tag), row);
    }
    DecodeAllSpec(selected, decode);
  }

  /** Every vendor returned was read from a vendor row. */
  lemma VendorsTagged(rows: seq<Row>)
    requires Typed(Success(rows), "CMXLIF", Vendor.FromRow).Success?
    ensures forall v :: v in Typed(Success(rows), "CMXLIF", Vendor.FromRow).value ==> v.recordType == "CMXLIF"
  {
    var selected := Keep(rows, HasTag("CMXLIF"));
    var vs := Typed(Success(rows), "CMXLIF", Vendor.FromRow).value;
    TypedSpec(rows, "CMXLIF", Vendor.FromRow);
    forall i | 0 <= i < |vs|
      ensures vs[i].recordType == "CMXLIF"
    {
      assert Tagged(selected[i], "CMXLIF");
      VendorFromRowTag(selected[i]);
    }
  }

  lemma VendorFromRowTag(row: Row)
    requires Vendor.FromRow(row).Success?
    ensures Vendor.FromRow(row).value.recordType == Get(row, 0)
  {
  }

  /** Every open item returned was read from an open item row. */
  lemma OpenItemsTagged(rows: seq<Row>)
    requires Typed(Success(rows), "OPEN_ITEM", OpenItem.FromRow).Success?
    ensures forall item :: item in Typed(Success(rows), "OPEN_ITEM", OpenItem.FromRow).value ==> item.recordType == "OPEN_ITEM"
  {
    var selected := Keep(rows, HasTag("OPEN_ITEM"));
    var items := Typed(Success(rows), "OPEN_ITEM", OpenItem.FromRow).value;
    TypedSpec(rows, "OPEN_ITEM", OpenItem.FromRow);
    forall i | 0 <= i < |items|
      ensures items[i].recordType == "OPEN_ITEM"
    {
      assert Tagged(selected[i], "OPEN_ITEM");
      OpenItemDecoded(selected[i]);
    }
  }

  /** Every booking line returned was read from a booking row. */
  lemma BookingsTagged(rows: seq<Row>)
    requires Typed(Success(rows), "ACCDOC", AccountingDocument.FromRow).Success?
    ensures forall doc :: doc in Typed(Success(rows), "ACCDOC", AccountingDocument.FromRow).value ==> doc.recordType == "ACCDOC"
  {
    var selected := Keep(rows, HasTag("ACCDOC"));
    var docs := Typed(Success(rows), "ACCDOC", AccountingDocument.FromRow).value;
    TypedSpec(rows, "ACCDOC", AccountingDocument.FromRow);
    forall i | 0 <= i < |docs|
      ensures docs[i].recordType == "ACCDOC"
    {
      assert Tagged(selected[i], "ACCDOC");
      AccountingDocumentDecoded(selected[i]);
    }
  }

  // ---------------------------------------------------------------
  // Query rows
  // ---------------------------------------------------------------

  /** The `VENDOR_GET` row: vendor number (none or 0 left empty), company,
      search text, two unused fields, the changed-only flag and the
      system name. */
  function VendorGetColumns(vendorId: Option<int>, companyId: int, text: Option<string>, onlyChanged: bool): seq<Column>
  {
    [Text("VENDOR_GET"), Reference(vendorId), Number(companyId), Text(text.GetOr("")),
     Text(""), Text(""), Flag(onlyChanged), Text("")]
  }

  /** The `OPEN_ITEMS_GET` row: company, `1` for vendor items and `0` for
      customer items, customer, vendor, an unused field, cutoff date. */
  function OpenItemsGetColumns(companyId: int, vendor: bool, customerId: Option<int>, vendorId: Option<int>,
                               cutoff: Option<CalendarDate>): seq<Column>
  {
    [Text("OPEN_ITEMS_GET"), Number(companyId), Number(if vendor then 1 else 0), Reference(customerId),
     Reference(vendorId), Text(""), Dated(cutoff)]
  }

  /** The filters of `get_bookings`, in the order of its parameters. */
  datatype BookingFilter = BookingFilter(
    fiscalYear: Option<int>, bookingId: Option<int>, accountNumber: Option<int>,
    customerId: Option<int>, vendorId: Option<int>, invoiceNumber: Option<string>,
    text: Option<string>, dateFrom: Option<CalendarDate>, dateTo: Option<CalendarDate>,
    includeCancelled: bool, onlyChanged: bool)

  /** The filter `get_unmatched_bank_transactions` asks with. */
  function BankFilter(bankAccount: int, fiscalYear: Option<int>, dateFrom: Option<CalendarDate>,
                      dateTo: Option<CalendarDate>): BookingFilter
  {
    BookingFilter(fiscalYear, None, Some(bankAccount), None, None, None, None, dateFrom, dateTo, false, false)
  }

  /** The `ACCDOC_GET` row: company, then the filters at their positions,
      with empty fields for cost centre, asset and travel. */
  function AccDocGetColumns(companyId: int, f: BookingFilter): (cols: seq<Column>)
    ensures |cols| == 16
  {
    seq(16, k requires 0 <= k < 16 => AccDocGetColumn(companyId, f, k))
  }

  function AccDocGetColumn(companyId: int, f: BookingFilter, k: nat): Column
  {
    match k
    case 0 => Text("ACCDOC_GET")
    case 1 => Number(companyId)
    case 2 => Reference(f.fiscalYear)
    case 3 => Reference(f.bookingId)
    case 4 => Reference(f.accountNumber)
    case 5 => Text("")
    case 6 => Reference(f.customerId)
    case 7 => Reference(f.vendorId)
    case 8 => Text("")
    case 9 => Text(f.invoiceNumber.GetOr(""))
    case 10 => Text("")
    case 11 => Text(f.text.GetOr(""))
    case 12 => Dated(f.dateFrom)
    case 13 => Dated(f.dateTo)
    case 14 => Flag(f.includeCancelled)
    case _ => Flag(f.onlyChanged)
  }


  /** The server finds each `VENDOR_GET` parameter at its position: the
      vendor number unless it is 0, the company, the text, and the flag as
      `1` or empty. */
  lemma VendorGetReadsBack(vendorId: Option<int>, companyId: int, text: Option<string>, onlyChanged: bool)
    ensures var row := Render(VendorGetColumns(vendorId, companyId, text, onlyChanged));
      && |row| == 8 && row[0] == "VENDOR_GET"
      && GetRef(row, 1) == Success(Collapse(vendorId))
      && GetInt(row, 2, 0) == Success(companyId)
      && Get(row, 3) == text.GetOr("")
      && Get(row, 4) == "" && Get(row, 5) == "" && Get(row, 7) == ""
      && (Get(row, 6) == "1" <==> onlyChanged) && (Get(row, 6) == "" <==> !onlyChanged)
  {
    VendorGetNumbers(vendorId, companyId, text, onlyChanged);
    VendorGetTexts(vendorId, companyId, text, onlyChanged);
  }

  lemma VendorGetTexts(vendorId: Option<int>, companyId: int, text: Option<string>, onlyChanged: bool)
    ensures var row := Render(VendorGetColumns(vendorId, companyId, text, onlyChanged));
      && |row| == 8 && row[0] == "VENDOR_GET"
      && Get(row, 3) == text.GetOr("")
      && Get(row, 4) == "" && Get(row, 5) == "" && Get(row, 7) == ""
      && (Get(row, 6) == "1" <==> onlyChanged) && (Get(row, 6) == "" <==> !onlyChanged)
  {
  }

  lemma VendorGetNumbers(vendorId: Option<int>, companyId: int, text: Option<string>, onlyChanged: bool)
    ensures var row := Render(VendorGetColumns(vendorId, companyId, text, onlyChanged));
      && GetRef(row, 1) == Success(Collapse(vendorId))
      && GetInt(row, 2, 0) == Success(companyId)
  {
    var cols := VendorGetColumns(vendorId, companyId, text, onlyChanged);
    var row := Render(cols);
    assert cols[1] == Reference(vendorId) && cols[2] == Number(companyId);
    ColumnRoundTrip(cols[1], row, 1);
    ColumnRoundTrip(cols[2], row, 2);
  }


  /** The server finds each `OPEN_ITEMS_GET` parameter at its position:
      the company, the kind of items as 1 or 0, the customer and vendor
      unless 0, and the cutoff date from the year 1000 on. */
  lemma OpenItemsGetReadsBack(companyId: int, vendor: bool, customerId: Option<int>, vendorId: Option<int>,
                              cutoff: Option<CalendarDate>)
    requires cutoff.Some? ==> cutoff.value.year >= 1000
    ensures var row := Render(OpenItemsGetColumns(companyId, vendor, customerId, vendorId, cutoff));
      && |row| == 7 && row[0] == "OPEN_ITEMS_GET"
      && GetInt(row, 1, 0) == Success(companyId)
      && row[2] == (if vendor then "1" else "0")
      && GetInt(row, 2, 0) == Success(if vendor then 1 else 0)
      && GetRef(row, 3) == Success(Collapse(customerId))
      && GetRef(row, 4) == Success(Collapse(vendorId))
      && Get(row, 5) == ""
      && GetDate(row, 6) == Success(cutoff)
  {
    var cols := OpenItemsGetColumns(companyId, vendor, customerId, vendorId, cutoff);
    var row := Render(cols);
    assert cols[1] == Number(companyId) && cols[2] == Number(if vendor then 1 else 0);
    assert cols[3] == Reference(customerId) && cols[4] == Reference(vendorId) && cols[6] == Dated(cutoff);
    ColumnRoundTrip(cols[1], row, 1);
    ColumnRoundTrip(cols[2], row, 2);
    ColumnRoundTrip(cols[3], row, 3);
    ColumnRoundTrip(cols[4], row, 4);
    ColumnRoundTrip(cols[6], row, 6);
  }


  predicate DatesWritable(f: BookingFilter)
  {
    (f.dateFrom.Some? ==> f.dateFrom.value.year >= 1000) && (f.dateTo.Some? ==> f.dateTo.value.year >= 1000)
  }

  /** The server finds each `ACCDOC_GET` filter at its position: the
      company, the numbers unless 0, the texts, the dates from the year
      1000 on, and the flags as `1` or empty. */
  lemma AccDocGetReadsBack(companyId: int, f: BookingFilter)
    requires DatesWritable(f)
    ensures var row := Render(AccDocGetColumns(companyId, f));
      && |row| == 16 && row[0] == "ACCDOC_GET"
      && GetInt(row, 1, 0) == Success(companyId)
      && GetRef(row, 2) == Success(Collapse(f.fiscalYear))
      && GetRef(row, 3) == Success(Collapse(f.bookingId))
      && GetRef(row, 4) == Success(Collapse(f.accountNumber))
      && GetRef(row, 6) == Success(Collapse(f.customerId))
      && GetRef(row, 7) == Success(Collapse(f.vendorId))
      && Get(row, 9) == f.invoiceNumber.GetOr("")
      && Get(row, 11) == f.text.GetOr("")
      && GetDate(row, 12) == Success(f.dateFrom)
      && GetDate(row, 13) == Success(f.dateTo)
      && (Get(row, 14) == "1" <==> f.includeCancelled) && (Get(row, 15) == "1" <==> f.onlyChanged)
      && Get(row, 5) == "" && Get(row, 8) == "" && Get(row, 10) == ""
  {
    AccDocGetNumbers(companyId, f);
    AccDocGetTexts(companyId, f);
    AccDocGetDates(companyId, f);
  }

  lemma AccDocGetTexts(companyId: int, f: BookingFilter)
    ensures var row := Render(AccDocGetColumns(companyId, f));
      && |row| == 16 && row[0] == "ACCDOC_GET"
      && Get(row, 9) == f.invoiceNumber.GetOr("")
      && Get(row, 11) == f.text.GetOr("")
      && Get(row, 5) == "" && Get(row, 8) == "" && Get(row, 10) == ""
  {
  }

  lemma AccDocGetDates(companyId: int, f: BookingFilter)
    requires DatesWritable(f)
    ensures var row := Render(AccDocGetColumns(companyId, f));
      && GetDate(row, 12) == Success(f.dateFrom)
      && GetDate(row, 13) == Success(f.dateTo)
      && (Get(row, 14) == "1" <==> f.includeCancelled) && (Get(row, 15) == "1" <==> f.onlyChanged)
  {
    var cols := AccDocGetColumns(companyId, f);
    var row := Render(cols);
    assert cols[12] == Dated(f.dateFrom) && cols[13] == Dated(f.dateTo);
    ColumnRoundTrip(cols[12], row, 12);
    ColumnRoundTrip(cols[13], row, 13);
    ColumnRoundTrip(cols[14], row, 14);
    ColumnRoundTrip(cols[15], row, 15);
  }

  lemma AccDocGetNumbers(companyId: int, f: BookingFilter)
    ensures var row := Render(AccDocGetColumns(companyId, f));
      && GetInt(row, 1, 0) == Success(companyId)
      && GetRef(row, 2) == Success(Collapse(f.fiscalYear))
      && GetRef(row, 3) == Success(Collapse(f.bookingId))
      && GetRef(row, 4) == Success(Collapse(f.accountNumber))
      && GetRef(row, 6) == Success(Collapse(f.customerId))
      && GetRef(row, 7) == Success(Collapse(f.vendorId))
  {
    var cols := AccDocGetColumns(companyId, f);
    var row := Render(cols);
    assert cols[1] == Number(companyId) && cols[2] == Reference(f.fiscalYear) && cols[3] == Reference(f.bookingId);
    assert cols[4] == Reference(f.accountNumber) && cols[6] == Reference(f.customerId) && cols[7] == Reference(f.vendorId);
    ColumnRoundTrip(cols[1], row, 1);
    ColumnRoundTrip(cols[2], row, 2);
    ColumnRoundTrip(cols[3], row, 3);
    ColumnRoundTrip(cols[4], row, 4);
    ColumnRoundTrip(cols[6], row, 6);
    ColumnRoundTrip(cols[7], row, 7);
  }

  // ---------------------------------------------------------------
  // Unmatched bank transactions
  // ---------------------------------------------------------------

  /** The bank account `get_unmatched_bank_transactions` looks at when
      none is given. */
  const DefaultBankAccount: int := 1200

  /** Called with its defaults, `get_unmatched_bank_transactions` asks for
      the bookings of account 1200: that number sits in the account
      column of the `ACCDOC_GET` row, and no other filter is set. */
  lemma DefaultBankRequest(companyId: int)
    ensures var row := Render(AccDocGetColumns(companyId, BankFilter(DefaultBankAccount, None, None, None)));
      row[4] == "1200" && row[2] == "" && row[12] == "" && row[13] == ""
  {
    var f := BankFilter(DefaultBankAccount, None, None, None);
    AccDocGetFields0(companyId, f);
    AccDocGetFields1(companyId, f);
    AccDocGetFields3(companyId, f);
    DefaultBankText();
  }

  lemma DefaultBankText()
    ensures IntToString(DefaultBankAccount) == "1200"
  {
    assert NatToString(1200) == "1200";
  }

  /** A booking line with neither vendor nor customer and no invoice
      number. */
  predicate Unmatched(doc: AccountingDocument)
  {
    doc.vendorId.None? && doc.customerId.None? && doc.invoiceNumber == ""
  }

  /** The loop of `get_unmatched_bank_transactions`: the unmatched lines,
      in order. */
  method SelectUnmatched(docs: seq<AccountingDocument>) returns (unmatched: seq<AccountingDocument>)
    ensures unmatched == Keep(docs, Unmatched)
  {
    unmatched := [];
    var i := 0;
    while i < |docs|
      invariant 0 <= i <= |docs|
      invariant unmatched == Keep(docs[..i], Unmatched)
    {
      var booking := docs[i];
      if booking.vendorId.None? && booking.customerId.None? {
        if booking.invoiceNumber == "" {
          unmatched := unmatched + [booking];
        }
      }
      assert docs[..i + 1][..i] == docs[..i];
      i := i + 1;
    }
    assert docs[..i] == docs;
  }

  /** The unmatched lines of some bookings are exactly those of them
      that are unmatched, in their order. */
  lemma UnmatchedSelection(docs: seq<AccountingDocument>, doc: AccountingDocument)
    ensures doc in Keep(docs, Unmatched) <==> doc in docs && Unmatched(doc)
    ensures forall i :: 0 <= i < |Keep(docs, Unmatched)| ==> Unmatched(Keep(docs, Unmatched)[i])
  {
    KeepMembers(docs, Unmatched, doc);
    KeepAllPass(docs, Unmatched);
  }

  /** In terms of the response row: a line is unmatched exactly when its
      customer and vendor columns are empty or zero and its invoice
      number column is empty. */
  lemma UnmatchedRow(row: Row)
    requires AccountingDocument.FromRow(row).Success?
    ensures Unmatched(AccountingDocument.FromRow(row).value) <==>
      (Get(row, 12) == "" || ParseInt(Get(row, 12)) == Some(0))
      && (Get(row, 14) == "" || ParseInt(Get(row, 14)) == Some(0))
      && Get(row, 20) == ""
  {
    AccountingDocumentReferences(row);
    AccountingDocumentDecoded(row);
  }

  // ---------------------------------------------------------------
  // Create operations
  // ---------------------------------------------------------------

  /** What the server receives for `create_vendor`: the login row and the
      vendor's row, which decodes to the vendor itself. */
  lemma CreateVendorPayload(config: Api.Config, v: Vendor)
    requires Api.FieldsRepresentable([Api.LoginRow(config), v.ToRow()])
    requires v.vendorId != Some(0) && v.country != "" && v.UnlistedDefaults()
    ensures Api.Payload(config, [v.ToRow()]).Some?
    ensures Api.DecodeCsv(Api.Payload(config, [v.ToRow()]).value) == Success([Api.LoginRow(config), v.ToRow()])
    ensures Vendor.FromRow(v.ToRow()) == Success(v)
  {
    Api.SingleRowPayload(config, v.ToRow());
    VendorRoundTrip(v);
  }

  /** What the server receives for `create_vendor_invoice`: the login row
      and the invoice's row, each field of which reads back as the
      attribute written there. */
  lemma CreateInvoicePayload(config: Api.Config, inv: VendorInvoice)
    requires Api.FieldsRepresentable([Api.LoginRow(config), inv.ToRow()])
    requires inv.Writable()
    ensures Api.Payload(config, [inv.ToRow()]).Some?
    ensures Api.DecodeCsv(Api.Payload(config, [inv.ToRow()]).value) == Success([Api.LoginRow(config), inv.ToRow()])
    ensures RowReadsBack(inv.ToRow(), inv.Layout())
  {
    Api.SingleRowPayload(config, inv.ToRow());
    VendorInvoiceRoundTrip(inv);
  }

  // The three query rows are written field by field; the lemmas below
  // show the result is the rendering of the row's columns.
  // Proof steps: Listed7, Listed8 and Listed16 only regroup a row built by
  // appending fields into one display, which keeps each step small.

  lemma Listed7(row: Row, a: string, b: string, c: string, d: string, e: string, f: string, g: string)
    requires row == [a] + [b] + [c] + [d] + [e] + [f] + [g]
    ensures row == [a, b, c, d, e, f, g]
  {
  }

  lemma Listed8(row: Row, a: string, b: string, c: string, d: string, e: string, f: string, g: string, h: string)
    requires row == [a] + [b] + [c] + [d] + [e] + [f] + [g] + [h]
    ensures row == [a, b, c, d, e, f, g, h]
  {
  }

  lemma Listed16(row: Row, a: string, b: string, c: string, d: string, e: string, f: string, g: string, h: string,
                 i: string, j: string, k: string, l: string, m: string, n: string, o: string, p: string)
    requires row == [a] + [b] + [c] + [d] + [e] + [f] + [g] + [h] + [i] + [j] + [k] + [l] + [m] + [n] + [o] + [p]
    ensures row == [a, b, c, d, e, f, g, h] + [i, j, k, l, m, n, o, p]
  {
  }

  lemma VendorGetWritten(vendorId: Option<int>, companyId: int, text: Option<string>, onlyChanged: bool)
    ensures Render(VendorGetColumns(vendorId, companyId, text, onlyChanged)) == ["VENDOR_GET", if vendorId.Some? && vendorId.value != 0 then IntToString(vendorId.value) else "", IntToString(companyId), if text.Some? && text.value != "" then text.value else "", "", "", if onlyChanged then "1" else "", ""]
  {
  }

  /** How `client.py` writes the `VENDOR_GET` row: the record type, then one
      `append` per field. */
  method VendorGetRow(vendorId: Option<int>, companyId: int, text: Option<string>, onlyChanged: bool) returns (row: Row)
    ensures row == Render(VendorGetColumns(vendorId, companyId, text, onlyChanged))
  {
    var vendorField := if vendorId.Some? && vendorId.value != 0 then IntToString(vendorId.value) else "";
    var companyField := IntToString(companyId);
    var textField := if text.Some? && text.value != "" then text.value else "";
    var changedField := if onlyChanged then "1" else "";
    row := ["VENDOR_GET"];
    row := row + [vendorField];
    row := row + [companyField];
    row := row + [textField];
    row := row + [""];
    row := row + [""];
    row := row + [changedField];
    row := row + [""];
    Listed8(row, "VENDOR_GET", vendorField, companyField, textField, "", "", changedField, "");
    VendorGetWritten(vendorId, companyId, text, onlyChanged);
  }

  lemma OpenItemsGetWritten(companyId: int, vendor: bool, customerId: Option<int>, vendorId: Option<int>, cutoff: Option<CalendarDate>)
    ensures Render(OpenItemsGetColumns(companyId, vendor, customerId, vendorId, cutoff)) == ["OPEN_ITEMS_GET", IntToString(companyId), if vendor then "1" else "0", if customerId.Some? && customerId.value != 0 then IntToString(customerId.value) else "", if vendorId.Some? && vendorId.value != 0 then IntToString(vendorId.value) else "", "", if cutoff.Some? then FormatDate(cutoff) else ""]
  {
  }

  /** How `client.py` writes the `OPEN_ITEMS_GET` row: the record type, then one
      `append` per field. */
  method OpenItemsGetRow(companyId: int, vendor: bool, customerId: Option<int>, vendorId: Option<int>, cutoff: Option<CalendarDate>) returns (row: Row)
    ensures row == Render(OpenItemsGetColumns(companyId, vendor, customerId, vendorId, cutoff))
  {
    var companyField := IntToString(companyId);
    var kindField := if vendor then "1" else "0";
    var customerField := if customerId.Some? && customerId.value != 0 then IntToString(customerId.value) else "";
    var vendorField := if vendorId.Some? && vendorId.value != 0 then IntToString(vendorId.value) else "";
    var cutoffField := if cutoff.Some? then FormatDate(cutoff) else "";
    row := ["OPEN_ITEMS_GET"];
    row := row + [companyField];
    row := row + [kindField];
    row := row + [customerField];
    row := row + [vendorField];
    row := row + [""];
    row := row + [cutoffField];
    Listed7(row, "OPEN_ITEMS_GET", companyField, kindField, customerField, vendorField, "", cutoffField);
    OpenItemsGetWritten(companyId, vendor, customerId, vendorId, cutoff);
  }

  // Proof steps: AccDocGetFields0 to AccDocGetFields3, AccDocGetHead and
  // AccDocGetTail only unfold the rendering of the ACCDOC_GET columns, four
  // fields at a time, so that AccDocGetWritten stays within the solver's
  // budget.

  lemma AccDocGetFields0(companyId: int, f: BookingFilter)
    ensures Render(AccDocGetColumns(companyId, f))[0] == "ACCDOC_GET"
    ensures Render(AccDocGetColumns(companyId, f))[1] == IntToString(companyId)
    ensures Render(AccDocGetColumns(companyId, f))[2] == if f.fiscalYear.Some? && f.fiscalYear.value != 0 then IntToString(f.fiscalYear.value) else ""
    ensures Render(AccDocGetColumns(companyId, f))[3] == if f.bookingId.Some? && f.bookingId.value != 0 then IntToString(f.bookingId.value) else ""
  {
  }

  lemma AccDocGetFields1(companyId: int, f: BookingFilter)
    ensures Render(AccDocGetColumns(companyId, f))[4] == if f.accountNumber.Some? && f.accountNumber.value != 0 then IntToString(f.accountNumber.value) else ""
    ensures Render(AccDocGetColumns(companyId, f))[5] == ""
    ensures Render(AccDocGetColumns(companyId, f))[6] == if f.customerId.Some? && f.customerId.value != 0 then IntToString(f.customerId.value) else ""
    ensures Render(AccDocGetColumns(companyId, f))[7] == if f.vendorId.Some? && f.vendorId.value != 0 then IntToString(f.vendorId.value) else ""
  {
  }

  lemma AccDocGetFields2(companyId: int, f: BookingFilter)
    ensures Render(AccDocGetColumns(companyId, f))[8] == ""
    ensures Render(AccDocGetColumns(companyId, f))[9] == if f.invoiceNumber.Some? && f.invoiceNumber.value != "" then f.invoiceNumber.value else ""
    ensures Render(AccDocGetColumns(companyId, f))[10] == ""
    ensures Render(AccDocGetColumns(companyId, f))[11] == if f.text.Some? && f.text.value != "" then f.text.value else ""
  {
  }

  lemma AccDocGetFields3(companyId: int, f: BookingFilter)
    ensures Render(AccDocGetColumns(companyId, f))[12] == if f.dateFrom.Some? then FormatDate(f.dateFrom) else ""
    ensures Render(AccDocGetColumns(companyId, f))[13] == if f.dateTo.Some? then FormatDate(f.dateTo) else ""
    ensures Render(AccDocGetColumns(companyId, f))[14] == if f.includeCancelled then "1" else ""
    ensures Render(AccDocGetColumns(companyId, f))[15] == if f.onlyChanged then "1" else ""
  {
  }

  lemma AccDocGetHead(companyId: int, f: BookingFilter)
    ensures Render(AccDocGetColumns(companyId, f))[..8] == ["ACCDOC_GET", IntToString(companyId), if f.fiscalYear.Some? && f.fiscalYear.value != 0 then IntToString(f.fiscalYear.value) else "", if f.bookingId.Some? && f.bookingId.value != 0 then IntToString(f.bookingId.value) else "", if f.accountNumber.Some? && f.accountNumber.value != 0 then IntToString(f.accountNumber.value) else "", "", if f.customerId.Some? && f.customerId.value != 0 then IntToString(f.customerId.value) else "", if f.vendorId.Some? && f.vendorId.value != 0 then IntToString(f.vendorId.value) else ""]
  {
    AccDocGetFields0(companyId, f);
    AccDocGetFields1(companyId, f);
  }

  lemma AccDocGetTail(companyId: int, f: BookingFilter)
    ensures Render(AccDocGetColumns(companyId, f))[8..] == ["", if f.invoiceNumber.Some? && f.invoiceNumber.value != "" then f.invoiceNumber.value else "", "", if f.text.Some? && f.text.value != "" then f.text.value else "", if f.dateFrom.Some? then FormatDate(f.dateFrom) else "", if f.dateTo.Some? then FormatDate(f.dateTo) else "", if f.includeCancelled then "1" else "", if f.onlyChanged then "1" else ""]
  {
    AccDocGetFields2(companyId, f);
    AccDocGetFields3(companyId, f);
  }

  lemma AccDocGetWritten(companyId: int, f: BookingFilter)
    ensures Render(AccDocGetColumns(companyId, f)) == ["ACCDOC_GET", IntToString(companyId), if f.fiscalYear.Some? && f.fiscalYear.value != 0 then IntToString(f.fiscalYear.value) else "", if f.bookingId.Some? && f.bookingId.value != 0 then IntToString(f.bookingId.value) else "", if f.accountNumber.Some? && f.accountNumber.value != 0 then IntToString(f.accountNumber.value) else "", "", if f.customerId.Some? && f.customerId.value != 0 then IntToString(f.customerId.value) else "", if f.vendorId.Some? && f.vendorId.value != 0 then IntToString(f.vendorId.value) else ""] + ["", if f.invoiceNumber.Some? && f.invoiceNumber.value != "" then f.invoiceNumber.value else "", "", if f.text.Some? && f.text.value != "" then f.text.value else "", if f.dateFrom.Some? then FormatDate(f.dateFrom) else "", if f.dateTo.Some? then FormatDate(f.dateTo) else "", if f.includeCancelled then "1" else "", if f.onlyChanged then "1" else ""]
  {
    var row := Render(AccDocGetColumns(companyId, f));
    AccDocGetHead(companyId, f);
    AccDocGetTail(companyId, f);
    assert row == row[..8] + row[8..];
  }

  /** How `client.py` writes the `ACCDOC_GET` row: the record type, then one
      `append` per field. */
  method AccDocGetRow(companyId: int, f: BookingFilter) returns (row: Row)
    ensures row == Render(AccDocGetColumns(companyId, f))
  {
    var companyField := IntToString(companyId);
    var yearField := if f.fiscalYear.Some? && f.fiscalYear.value != 0 then IntToString(f.fiscalYear.value) else "";
    var bookingField := if f.bookingId.Some? && f.bookingId.value != 0 then IntToString(f.bookingId.value) else "";
    var accountField := if f.accountNumber.Some? && f.accountNumber.value != 0 then IntToString(f.accountNumber.value) else "";
    var customerField := if f.customerId.Some? && f.customerId.value != 0 then IntToString(f.customerId.value) else "";
    var vendorField := if f.vendorId.Some? && f.vendorId.value != 0 then IntToString(f.vendorId.value) else "";
    var invoiceField := if f.invoiceNumber.Some? && f.invoiceNumber.value != "" then f.invoiceNumber.value else "";
    var textField := if f.text.Some? && f.text.value != "" then f.text.value else "";
    var fromField := if f.dateFrom.Some? then FormatDate(f.dateFrom) else "";
    var toField := if f.dateTo.Some? then FormatDate(f.dateTo) else "";
    var cancelledField := if f.includeCancelled then "1" else "";
    var changedField := if f.onlyChanged then "1" else "";
    row := ["ACCDOC_GET"];
    row := row + [companyField];
    row := row + [yearField];
    row := row + [bookingField];
    row := row + [accountField];
    row := row + [""];
    row := row + [customerField];
    row := row + [vendorField];
    row := row + [""];
    row := row + [invoiceField];
    row := row + [""];
    row := row + [textField];
    row := row + [fromField];
    row := row + [toField];
    row := row + [cancelledField];
    row := row + [changedField];
    Listed16(row, "ACCDOC_GET", companyField, yearField, bookingField, accountField, "", customerField, vendorField, "", invoiceField, "", textField, fromField, toField, cancelledField, changedField);
    AccDocGetWritten(companyId, f);
  }

  // ---------------------------------------------------------------
  // Client
  // ---------------------------------------------------------------

  /** `CollmexClient`: a wrapper around one API client. */
  class CollmexClient {
    const api: Api.CollmexApi

    constructor (config: Api.Config, exchange: Api.Exchange)
      ensures fresh(api) && api.config == config && api.exchange == exchange
      ensures api.connection == None && api.openings == 0
    {
      api := new Api.CollmexApi(config, exchange);
    }

    /** `close`: the connection of the API client is closed. */
    method Close()
      modifies api
      ensures api.connection == None && api.openings == old(api.openings)
    {
      api.Close();
    }

    /** `get_vendors`. */
    method GetVendors(vendorId: Option<int>, text: Option<string>, onlyChanged: bool)
      returns (result: Result<seq<Vendor>, ClientError>)
      modifies api
      ensures var request := [Render(VendorGetColumns(vendorId, api.config.companyId, text, onlyChanged))];
        && result == Typed(Api.Outcome(api.config, api.exchange, request), "CMXLIF", Vendor.FromRow)
        && Api.AfterRequest(Api.Payload(api.config, request), old(api.connection), old(api.openings), api.connection, api.openings)
    {
      var row := VendorGetRow(vendorId, api.config.companyId, text, onlyChanged);
      var response := api.Request([row]);
      result := Typed(response, "CMXLIF", Vendor.FromRow);
    }

    /** `create_vendor`: the vendor's row is sent as it is. */
    method CreateVendor(v: Vendor) returns (result: Result<seq<Row>, Api.ApiError>)
      modifies api
      ensures result == Api.Outcome(api.config, api.exchange, [v.ToRow()])
      ensures Api.AfterRequest(Api.Payload(api.config, [v.ToRow()]), old(api.connection), old(api.openings), api.connection, api.openings)
    {
      result := api.Request([v.ToRow()]);
    }

    /** `create_vendor_invoice`: the invoice's row is sent as it is. */
    method CreateVendorInvoice(inv: VendorInvoice) returns (result: Result<seq<Row>, Api.ApiError>)
      modifies api
      ensures result == Api.Outcome(api.config, api.exchange, [inv.ToRow()])
      ensures Api.AfterRequest(Api.Payload(api.config, [inv.ToRow()]), old(api.connection), old(api.openings), api.connection, api.openings)
    {
      result := api.Request([inv.ToRow()]);
    }

    /** `get_open_items`. */
    method GetOpenItems(vendor: bool, customerId: Option<int>, vendorId: Option<int>, cutoff: Option<CalendarDate>)
      returns (result: Result<seq<OpenItem>, ClientError>)
      modifies api
      ensures var request := [Render(OpenItemsGetColumns(api.config.companyId, vendor, customerId, vendorId, cutoff))];
        && result == Typed(Api.Outcome(api.config, api.exchange, request), "OPEN_ITEM", OpenItem.FromRow)
        && Api.AfterRequest(Api.Payload(api.config, request), old(api.connection), old(api.openings), api.connection, api.openings)
    {
      var row := OpenItemsGetRow(api.config.companyId, vendor, customerId, vendorId, cutoff);
      var response := api.Request([row]);
      result := Typed(response, "OPEN_ITEM", OpenItem.FromRow);
    }

    /** `get_bookings`. */
    method GetBookings(f: BookingFilter) returns (result: Result<seq<AccountingDocument>, ClientError>)
      modifies api
      ensures var request := [Render(AccDocGetColumns(api.config.companyId, f))];
        && result == Typed(Api.Outcome(api.config, api.exchange, request), "ACCDOC", AccountingDocument.FromRow)
        && Api.AfterRequest(Api.Payload(api.config, request), old(api.connection), old(api.openings), api.connection, api.openings)
    {
      var row := AccDocGetRow(api.config.companyId, f);
      var response := api.Request([row]);
      result := Typed(response, "ACCDOC", AccountingDocument.FromRow);
    }

    /** `get_unmatched_bank_transactions`: the bookings of the bank
        account are fetched, and those without vendor, customer and
        invoice number are kept, in order. */
    method GetUnmatchedBankTransactions(bankAccount: int := DefaultBankAccount, fiscalYear: Option<int> := None,
                                        dateFrom: Option<CalendarDate> := None, dateTo: Option<CalendarDate> := None)
      returns (result: Result<seq<AccountingDocument>, ClientError>)
      modifies api
      ensures var request := [Render(AccDocGetColumns(api.config.companyId, BankFilter(bankAccount, fiscalYear, dateFrom, dateTo)))];
        var bookings := Typed(Api.Outcome(api.config, api.exchange, request), "ACCDOC", AccountingDocument.FromRow);
        && (bookings.Failure? ==> result == bookings)
        && (bookings.Success? ==> result == Success(Keep(bookings.value, Unmatched)))
        && Api.AfterRequest(Api.Payload(api.config, request), old(api.connection), old(api.openings), api.connection, api.openings)
    {
      var bookings := GetBookings(BankFilter(bankAccount, fiscalYear, dateFrom, dateTo));
      if bookings.Failure? {
        return bookings;
      }
      var unmatched := SelectUnmatched(bookings.value);
      return Success(unmatched);
    }
  }
}
