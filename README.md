# collmex-cli in Dafny

collmex-cli is a command-line client for the Collmex accounting service.
This project models its core and proves properties about that model.

Collmex speaks a CSV protocol over HTTP:

- rows are semicolon-separated;
- every field is quoted;
- the text is encoded in code page 1252;
- every request starts with a `LOGIN` row;
- the response comes back in the same format;
- `MESSAGE` rows of type `E` in the response report errors.

## What is modelled

The model covers four layers:

- **Record codecs** (`models.py`): Collmex dates (`YYYYMMDD`) and German decimal amounts (comma separator). It also covers the four record types and their rows:
  - `CMXLIF` (vendor);
  - `CMXLRN` (vendor invoice);
  - `OPEN_ITEM`;
  - `ACCDOC` (accounting document line).

  The source goes in different directions for different types, and the model follows it:
  - a vendor is both read from a row (`from_csv_row`) and written to one (`to_csv_row`);
  - a vendor invoice is only written; there is no reader for `CMXLRN` rows;
  - open items and accounting documents are only read.

  For open items and accounting documents, the rows that the round trips start from are written by a column layout of the model's own (`OpenItem.Layout`, `AccountingDocument.Layout`). Each layout puts each field at the index its reader takes it from. The model also covers `parse_record`, which dispatches on the first field.
- **The API client** (`api.py`), a class with two parts:
  - a lazily opened connection;
  - `request`, which encodes, posts, decodes and checks for errors.

  It also models `query`, which builds one query row from parameters and keeps the data rows of the response, and the error-message scan.
- **The typed client** (`client.py`), a class over one API client. Each query writes its filters into one row at fixed positions, sends it, and decodes the rows of the record type it asked for. The create operations send one record's row. The unmatched-bank-transactions query keeps only the booking lines that have no vendor, customer or invoice number.
- **The ZUGFeRD totals** (`zugferd.py`): what `create_zugferd_xml` computes before it builds the XML:
  - the invoice lines;
  - the net total;
  - the tax breakdown per rate;
  - the document sums.

  It also models the buyer-configuration guard.

Supporting modules model the parts of Python and its standard library that this core relies on:

| module | models |
|---|---|
| `Wrappers` | `Option`, `Result`, and an order-preserving filter |
| `PyInt` | `int(str)` and `str(int)` |
| `PyDecimal` | `Decimal(str)`, `str(Decimal)`, and the numeric value |
| `Cp1252` | the `cp1252` codec |
| `Csv` | `csv.writer` with `QUOTE_ALL`, `;` and CRLF, and the `csv.reader` state machine |

The headline results:

- **Round trips:**
  - the CSV wire format decodes back to the rows that were written, for every row content that code page 1252 can represent;
  - dates and plain decimal amounts read back to what was written;
  - a vendor written by `to_csv_row` is read back as the same vendor by `from_csv_row`;
  - an open item or accounting document laid out at its reader's column indices reads back as the same record;
  - each field of a vendor-invoice row reads back to the invoice's value;
  - the exceptions are listed under "Left out".
- **Error scan:** the first `E` message wins. Authentication codes `101001` to `101003` make that error an authentication error.
- **Query rows:** each filter sits at the column the server reads it from and reads back to the value that was given.
- **ZUGFeRD totals:**
  - the breakdown per rate adds up to the net total and the tax total;
  - its keys are distinct and appear in the order each rate first occurs;
  - the sums follow from those two totals.

## Model

| member | source | states |
|---|---|---|
| Models.ParseDate | src/collmex_cli/models.py:18-23 | an empty field reads as no date, and only an empty field does |
| Models.FormatDate | src/collmex_cli/models.py:26-30 | no date is written as the empty field, and only no date is |
| Models.DateRoundTrip | src/collmex_cli/models.py:18-30 | a date written as `YYYYMMDD` reads back as the same date (years 1000 to 9999) |
| Models.DateTextRoundTrip | src/collmex_cli/models.py:18-30 | an eight-digit field not starting with 0 that reads as a valid date is written back as the same text |
| Models.InvalidDateExample | src/collmex_cli/models.py:18-23 | `20230229` is rejected as an invalid date |
| Models.ReplaceBack | src/collmex_cli/models.py:37-44 | turning commas into points and back restores any text that held no point, which is what lets an amount travel through `Decimal` and back |
| Models.ReplaceCounts | src/collmex_cli/models.py:37 | after replacing one character by another none of the first is left, the second gains exactly its count, and every other character keeps its count |
| Models.ParseDecimal | src/collmex_cli/models.py:33-37 | an empty field reads as no amount, and only an empty field does |
| Models.NoAmount | src/collmex_cli/models.py:33-44 | no amount is written as the empty field and reads back as no amount |
| Models.DecimalRoundTrip | src/collmex_cli/models.py:33-44 | a plain-notation amount written with a decimal comma reads back as the same decimal, exponent included |
| Models.DecimalTextRoundTrip | src/collmex_cli/models.py:33-44 | an amount text in canonical form is written back unchanged |
| Models.ShortRow | src/collmex_cli/models.py:123-128 | a column past the end of the row reads as empty: the integer default, no reference, no date, no amount |
| Models.GetIntFails | src/collmex_cli/models.py:126-128 | reading an integer column fails exactly when the field is non-empty and not an integer |
| Models.GetRefNone | src/collmex_cli/models.py:126-128 | an optional reference is absent exactly when its field is empty or reads as 0 |
| Models.Render | src/collmex_cli/models.py:162-194 | a row has one field per column |
| Models.ColumnRoundTrip | src/collmex_cli/models.py:18-44 | a column written into a row reads back to its value through the matching reader |
| Models.RenderReadsBack | src/collmex_cli/models.py:162-194 | every column of a rendered row reads back to its value |
| Models.Vendor.Layout | src/collmex_cli/models.py:162-194 | the vendor row has 29 columns |
| Models.Vendor.ToRow | src/collmex_cli/models.py:162-194 | `to_csv_row` gives 29 fields |
| Models.VendorRowReadsBack | src/collmex_cli/models.py:120-194 | every field of a vendor's row reads back to the vendor's value |
| Models.VendorRoundTrip | src/collmex_cli/models.py:120-194 | `from_csv_row(to_csv_row(v)) == v` when the vendor number is not 0, the country is set, and the fields the row does not carry have their defaults |
| Models.VendorDecode | src/collmex_cli/models.py:120-160 | any row whose columns read back to a vendor's values decodes to that vendor |
| Models.VendorNumbers | src/collmex_cli/models.py:120-160 | the vendor's number columns read back to its numbers |
| Models.VendorNameTexts | src/collmex_cli/models.py:120-160 | the vendor's name columns read back as written |
| Models.VendorAddressTexts | src/collmex_cli/models.py:120-160 | the vendor's address columns read back as written |
| Models.VendorContactTexts | src/collmex_cli/models.py:120-160 | the vendor's contact and bank columns read back as written |
| Models.VendorTermsTexts | src/collmex_cli/models.py:120-160 | the vendor's tax and terms columns read back as written |
| Models.VendorTagOnly | src/collmex_cli/models.py:120-160 | a row holding only the record type decodes to the vendor with every default |
| Models.VendorFromRowFails | src/collmex_cli/models.py:120-160 | decoding a vendor fails exactly when one of its integer columns is non-empty and not an integer |
| Models.VendorInvoice.Layout | src/collmex_cli/models.py:239-263 | the vendor-invoice row has 21 columns |
| Models.VendorInvoice.ToRow | src/collmex_cli/models.py:239-263 | `to_csv_row` gives 21 fields |
| Models.VendorInvoiceRoundTrip | src/collmex_cli/models.py:239-263 | every field of an invoice's row reads back to the invoice's value |
| Models.CoerceDateAgrees | src/collmex_cli/models.py:230-237 | the date validator gives the same date for a `date` and for its `YYYYMMDD` text; empty text and other values give no date |
| Models.OpenItem.Layout | src/collmex_cli/models.py:307-339 | the open-item row has 20 columns |
| Models.OpenItemTagOnly | src/collmex_cli/models.py:307-339 | a row holding only the record type decodes to the open item with every default |
| Models.OpenItemFromRowFails | src/collmex_cli/models.py:307-339 | decoding an open item fails exactly when one of its integer, amount or date columns does not read |
| Models.OpenItemDateErrorsLast | src/collmex_cli/models.py:298-339 | a date error is reported only when every integer and amount column reads |
| Models.OpenItemReferences | src/collmex_cli/models.py:307-339 | a decoded open item has no zero customer or vendor reference |
| Models.OpenItemDecode | src/collmex_cli/models.py:307-339 | any row whose columns read back to an open item's values decodes to that item |
| Models.OpenItemTexts | src/collmex_cli/models.py:307-339 | the open item's text columns read back as written |
| Models.OpenItemNumbers | src/collmex_cli/models.py:307-339 | the open item's number columns read back to its numbers |
| Models.OpenItemDates | src/collmex_cli/models.py:307-339 | the open item's date columns read back to its dates |
| Models.OpenItemAmounts | src/collmex_cli/models.py:307-339 | the open item's amount columns read back to its amounts |
| Models.OpenItemRoundTrip | src/collmex_cli/models.py:271-339 | an open item written in the `OPEN_ITEM` layout and read back is the same item |
| Models.AccountingDocument.Layout | src/collmex_cli/models.py:391-431 | the accounting-document row has 28 columns |
| Models.AccountingDocumentTagOnly | src/collmex_cli/models.py:391-431 | a row holding only the record type decodes to the document with every default |
| Models.AccountingDocumentFromRowFails | src/collmex_cli/models.py:391-431 | decoding fails exactly when one of its integer, reference, amount or date columns does not read |
| Models.AccountingDocumentDateErrorsLast | src/collmex_cli/models.py:382-431 | a date error is reported only when every other typed column reads |
| Models.AccountingDocumentReferences | src/collmex_cli/models.py:391-431 | a decoded document has no zero reference in any optional column |
| Models.AccountingDocumentDecode | src/collmex_cli/models.py:391-431 | any row whose columns read back to a document's values decodes to that document |
| Models.AccountingDocumentValues | src/collmex_cli/models.py:391-431 | the document's number, date and amount columns read back to its values |
| Models.AccountingDocumentReferenceColumns | src/collmex_cli/models.py:391-431 | the customer, vendor, asset and cancellation columns read back |
| Models.AccountingDocumentOrderColumns | src/collmex_cli/models.py:391-431 | the order, travel and payment columns read back |
| Models.AccountingDocumentTexts | src/collmex_cli/models.py:391-431 | the leading text columns read back as written |
| Models.AccountingDocumentTrailingTexts | src/collmex_cli/models.py:391-431 | the trailing text columns read back as written |
| Models.AccountingDocumentRoundTrip | src/collmex_cli/models.py:347-431 | a document written in the `ACCDOC` layout and read back is the same document |
| Models.ParseRecordNone | src/collmex_cli/models.py:438-464 | `parse_record` gives nothing exactly for an empty row or an unknown record type; `CMXLRN` is not among the decodable types |
| Models.ParseRecordFails | src/collmex_cli/models.py:438-464 | for a known record type, parsing fails exactly when that type's decoder fails |
| Models.ParseRecordTag | src/collmex_cli/models.py:438-464 | a parsed record is of the type its first field names, and keeps that field as its record type |
| PyInt.ParseIntToString | src/collmex_cli/api.py:180-187 | `int(str(i)) == i` for every integer |
| PyInt.ParseIntCanonical | src/collmex_cli/models.py:126-128 | a text written the way `str` writes integers (no `+`, no leading zeros, no `-0`) reads to an integer that `str` writes back as the same text |
| PyInt.NegativeRoundTrip | src/collmex_cli/models.py:126-128 | a minus sign before canonical digits reads as the negated number and is written back the same |
| PyDecimal.ParseToString | src/collmex_cli/models.py:33-44 | `Decimal(str(d)) == d` for a plain-notation decimal, its exponent included |
| PyDecimal.ToStringParse | src/collmex_cli/models.py:33-44 | a plain decimal text in canonical form reads to a decimal written back as the same text |
| PyDecimal.ParseExample | src/collmex_cli/models.py:33-37 | `Decimal("1234.56")` has coefficient 123456 and exponent -2, so its value is 1234.56 |
| PyDecimal.ToStringExample | src/collmex_cli/models.py:40-44 | `str` writes that decimal back as `1234.56` |
| Cp1252.DecodeEncodeChar | src/collmex_cli/api.py:84 | every encodable character decodes back to itself |
| Cp1252.EncodeDecodeByte | src/collmex_cli/api.py:96 | every decodable byte encodes back to itself |
| Cp1252.EncodeDecode | src/collmex_cli/api.py:66-101 | a text encodes exactly when all its characters are representable, and then decodes back to itself, one byte per character |
| Csv.EncodeRowsAppend | src/collmex_cli/api.py:66-84 | writing rows one by one concatenates their lines |
| Csv.EncodeRowsEnd | src/collmex_cli/api.py:66-84 | a non-empty payload ends in CRLF |
| Csv.FeedAppend | src/collmex_cli/api.py:86-101 | reading two texts in turn is reading their concatenation |
| Csv.FeedEscape | src/collmex_cli/api.py:86-101 | inside quotes, an escaped field reads back as the field itself |
| Csv.FeedJoin | src/collmex_cli/api.py:86-101 | a line of quoted fields reads back as those fields |
| Csv.FeedRow | src/collmex_cli/api.py:86-101 | one written row reads back as that row |
| Csv.FeedRows | src/collmex_cli/api.py:86-101 | the written rows read back as those rows, in order |
| Csv.DecodeEncode | src/collmex_cli/api.py:66-101 | `_decode_csv(_encode_csv(rows))` at the text level gives `rows`, for every content including quotes, semicolons and line breaks |
| Csv.UnterminatedQuoteExample | src/collmex_cli/api.py:86-101 | a quoted field left open at the end of input still gives its row |
| Csv.NewlineInFieldExample | src/collmex_cli/api.py:86-101 | a carriage return inside an unquoted field is a CSV error |
| Api.EncodeCsv | src/collmex_cli/api.py:66-84 | the payload is the code-page-1252 encoding of the CSV text of the rows, or nothing when a character is not representable |
| Api.RowsRepresentable | src/collmex_cli/api.py:66-84 | the CSV text of some rows is representable exactly when all their fields are |
| Api.CsvRoundTrip | src/collmex_cli/api.py:66-101 | the rows encode exactly when their fields are representable, and the payload then decodes back to exactly those rows |
| Api.RowError | src/collmex_cli/api.py:149-164 | an error row gives a Collmex error with the code of field 3 and the message of field 4 ("Unknown error" by default); it is an authentication error exactly for codes 101001 to 101003 |
| Api.CheckErrors | src/collmex_cli/api.py:139-164 | the scan of the response returns the first error row's error, or none |
| Api.FirstErrorSpec | src/collmex_cli/api.py:139-164 | there is an error exactly when some row is an error row, and it is the error of the first such row |
| Api.NoErrorRows | src/collmex_cli/api.py:139-164 | a response without error rows raises nothing |
| Api.ErrorDefaults | src/collmex_cli/api.py:149-164 | an `E` message without code or text gets "Unknown error"; warnings are skipped and an authentication code raises an authentication error |
| Api.PayloadRows | src/collmex_cli/api.py:107-137 | a request's payload, when it encodes, decodes to the login row followed by the caller's rows |
| Api.SingleRowPayload | src/collmex_cli/api.py:107-137 | a one-row request decodes to the login row and that row |
| Api.RespondSuccess | src/collmex_cli/api.py:107-137 | a response succeeds with some rows exactly when it decodes to them and none is an error row |
| Api.QueryRow | src/collmex_cli/api.py:177-187 | the query row holds the record type and then one field per parameter |
| Api.ParamReadsBack | src/collmex_cli/api.py:180-187 | `None` is sent as the empty field, a flag as 1 or 0, and a number as a text that reads back to it |
| Api.DataRows | src/collmex_cli/api.py:189-192 | the returned rows are exactly the non-message rows of the response, in order |
| Api.CollmexApi.constructor | src/collmex_cli/api.py:38-45 | a new API client keeps its configuration and has no connection |
| Api.CollmexApi.Client | src/collmex_cli/api.py:47-52 | the connection is opened only when there is none and reused otherwise |
| Api.CollmexApi.Close | src/collmex_cli/api.py:54-58 | after closing there is no connection |
| Api.CollmexApi.Request | src/collmex_cli/api.py:107-137 | the result is that of posting the encoded login and caller rows and checking the decoded response; the connection is opened only once the payload has encoded |
| Api.CollmexApi.Query | src/collmex_cli/api.py:166-192 | the query row is sent as a request, and only its data rows come back |
| Client.DecodeAllSpec | src/collmex_cli/client.py:69-70 | decoding succeeds exactly when every row decodes, and then gives each row's record in order; otherwise the first failing row's error |
| Client.TypedSpec | src/collmex_cli/client.py:69-70 | a typed response decodes exactly the rows of the record type asked for, in order |
| Client.VendorsTagged | src/collmex_cli/client.py:69-70 | every vendor returned has record type `CMXLIF` |
| Client.VendorFromRowTag | src/collmex_cli/models.py:120-160 | a decoded vendor keeps the row's first field as its record type |
| Client.OpenItemsTagged | src/collmex_cli/client.py:127-129 | every open item returned has record type `OPEN_ITEM` |
| Client.BookingsTagged | src/collmex_cli/client.py:183-185 | every booking returned has record type `ACCDOC` |
| Client.AccDocGetColumns | src/collmex_cli/client.py:166-182 | the `ACCDOC_GET` row has 16 columns |
| Client.VendorGetRow | src/collmex_cli/client.py:59-66 | `get_vendors` sends the `VENDOR_GET` row of its filters |
| Client.VendorGetWritten | src/collmex_cli/client.py:59-66 | the `VENDOR_GET` row field by field: record type, vendor number, company, text, two empty fields, changed-only flag, empty system name |
| Client.VendorGetReadsBack | src/collmex_cli/client.py:59-66 | each filter of the `VENDOR_GET` row reads back to the value given |
| Client.VendorGetTexts | src/collmex_cli/client.py:59-66 | the text fields of the `VENDOR_GET` row read back as given |
| Client.VendorGetNumbers | src/collmex_cli/client.py:59-66 | the number fields of the `VENDOR_GET` row read back as given |
| Client.OpenItemsGetRow | src/collmex_cli/client.py:119-125 | `get_open_items` sends the `OPEN_ITEMS_GET` row of its filters |
| Client.OpenItemsGetWritten | src/collmex_cli/client.py:119-125 | the `OPEN_ITEMS_GET` row field by field |
| Client.OpenItemsGetReadsBack | src/collmex_cli/client.py:119-125 | each filter of the `OPEN_ITEMS_GET` row reads back to the value given |
| Client.AccDocGetRow | src/collmex_cli/client.py:166-182 | `get_bookings` sends the `ACCDOC_GET` row of its filters |
| Client.AccDocGetWritten | src/collmex_cli/client.py:166-182 | the `ACCDOC_GET` row field by field, with empty fields for the columns it leaves out |
| Client.AccDocGetReadsBack | src/collmex_cli/client.py:166-182 | each filter of the `ACCDOC_GET` row reads back to the value given |
| Client.AccDocGetTexts | src/collmex_cli/client.py:166-182 | the text fields of the `ACCDOC_GET` row read back as given |
| Client.AccDocGetDates | src/collmex_cli/client.py:166-182 | the date fields of the `ACCDOC_GET` row read back as given |
| Client.AccDocGetNumbers | src/collmex_cli/client.py:166-182 | the number and flag fields of the `ACCDOC_GET` row read back as given |
| Client.SelectUnmatched | src/collmex_cli/client.py:215-225 | the loop keeps the bookings without vendor, customer and invoice number, in order |
| Client.UnmatchedSelection | src/collmex_cli/client.py:215-225 | a booking is kept exactly when it is among the input and unmatched, and every kept one is unmatched |
| Client.UnmatchedRow | src/collmex_cli/client.py:215-225 | in terms of the response row: unmatched exactly when the customer and vendor columns are empty or 0 and the invoice column is empty |
| Client.CreateVendorPayload | src/collmex_cli/client.py:72-81 | the server receives the login row and the vendor's row, which decodes to that vendor |
| Client.CreateInvoicePayload | src/collmex_cli/client.py:87-96 | the server receives the login row and the invoice's row, each of whose fields reads back |
| Client.CollmexClient.constructor | src/collmex_cli/client.py:22-28 | a new client owns a fresh API client with its configuration and no connection |
| Client.CollmexClient.Close | src/collmex_cli/client.py:30-32 | closing closes the API client's connection |
| Client.CollmexClient.GetVendors | src/collmex_cli/client.py:44-70 | the `VENDOR_GET` row is sent and the `CMXLIF` rows of the response are decoded |
| Client.CollmexClient.CreateVendor | src/collmex_cli/client.py:72-81 | the vendor's row is sent as a request |
| Client.CollmexClient.CreateVendorInvoice | src/collmex_cli/client.py:87-96 | the invoice's row is sent as a request |
| Client.CollmexClient.GetOpenItems | src/collmex_cli/client.py:102-129 | the `OPEN_ITEMS_GET` row is sent and the `OPEN_ITEM` rows of the response are decoded |
| Client.CollmexClient.GetBookings | src/collmex_cli/client.py:135-185 | the `ACCDOC_GET` row is sent and the `ACCDOC` rows of the response are decoded |
| Client.CollmexClient.GetUnmatchedBankTransactions | src/collmex_cli/client.py:187-225 | the bank account's bookings are fetched and the unmatched ones kept, in order; a failure is passed on |
| Client.DefaultBankRequest | src/collmex_cli/client.py:187-212 | called with its defaults, the bookings request asks for account `1200` in the account column and sets no year and no date filter |
| Zugferd.Settle | src/collmex_cli/zugferd.py:55-59 | without a configured buyer the invoice is refused, and only then; otherwise the lines, the breakdown and the sums given by the reference definitions |
| Zugferd.CollectLines | src/collmex_cli/zugferd.py:113-151 | line `i` carries id `i + 1` and the item's price, quantity, unit, rate and total; the net total is the sum of line totals; the breakdown is the per-key reference breakdown |
| Zugferd.TotalTax | src/collmex_cli/zugferd.py:172-182 | the tax total is the sum of the breakdown's taxes |
| Zugferd.Lines | src/collmex_cli/zugferd.py:117-151 | one invoice line per line item |
| Zugferd.Charges | src/collmex_cli/zugferd.py:137-149 | one charge per line item |
| Zugferd.FirstIndex | src/collmex_cli/zugferd.py:143-149 | the first position whose rate key is the given one |
| Zugferd.Find | src/collmex_cli/zugferd.py:145 | the position of a key in the dictionary, or its size when absent |
| Zugferd.SettleStep | src/collmex_cli/zugferd.py:117-151 | one loop step appends a line, adds the line total to the net, and accumulates the item into the breakdown |
| Zugferd.NextLine | src/collmex_cli/zugferd.py:140-149 | one more line adds its total to the net and updates the breakdown as the dictionary update does |
| Zugferd.SumsAppend | src/collmex_cli/zugferd.py:140 | appending a charge adds its amount and its tax to the totals |
| Zugferd.EntryStep | src/collmex_cli/zugferd.py:143-149 | appending a charge changes a key's basis and tax only when the charge has that key |
| Zugferd.KeysDistinct | src/collmex_cli/zugferd.py:115 | the breakdown keys are distinct, as the keys of a dictionary |
| Zugferd.KeysMembers | src/collmex_cli/zugferd.py:143-149 | a key is in the breakdown exactly when some item has that rate text |
| Zugferd.AbsentKey | src/collmex_cli/zugferd.py:143-149 | a key no item has collects a zero basis and a zero tax |
| Zugferd.EntryAfter | src/collmex_cli/zugferd.py:143-149 | an existing entry after one more item is its basis and tax over the longer sequence |
| Zugferd.PresentEntry | src/collmex_cli/zugferd.py:145-147 | an item whose key is present adds its total and tax to that entry only |
| Zugferd.PresentEntries | src/collmex_cli/zugferd.py:145-147 | an item whose key is present keeps the number of entries, and every entry but that key's is unchanged |
| Zugferd.PresentBreakdown | src/collmex_cli/zugferd.py:145-147 | the breakdown including an item whose key is present is the one before with that key's entry increased by the item's total and tax |
| Zugferd.PresentFind | src/collmex_cli/zugferd.py:145 | `rate_key in tax_amounts` finds a present key at its position among the keys |
| Zugferd.FindUnique | src/collmex_cli/zugferd.py:145 | in a dictionary without repeated keys, the search finds a key at the one position that holds it |
| Zugferd.AccumulateAt | src/collmex_cli/zugferd.py:145-147 | for a key found at a position, the update replaces that entry by one with the amounts added |
| Zugferd.AccumulateEnd | src/collmex_cli/zugferd.py:148-149 | for a key not found, the update appends a new entry holding the amounts |
| Zugferd.AbsentFind | src/collmex_cli/zugferd.py:145 | a rate text that is no key is not found: the search returns the size of the dictionary |
| Zugferd.AbsentBreakdown | src/collmex_cli/zugferd.py:148-149 | the breakdown including an item with a new key is the one before with the item's entry appended |
| Zugferd.AbsentStep | src/collmex_cli/zugferd.py:145-149 | an item with a new key appends a new entry of its own total and tax |
| Zugferd.AccumulateStep | src/collmex_cli/zugferd.py:143-149 | the dictionary update of one item turns the breakdown of the items before it into the breakdown including it |
| Zugferd.SumsUpdate | src/collmex_cli/zugferd.py:145-147 | updating one entry changes the sums by exactly the difference |
| Zugferd.AccumulateSums | src/collmex_cli/zugferd.py:143-149 | accumulating an item adds its total to the sum of bases and its tax to the sum of taxes |
| Zugferd.BreakdownAddsUp | src/collmex_cli/zugferd.py:172-190 | the bases of the breakdown add up to the net total and its taxes to the tax total |
| Zugferd.FirstIndexAt | src/collmex_cli/zugferd.py:143-149 | the first position of a key is the one before which no item has it |
| Zugferd.FirstIndexKept | src/collmex_cli/zugferd.py:143-149 | appending an item keeps the first position of every key already present |
| Zugferd.KeysOrder | src/collmex_cli/zugferd.py:143-149 | the keys are in the order in which their rate first occurs among the items |
| Zugferd.BreakdownRate | src/collmex_cli/zugferd.py:143-179 | an entry's key is the text of the rate of the first item with it, and `Decimal(rate_str)` reads that rate back when it is in plain notation |
| Zugferd.Defaults | src/collmex_cli/zugferd.py:125-126 | an item without `tax_rate` is taxed at 19 percent under the key `"19.00"`, and one without `unit` is counted in `C62` |
| Zugferd.SameRateTwoEntries | src/collmex_cli/zugferd.py:143 | `Decimal("19")` and the default `19.00` tax at the same rate but make two breakdown entries |

## Left out

- Transport: `httpx`, its timeout, `raise_for_status` and the HTTP status are one `Exchange` parameter, a function from payload to an optional response. Any transport failure is one `TransportFailed` error.
- Server state: `Api.Exchange`, the server, is a function of the payload alone and holds no state. So the model does not capture that a `create_vendor` between two identical queries can change what the second one returns. Two identical `GetVendors` or `GetBookings` calls give equal results. No proved property depends on this.
- Configuration: loading the configuration from the environment or a file is not part of this model, so `config.py` is out of scope. The API client takes it as a value. The `buyer_configured` flag of `create_zugferd_xml` is a parameter.
- Context managers: `__enter__` and `__exit__` are not modelled. They only call `close`, which is.
- Only one connection is modelled. The number of connections opened so far stands in for the identity of the `httpx.Client` object.
- `int()` accepts only an optional sign and ASCII digits. Python also accepts surrounding whitespace, underscores between digits and non-ASCII digits; the model reports those as errors.
- `Decimal()` accepts only an optional sign, digits and one decimal point. Exponent notation, `NaN`, `Infinity` and whitespace are reported as errors. `str(Decimal)` is modelled for every exponent, but the round trips are proved for plain notation only.
- `strftime("%Y")` for years below 1000 is written without zero padding, as glibc does. The date round trips are proved for years 1000 to 9999.
- pydantic reports all the validation errors of a row at once. The model reports the first failing column, in the order the fields are validated.
- `csv.reader` is modelled with `strict=False`. Two of its features are not modelled: NUL characters and `field_size_limit`.
- The XML that `create_zugferd_xml` builds with drafthorse is not modelled. This covers the seller and buyer parties, their addresses and contacts, payment means, payment terms, notes and the serialization; the model stops at the values that go into it.
- Zugferd amounts are exact real numbers. Python's `Decimal` context rounds to 28 significant digits, and that rounding is not modelled.
- The model does not cover the exponent form of the amount texts; amounts are exact reals.
- Line items are a datatype with `quantity`, `unit_price` and an optional `tax_rate` as decimals. Two Python behaviours are therefore not modelled:
  - the `KeyError` for a missing `description`, `quantity` or `unit_price`;
  - the text `str()` produces for float or int inputs before `Decimal()` reads it.
- Query keyword arguments are an ordered sequence of parameters. Keyword order in Python is call order.
- Query parameter types: `query` writes a parameter with `str()`. The model covers only `None`, `bool`, `int` and `str` parameters. A `date`, `Decimal` or `float` parameter is not modelled, and nothing in the client passes one.
- `main.py` (the command-line interface) and `email.py` are not part of this model. The `vendor-match` command (main.py:133-172) calls `CollmexClient.match_vendor` at main.py:155, but `client.py` does not define that method, so the model has no counterpart for it.
- Models.VendorRoundTrip: proved only for vendors whose fields outside the row layout have their defaults, whose vendor number is not 0 and whose country is set. A 0 vendor number reads back as none, and an empty country reads back as `DE`.
- Models.OpenItemRoundTrip: proved only for items that are `Readable`: no zero customer or vendor reference, every date from the year 1000 on, and every amount in plain notation.
- Models.AccountingDocumentRoundTrip: proved only for documents that are `Readable`: no zero reference, both dates from the year 1000 on, and the amount in plain notation.
- Models.VendorInvoiceRoundTrip: states that each field reads back, not that a whole record is rebuilt. The source has no decoder for `CMXLRN` rows.
- Client.OpenItemsGetReadsBack: requires the cutoff date's year to be at least 1000, as for the date round trip.
- Client.AccDocGetReadsBack: requires both filter dates to be in years 1000 to 9999 (`DatesWritable`).
- Client.CreateInvoicePayload: requires the invoice to be `Writable`, meaning plain-notation amounts and dates in years 1000 to 9999.

## Notes on the code

- A quoted field left open at the end of the response is not an error. Python's `csv.reader` with `strict=False` returns the row as read, so the model does the same (`Csv.UnterminatedQuoteExample`).
- An optional reference column that reads as `0` is treated as absent: `get_int` gives 0 and `or None` turns that into `None`. So a vendor or customer number 0 never reads back as 0.
- In `query`, the flag `False` is sent as `"0"`, not as the empty field.
