/** The positional record codecs of `models.py`: Collmex writes dates as
    `YYYYMMDD` and decimals with a comma, and every record is a CSV row
    whose field at a fixed zero-based index holds a fixed attribute. */
module Models {
  import opened Wrappers
  import opened PyInt
  import PyDecimal

  type Row = seq<string>

  /** Why decoding a row fails: `int()` or `date()` raises `ValueError`
      (inside a field validator pydantic reports it as a validation
      error) and `Decimal()` raises `InvalidOperation`; each carries the
      offending text. */
  datatype CodecError = InvalidInteger(text: string) | InvalidDate(text: string) | InvalidDecimal(text: string)

  // ---------------------------------------------------------------
  // Dates
  // ---------------------------------------------------------------

  datatype Date = Date(year: int, month: int, day: int)

  predicate LeapYear(y: int)
  {
    y % 4 == 0 && (y % 100 != 0 || y % 400 == 0)
  }

  function DaysInMonth(y: int, m: int): int
    requires 1 <= m <= 12
  {
    if m == 2 then (if LeapYear(y) then 29 else 28)
    else if m == 4 || m == 6 || m == 9 || m == 11 then 30
    else 31
  }

  /** The dates `datetime.date(year, month, day)` accepts. */
  predicate ValidDate(d: Date)
  {
    1 <= d.year <= 9999 && 1 <= d.month <= 12 && 1 <= d.day <= DaysInMonth(d.year, d.month)
  }

  /** A `datetime.date` value. */
  type CalendarDate = d: Date | ValidDate(d) witness Date(1, 1, 1)

  /** Python's `s[i:j]` for `0 <= i <= j`: indices past the end are cut
      back to the length. */
  function Slice(s: string, i: nat, j: nat): string
    requires i <= j
  {
    var a := if i < |s| then i else |s|;
    var b := if j < |s| then j else |s|;
    s[a..b]
  }

  /** `parse_collmex_date`: the empty text is no date; otherwise characters
      0-3, 4-5 and 6-7 are read with `int()` and must form a calendar
      date; anything after the eighth character is ignored. */
  function ParseDate(value: string): (r: Result<Option<CalendarDate>, CodecError>)
    ensures r == Success(None) <==> value == ""
  {
    if value == "" then Success(None)
    else
      match (ParseInt(Slice(value, 0, 4)), ParseInt(Slice(value, 4, 6)), ParseInt(Slice(value, 6, 8)))
      case (Some(y), Some(m), Some(d)) =>
        if ValidDate(Date(y, m, d)) then Success(Some(Date(y, m, d))) else Failure(InvalidDate(value))
      case _ => Failure(InvalidDate(value))
  }

  /** `%m` and `%d`: two digits, zero-padded. */
  function Pad2(n: nat): string
    requires n < 100
  {
    if n < 10 then "0" + NatToString(n) else NatToString(n)
  }

  /** `format_collmex_date`: `strftime("%Y%m%d")`, or the empty text for
      no date. The C library writes `%Y` without padding, so years below
      1000 come out with fewer than four digits. */
  function FormatDate(value: Option<CalendarDate>): (r: string)
    ensures r == "" <==> value.None?
  {
    match value
    case None => ""
    case Some(d) =>
      var s := NatToString(d.year) + Pad2(d.month) + Pad2(d.day);
      assert |s| > 0;
      s
  }

  /** The number of digits `str` writes for a number below 10000. */
  lemma {:induction false} SmallLength(n: nat)
    requires n < 10000
    ensures |NatToString(n)| == if n < 10 then 1 else if n < 100 then 2 else if n < 1000 then 3 else 4
  {
    if n >= 10 {
      SmallLength(n / 10);
    }
  }

  /** Reading two zero-padded digits back. */
  lemma Pad2Parse(n: nat)
    requires n < 100
    ensures |Pad2(n)| == 2 && AllDigits(Pad2(n)) && ParseInt(Pad2(n)) == Some(n)
  {
    SmallLength(n);
    if n < 10 {
      LeadingZeroValue(NatToString(n));
    }
  }

  /** Two digits print back as themselves under `%m` and `%d`. */
  lemma Pad2Digits(t: string)
    requires |t| == 2 && AllDigits(t)
    ensures DigitsValue(t) < 100 && Pad2(DigitsValue(t)) == t
  {
    assert t[..1][..0] == [];
    if t[0] == '0' {
      var rest := t[1..];
      assert t == "0" + rest;
      LeadingZeroValue(rest);
      CanonicalRoundTrip(rest);
    } else {
      CanonicalRoundTrip(t);
      LeadingDigitPositive(t);
    }
  }

  /** Every date from the year 1000 on survives formatting and parsing. */
  lemma DateRoundTrip(d: CalendarDate)
    requires d.year >= 1000
    ensures ParseDate(FormatDate(Some(d))) == Success(Some(d))
  {
    var y := NatToString(d.year);
    var m := Pad2(d.month);
    var dd := Pad2(d.day);
    var s := y + m + dd;
    SmallLength(d.year);
    Pad2Parse(d.month);
    Pad2Parse(d.day);
    ParseIntToString(d.year);
    assert Slice(s, 0, 4) == y;
    assert Slice(s, 4, 6) == m;
    assert Slice(s, 6, 8) == dd;
  }

  /** Eight digits that do not start with `0` and form a date are exactly
      what formatting that date writes. */
  lemma DateTextRoundTrip(s: string)
    requires |s| == 8 && AllDigits(s) && s[0] != '0'
    requires ParseDate(s).Success?
    ensures FormatDate(ParseDate(s).value) == s
  {
    var y, m, dd := s[..4], s[4..6], s[6..8];
    EightDigits(s);
    CanonicalRoundTrip(y);
    Pad2Digits(m);
    Pad2Digits(dd);
    DigitsParse(y);
    DigitsParse(m);
    DigitsParse(dd);
    ParseDateFields(s, DigitsValue(y), DigitsValue(m), DigitsValue(dd));
  }

  /** The year, month and day slices of eight digits. */
  lemma EightDigits(s: string)
    requires |s| == 8 && AllDigits(s) && s[0] != '0'
    ensures Slice(s, 0, 4) == s[..4] && Slice(s, 4, 6) == s[4..6] && Slice(s, 6, 8) == s[6..8]
    ensures Canonical(s[..4]) && |s[4..6]| == 2 && AllDigits(s[4..6]) && |s[6..8]| == 2 && AllDigits(s[6..8])
    ensures s == s[..4] + s[4..6] + s[6..8]
  {
    assert s[..4][0] == s[0];
  }

  /** `date()` refuses a day the month does not have. */
  lemma InvalidDateExample()
    ensures ParseDate("20230229") == Failure(InvalidDate("20230229"))
  {
    var s := "20230229";
    assert Slice(s, 0, 4) == "2023" && Slice(s, 4, 6) == "02" && Slice(s, 6, 8) == "29";
    assert ParseInt("2023") == Some(2023) by {
      assert "2023"[..3] == "202" && "202"[..2] == "20" && "20"[..1] == "2" && "2"[..0] == "";
      assert DigitsValue("2023") == 2023;
    }
    assert ParseInt("02") == Some(2) by {
      assert "02"[..1] == "0" && "0"[..0] == "" && DigitsValue("02") == 2;
    }
    assert ParseInt("29") == Some(29) by {
      assert "29"[..1] == "2" && "2"[..0] == "" && DigitsValue("29") == 29;
    }
    ParseDateFields(s, 2023, 2, 29);
  }

  /** A non-empty text whose three slices read as numbers is that date, if
      it is one. */
  lemma ParseDateFields(value: string, y: int, m: int, d: int)
    requires value != ""
    requires ParseInt(Slice(value, 0, 4)) == Some(y) && ParseInt(Slice(value, 4, 6)) == Some(m)
    requires ParseInt(Slice(value, 6, 8)) == Some(d)
    ensures ParseDate(value) == if ValidDate(Date(y, m, d)) then Success(Some(Date(y, m, d))) else Failure(InvalidDate(value))
  {
  }

  // ---------------------------------------------------------------
  // Decimals
  // ---------------------------------------------------------------

  /** `s.replace(a, b)` for single characters. */
  function Replace(s: string, a: char, b: char): (r: string)
    ensures |r| == |s|
    ensures forall i :: 0 <= i < |s| ==> r[i] == if s[i] == a then b else s[i]
  {
    seq(|s|, i requires 0 <= i < |s| => if s[i] == a then b else s[i])
  }

  /** Swapping back restores a text that held none of the replacement. */
  lemma ReplaceBack(s: string, a: char, b: char)
    requires b !in s
    ensures Replace(Replace(s, a, b), b, a) == s
  {
    var r := Replace(Replace(s, a, b), b, a);
    forall i | 0 <= i < |s|
      ensures r[i] == s[i]
    {
      assert s[i] in s;
    }
  }

  /** Replacing one character by another removes every occurrence of the
      first, moves its count onto the second and leaves every other
      character's count alone. */
  lemma {:induction false} ReplaceCounts(s: string, a: char, b: char)
    requires a != b
    ensures a !in Replace(s, a, b)
    ensures multiset(Replace(s, a, b))[b] == multiset(s)[a] + multiset(s)[b]
    ensures forall c :: c != a && c != b ==> multiset(Replace(s, a, b))[c] == multiset(s)[c]
  {
    if s != [] {
      var t := s[..|s| - 1];
      ReplaceCounts(t, a, b);
      assert s == t + [s[|s| - 1]];
      assert Replace(s, a, b) == Replace(t, a, b) + [Replace(s, a, b)[|s| - 1]];
    }
  }

  /** `parse_collmex_decimal`: the empty text is no amount; otherwise the
      comma becomes a point and `Decimal()` reads the text. */
  function ParseDecimal(value: string): (r: Result<Option<PyDecimal.Decimal>, CodecError>)
    ensures r == Success(None) <==> value == ""
  {
    if value == "" then Success(None)
    else
      match PyDecimal.Parse(Replace(value, ',', '.'))
      case Some(d) => Success(Some(d))
      case None => Failure(InvalidDecimal(value))
  }

  /** `format_collmex_decimal`: `str()` with the point turned into a
      comma, or the empty text for no amount. */
  function FormatDecimal(value: Option<PyDecimal.Decimal>): string
  {
    match value
    case None => ""
    case Some(d) => Replace(PyDecimal.ToString(d), '.', ',')
  }

  lemma DigitsHaveNoComma(s: string)
    requires AllDigits(s)
    ensures ',' !in s
  {
  }

  /** `str` writes no comma for an amount in plain notation. */
  lemma PlainHasNoComma(d: PyDecimal.Decimal)
    requires PyDecimal.Plain(d)
    ensures ',' !in PyDecimal.ToString(d)
  {
    var digits := NatToString(d.coefficient);
    var dotplace := d.exponent + |digits|;
    PyDecimal.MagnitudePlain(d);
    DigitsHaveNoComma(digits);
    if dotplace <= 0 {
      DigitsHaveNoComma(Zeros(-dotplace));
    } else if dotplace < |digits| {
      DigitsHaveNoComma(digits[..dotplace]);
      DigitsHaveNoComma(digits[dotplace..]);
    }
  }

  /** The empty text and no amount correspond, in both directions. */
  lemma NoAmount()
    ensures ParseDecimal("") == Success(None) && FormatDecimal(None) == ""
  {
  }

  /** An amount that `str` writes in plain notation comes back unchanged,
      trailing zeros included. */
  lemma DecimalRoundTrip(d: PyDecimal.Decimal)
    requires PyDecimal.Plain(d)
    ensures ParseDecimal(FormatDecimal(Some(d))) == Success(Some(d))
  {
    var s := PyDecimal.ToString(d);
    PlainHasNoComma(d);
    ReplaceBack(s, '.', ',');
    PyDecimal.ParseToString(d);
    assert |s| > 0 by {
      assert |PyDecimal.Magnitude(d)| > 0;
    }
  }

  /** Collmex text in the shape `str` writes, with a comma for the point,
      such as `"1234,56"` or `"-0,5"`. */
  predicate CanonicalDecimalText(s: string)
  {
    '.' !in s && PyDecimal.PlainText(Replace(s, ',', '.'))
  }

  /** Such text comes back unchanged from parsing and formatting,
      provided `str` writes the amount in plain notation. */
  lemma DecimalTextRoundTrip(s: string)
    requires CanonicalDecimalText(s)
    requires PyDecimal.Parse(Replace(s, ',', '.')).Some?
    requires PyDecimal.Plain(PyDecimal.Parse(Replace(s, ',', '.')).value)
    ensures ParseDecimal(s).Success? && FormatDecimal(ParseDecimal(s).value) == s
  {
    var t := Replace(s, ',', '.');
    PyDecimal.ToStringParse(t);
    ReplaceBack(s, ',', '.');
  }

  // ---------------------------------------------------------------
  // Field access
  // ---------------------------------------------------------------

  /** `get(idx)`: the field, or `""` past the end of the row. */
  function Get(row: Row, idx: nat): string
  {
    if idx < |row| then row[idx] else ""
  }

  /** `get_int(idx, default)`: an empty field takes the default. */
  function GetInt(row: Row, idx: nat, default: int): Result<int, CodecError>
  {
    var v := Get(row, idx);
    if v == "" then Success(default)
    else
      match ParseInt(v)
      case Some(n) => Success(n)
      case None => Failure(InvalidInteger(v))
  }

  /** `get_int(idx) or None`: an optional reference, where `0` means none. */
  function GetRef(row: Row, idx: nat): Result<Option<int>, CodecError>
  {
    var n :- GetInt(row, idx, 0);
    Success(if n == 0 then None else Some(n))
  }

  /** `parse_collmex_date(get(idx))`. */
  function GetDate(row: Row, idx: nat): Result<Option<CalendarDate>, CodecError>
  {
    ParseDate(Get(row, idx))
  }

  /** `parse_collmex_decimal(get(idx))`. */
  function GetDecimal(row: Row, idx: nat): Result<Option<PyDecimal.Decimal>, CodecError>
  {
    ParseDecimal(Get(row, idx))
  }

  /** A field past the end of the row reads as empty, so every integer
      takes its default and every optional value is absent. */
  lemma ShortRow(row: Row, idx: nat, default: int)
    requires idx >= |row|
    ensures Get(row, idx) == ""
    ensures GetInt(row, idx, default) == Success(default)
    ensures GetRef(row, idx) == Success(None)
    ensures GetDate(row, idx) == Success(None)
    ensures GetDecimal(row, idx) == Success(None)
  {
  }

  /** An integer field fails exactly when it is present and not an integer. */
  lemma GetIntFails(row: Row, idx: nat, default: int)
    ensures GetInt(row, idx, default).Failure? <==> Get(row, idx) != "" && ParseInt(Get(row, idx)).None?
  {
  }

  /** An optional reference is absent exactly for `""` and for any
      spelling of zero (`"0"`, `"00"`, `"-0"`). */
  lemma GetRefNone(row: Row, idx: nat)
    ensures GetRef(row, idx) == Success(None) <==> Get(row, idx) == "" || ParseInt(Get(row, idx)) == Some(0)
  {
  }

  /** What the falsy test of `str(n) if n else ""` keeps: zero is dropped
      like `None`. */
  function Collapse(n: Option<int>): Option<int>
  {
    if n == Some(0) then None else n
  }

  // ---------------------------------------------------------------
  // Columns
  // ---------------------------------------------------------------

  /** One attribute of a record, tagged with the way `to_csv_row` writes
      it. */
  datatype Column =
    | Text(text: string)                   // the text itself
    | Number(number: int)                  // `str(n)`
    | Reference(ref: Option<int>)          // `str(n) if n else ""`
    | Optional(value: Option<int>)         // `str(n) if n is not None else ""`
    | Dated(date: Option<CalendarDate>)    // `format_collmex_date(d)`
    | Amount(amount: Option<PyDecimal.Decimal>)  // `format_collmex_decimal(a)`
    | Flag(flag: bool)                     // `"1" if b else ""`

  /** The text `to_csv_row` writes for one attribute. */
  function Write(c: Column): string
  {
    match c
    case Text(t) => t
    case Number(n) => IntToString(n)
    case Reference(n) => if n.Some? && n.value != 0 then IntToString(n.value) else ""
    case Optional(n) => if n.Some? then IntToString(n.value) else ""
    case Dated(d) => FormatDate(d)
    case Amount(a) => FormatDecimal(a)
    case Flag(b) => if b then "1" else ""
  }

  /** A row is its columns written one by one, in order. */
  function Render(cols: seq<Column>): (r: Row)
    ensures |r| == |cols|
  {
    seq(|cols|, k requires 0 <= k < |cols| => Write(cols[k]))
  }

  /** The field at `idx` of `row` reads back as the attribute, with the
      reader that suits the column's kind: text as itself, a number with
      `get_int` whatever the default (so the field is not empty), a
      reference with `get_int(idx) or None` (0 is lost), an optional number
      as its value or an empty field, a date with `parse_collmex_date`, an
      amount with `parse_collmex_decimal`, and a flag as `"1"` when set
      and empty otherwise. */
  predicate Reads(c: Column, row: Row, idx: nat)
  {
    match c
    case Text(t) => Get(row, idx) == t
    case Number(n) => GetInt(row, idx, 0) == Success(n) && GetInt(row, idx, 1) == Success(n)
    case Reference(n) => GetRef(row, idx) == Success(Collapse(n))
    case Optional(n) =>
      if n.Some? then GetInt(row, idx, 0) == Success(n.value) && GetInt(row, idx, 1) == Success(n.value)
      else Get(row, idx) == ""
    case Dated(d) => GetDate(row, idx) == Success(d)
    case Amount(a) => GetDecimal(row, idx) == Success(a)
    case Flag(b) => (Get(row, idx) == "1" <==> b) && (Get(row, idx) == "" <==> !b)
  }

  /** The columns whose text keeps the whole attribute: a date from the
      year 1000 on (`%Y` pads no further), an amount that `str` writes in
      plain notation. */
  predicate Survives(c: Column)
  {
    match c
    case Dated(d) => d.Some? ==> d.value.year >= 1000
    case Amount(a) => a.Some? ==> PyDecimal.Plain(a.value)
    case _ => true
  }

  /** Every column that survives writing reads back as its attribute from
      wherever its text is placed. */
  lemma ColumnRoundTrip(c: Column, row: Row, idx: nat)
    requires Survives(c)
    requires idx < |row| && row[idx] == Write(c)
    ensures Reads(c, row, idx)
  {
    match c
    case Number(n) =>
      ParseIntToString(n);
    case Reference(n) =>
      if n.Some? && n.value != 0 {
        ParseIntToString(n.value);
      }
    case Optional(n) =>
      if n.Some? {
        ParseIntToString(n.value);
      }
    case Dated(d) =>
      if d.Some? {
        DateRoundTrip(d.value);
      }
    case Amount(a) =>
      if a.Some? {
        DecimalRoundTrip(a.value);
      }
    case _ =>
  }

  /** Each field of `row` reads back as the column at its index. */
  predicate RowReadsBack(row: Row, cols: seq<Column>)
  {
    |row| == |cols| && forall k {:trigger Reads(cols[k], row, k)} :: 0 <= k < |cols| ==> Reads(cols[k], row, k)
  }

  // What a row that reads back as its columns gives each reader; the
  // lemmas take the column's kind from the caller.

  lemma TextAt(row: Row, cols: seq<Column>, k: nat, t: string)
    requires RowReadsBack(row, cols) && k < |cols| && cols[k] == Text(t)
    ensures Get(row, k) == t
  {
    assert Reads(cols[k], row, k);
  }

  lemma NumberAt(row: Row, cols: seq<Column>, k: nat, n: int)
    requires RowReadsBack(row, cols) && k < |cols| && cols[k] == Number(n)
    ensures GetInt(row, k, 0) == Success(n) && GetInt(row, k, 1) == Success(n)
  {
    assert Reads(cols[k], row, k);
  }

  lemma ReferenceAt(row: Row, cols: seq<Column>, k: nat, n: Option<int>)
    requires RowReadsBack(row, cols) && k < |cols| && cols[k] == Reference(n)
    ensures GetRef(row, k) == Success(Collapse(n))
  {
    assert Reads(cols[k], row, k);
  }

  lemma DateAt(row: Row, cols: seq<Column>, k: nat, d: Option<CalendarDate>)
    requires RowReadsBack(row, cols) && k < |cols| && cols[k] == Dated(d)
    ensures GetDate(row, k) == Success(d)
  {
    assert Reads(cols[k], row, k);
  }

  lemma AmountAt(row: Row, cols: seq<Column>, k: nat, a: Option<PyDecimal.Decimal>)
    requires RowReadsBack(row, cols) && k < |cols| && cols[k] == Amount(a)
    ensures GetDecimal(row, k) == Success(a)
  {
    assert Reads(cols[k], row, k);
  }

  /** A row rendered from columns that all survive reads back as them. */
  lemma RenderReadsBack(cols: seq<Column>)
    requires forall k :: 0 <= k < |cols| ==> Survives(cols[k])
    ensures RowReadsBack(Render(cols), cols)
  {
    forall k | 0 <= k < |cols|
      ensures Reads(cols[k], Render(cols), k)
    {
      ColumnRoundTrip(cols[k], Render(cols), k);
    }
  }

  // ---------------------------------------------------------------
  // Vendor (CMXLIF)
  // ---------------------------------------------------------------

  /** A vendor record. The last six attributes have no column in the
      row layout and keep their defaults when a row is decoded. */
  datatype Vendor = Vendor(
    recordType: string, vendorId: Option<int>, companyId: int,
    salutation: string, title: string, firstName: string, lastName: string,
    companyName: string, department: string, street: string, postalCode: string,
    city: string, notes: string, inactive: int, country: string,
    phone: string, fax: string, email: string,
    bankAccount: string, bankCode: string, iban: string, bic: string, bankName: string,
    taxId: string, vatId: string, paymentTerms: int,
    deliveryTerms: string, deliveryTermsExtra: string, outputMedium: int,
    accountHolder: string, addressGroup: Option<int>, customerId: Option<string>,
    currency: string, privatePerson: int, url: string)
  {
    /** `Vendor.from_csv_row`: the integer columns are read in column
        order, so the first bad one decides the error. */
    static function FromRow(row: Row): Result<Vendor, CodecError>
    {
      var vendorId :- GetRef(row, 1);
      var companyId :- GetInt(row, 2, 1);
      var inactive :- GetInt(row, 13, 0);
      var paymentTerms :- GetInt(row, 25, 0);
      var outputMedium :- GetInt(row, 28, 0);
      var country := if Get(row, 14) == "" then "DE" else Get(row, 14);
      Success(Vendor(
        Get(row, 0), vendorId, companyId,
        Get(row, 3), Get(row, 4), Get(row, 5), Get(row, 6),
        Get(row, 7), Get(row, 8), Get(row, 9), Get(row, 10),
        Get(row, 11), Get(row, 12), inactive, country,
        Get(row, 15), Get(row, 16), Get(row, 17),
        Get(row, 18), Get(row, 19), Get(row, 20), Get(row, 21), Get(row, 22),
        Get(row, 23), Get(row, 24), paymentTerms,
        Get(row, 26), Get(row, 27), outputMedium,
        "", None, None, "EUR", 0, ""))
    }

    /** The attributes `Vendor.to_csv_row` writes: the first 29 in
        declaration order. */
    function Layout(): (cols: seq<Column>)
      ensures |cols| == 29
    {
      seq(29, k requires 0 <= k < 29 => ColumnAt(k))
    }

    /** The column at index `k`. */
    function ColumnAt(k: nat): Column
      requires k < 29
    {
      match k
      case 0 => Text(recordType)
      case 1 => Reference(vendorId)
      case 2 => Number(companyId)
      case 3 => Text(salutation)
      case 4 => Text(title)
      case 5 => Text(firstName)
      case 6 => Text(lastName)
      case 7 => Text(companyName)
      case 8 => Text(department)
      case 9 => Text(street)
      case 10 => Text(postalCode)
      case 11 => Text(city)
      case 12 => Text(notes)
      case 13 => Number(inactive)
      case 14 => Text(country)
      case 15 => Text(phone)
      case 16 => Text(fax)
      case 17 => Text(email)
      case 18 => Text(bankAccount)
      case 19 => Text(bankCode)
      case 20 => Text(iban)
      case 21 => Text(bic)
      case 22 => Text(bankName)
      case 23 => Text(taxId)
      case 24 => Text(vatId)
      case 25 => Number(paymentTerms)
      case 26 => Text(deliveryTerms)
      case 27 => Text(deliveryTermsExtra)
      case _ => Number(outputMedium)
    }

    /** `Vendor.to_csv_row`. */
    function ToRow(): (r: Row)
      ensures |r| == 29
    {
      Render(Layout())
    }

    /** The attributes without a column hold their defaults. */
    predicate UnlistedDefaults()
    {
      accountHolder == "" && addressGroup == None && customerId == None
      && currency == "EUR" && privatePerson == 0 && url == ""
    }
  }

  /** The vendor every attribute of which has its default, except the
      record type. */
  function DefaultVendor(recordType: string): Vendor
  {
    Vendor(recordType, None, 1, "", "", "", "", "", "", "", "", "", "", 0, "DE",
      "", "", "", "", "", "", "", "", "", "", 0, "", "", 0, "", None, None, "EUR", 0, "")
  }

  /** Each field of a vendor's row reads back as the attribute written
      there. */
  lemma VendorRowReadsBack(v: Vendor)
    ensures RowReadsBack(v.ToRow(), v.Layout())
  {
    var cols := v.Layout();
    assert forall k :: 0 <= k < 29 ==> !cols[k].Dated? && !cols[k].Amount?;
    RenderReadsBack(cols);
  }

  /** A vendor comes back from its own row, provided its number is not 0
      (written as `""`, read as none), its country is not empty (read as
      `"DE"`) and the attributes without a column hold their defaults. */
  lemma VendorRoundTrip(v: Vendor)
    requires v.vendorId != Some(0) && v.country != "" && v.UnlistedDefaults()
    ensures Vendor.FromRow(v.ToRow()) == Success(v)
  {
    VendorRowReadsBack(v);
    VendorDecode(v.ToRow(), v);
  }

  /** Any row that reads back as a vendor's columns decodes to that
      vendor, under the same three provisos. */
  lemma VendorDecode(row: Row, v: Vendor)
    requires RowReadsBack(row, v.Layout())
    requires v.vendorId != Some(0) && v.country != "" && v.UnlistedDefaults()
    ensures Vendor.FromRow(row) == Success(v)
  {
    VendorNumbers(row, v);
    VendorNameTexts(row, v);
    VendorAddressTexts(row, v);
    VendorContactTexts(row, v);
    VendorTermsTexts(row, v);
    VendorColumns(row, v.vendorId, v.companyId, v.inactive, v.paymentTerms, v.outputMedium);
  }

  lemma VendorNumbers(row: Row, v: Vendor)
    requires RowReadsBack(row, v.Layout())
    requires v.vendorId != Some(0)
    ensures GetRef(row, 1) == Success(v.vendorId) && GetInt(row, 2, 1) == Success(v.companyId)
    ensures GetInt(row, 13, 0) == Success(v.inactive) && GetInt(row, 25, 0) == Success(v.paymentTerms)
    ensures GetInt(row, 28, 0) == Success(v.outputMedium)
  {
    var cols := v.Layout();
    assert cols[1] == Reference(v.vendorId) && cols[2] == Number(v.companyId) && cols[13] == Number(v.inactive);
    assert cols[25] == Number(v.paymentTerms) && cols[28] == Number(v.outputMedium);
    ReferenceAt(row, cols, 1, v.vendorId);
    NumberAt(row, cols, 2, v.companyId);
    NumberAt(row, cols, 13, v.inactive);
    NumberAt(row, cols, 25, v.paymentTerms);
    NumberAt(row, cols, 28, v.outputMedium);
  }

  lemma VendorNameTexts(row: Row, v: Vendor)
    requires RowReadsBack(row, v.Layout())
    ensures Get(row, 0) == v.recordType && Get(row, 3) == v.salutation && Get(row, 4) == v.title
    ensures Get(row, 5) == v.firstName && Get(row, 6) == v.lastName && Get(row, 7) == v.companyName
  {
    var cols := v.Layout();
    assert cols[0] == Text(v.recordType) && cols[3] == Text(v.salutation) && cols[4] == Text(v.title);
    assert cols[5] == Text(v.firstName) && cols[6] == Text(v.lastName) && cols[7] == Text(v.companyName);
    TextAt(row, cols, 0, v.recordType);
    TextAt(row, cols, 3, v.salutation);
    TextAt(row, cols, 4, v.title);
    TextAt(row, cols, 5, v.firstName);
    TextAt(row, cols, 6, v.lastName);
    TextAt(row, cols, 7, v.companyName);
  }

  lemma VendorAddressTexts(row: Row, v: Vendor)
    requires RowReadsBack(row, v.Layout())
    ensures Get(row, 8) == v.department && Get(row, 9) == v.street && Get(row, 10) == v.postalCode
    ensures Get(row, 11) == v.city && Get(row, 12) == v.notes && Get(row, 14) == v.country
  {
    var cols := v.Layout();
    assert cols[8] == Text(v.department) && cols[9] == Text(v.street) && cols[10] == Text(v.postalCode);
    assert cols[11] == Text(v.city) && cols[12] == Text(v.notes) && cols[14] == Text(v.country);
    TextAt(row, cols, 8, v.department);
    TextAt(row, cols, 9, v.street);
    TextAt(row, cols, 10, v.postalCode);
    TextAt(row, cols, 11, v.city);
    TextAt(row, cols, 12, v.notes);
    TextAt(row, cols, 14, v.country);
  }

  lemma VendorContactTexts(row: Row, v: Vendor)
    requires RowReadsBack(row, v.Layout())
    ensures Get(row, 15) == v.phone && Get(row, 16) == v.fax && Get(row, 17) == v.email
    ensures Get(row, 18) == v.bankAccount && Get(row, 19) == v.bankCode && Get(row, 20) == v.iban
  {
    var cols := v.Layout();
    assert cols[15] == Text(v.phone) && cols[16] == Text(v.fax) && cols[17] == Text(v.email);
    assert cols[18] == Text(v.bankAccount) && cols[19] == Text(v.bankCode) && cols[20] == Text(v.iban);
    TextAt(row, cols, 15, v.phone);
    TextAt(row, cols, 16, v.fax);
    TextAt(row, cols, 17, v.email);
    TextAt(row, cols, 18, v.bankAccount);
    TextAt(row, cols, 19, v.bankCode);
    TextAt(row, cols, 20, v.iban);
  }

  lemma VendorTermsTexts(row: Row, v: Vendor)
    requires RowReadsBack(row, v.Layout())
    ensures Get(row, 21) == v.bic && Get(row, 22) == v.bankName && Get(row, 23) == v.taxId
    ensures Get(row, 24) == v.vatId && Get(row, 26) == v.deliveryTerms && Get(row, 27) == v.deliveryTermsExtra
  {
    var cols := v.Layout();
    assert cols[21] == Text(v.bic) && cols[22] == Text(v.bankName) && cols[23] == Text(v.taxId);
    assert cols[24] == Text(v.vatId) && cols[26] == Text(v.deliveryTerms) && cols[27] == Text(v.deliveryTermsExtra);
    TextAt(row, cols, 21, v.bic);
    TextAt(row, cols, 22, v.bankName);
    TextAt(row, cols, 23, v.taxId);
    TextAt(row, cols, 24, v.vatId);
    TextAt(row, cols, 26, v.deliveryTerms);
    TextAt(row, cols, 27, v.deliveryTermsExtra);
  }

  /** Once the integer columns are read, the rest of a vendor is the
      row's text columns. */
  lemma VendorColumns(row: Row, vendorId: Option<int>, companyId: int, inactive: int, paymentTerms: int, outputMedium: int)
    requires GetRef(row, 1) == Success(vendorId) && GetInt(row, 2, 1) == Success(companyId)
    requires GetInt(row, 13, 0) == Success(inactive) && GetInt(row, 25, 0) == Success(paymentTerms)
    requires GetInt(row, 28, 0) == Success(outputMedium)
    ensures Vendor.FromRow(row) == Success(Vendor(
        Get(row, 0), vendorId, companyId,
        Get(row, 3), Get(row, 4), Get(row, 5), Get(row, 6),
        Get(row, 7), Get(row, 8), Get(row, 9), Get(row, 10),
        Get(row, 11), Get(row, 12), inactive, if Get(row, 14) == "" then "DE" else Get(row, 14),
        Get(row, 15), Get(row, 16), Get(row, 17),
        Get(row, 18), Get(row, 19), Get(row, 20), Get(row, 21), Get(row, 22),
        Get(row, 23), Get(row, 24), paymentTerms,
        Get(row, 26), Get(row, 27), outputMedium,
        "", None, None, "EUR", 0, ""))
  {
  }

  /** A row holding only its tag decodes to the defaults. */
  lemma VendorTagOnly(tag: string)
    ensures Vendor.FromRow([tag]) == Success(DefaultVendor(tag))
  {
  }

  /** Decoding a vendor fails exactly when one of its five integer
      columns holds text that is not an integer. */
  lemma VendorFromRowFails(row: Row)
    ensures Vendor.FromRow(row).Failure? <==>
      GetInt(row, 1, 0).Failure? || GetInt(row, 2, 1).Failure? || GetInt(row, 13, 0).Failure?
      || GetInt(row, 25, 0).Failure? || GetInt(row, 28, 0).Failure?
  {
  }

  // ---------------------------------------------------------------
  // Vendor invoice (CMXLRN)
  // ---------------------------------------------------------------

  /** A vendor invoice; it is only ever encoded. */
  datatype VendorInvoice = VendorInvoice(
    recordType: string, vendorId: Option<int>, companyId: int,
    invoiceDate: Option<CalendarDate>, invoiceNumber: string,
    netAmountFullTax: Option<PyDecimal.Decimal>, taxFull: Option<PyDecimal.Decimal>,
    netAmountReducedTax: Option<PyDecimal.Decimal>, taxReduced: Option<PyDecimal.Decimal>,
    otherAccount: Option<int>, otherAmount: Option<PyDecimal.Decimal>,
    currency: string, contraAccount: Option<int>, isCredit: bool,
    bookingText: string, paymentTerms: Option<int>,
    accountFullTax: Option<int>, accountReducedTax: Option<int>,
    isCancelled: bool, costCenter: string, memo: string)
  {
    /** The attributes `VendorInvoice.to_csv_row` writes, all 21 in
        declaration order. */
    function Layout(): (cols: seq<Column>)
      ensures |cols| == 21
    {
      seq(21, k requires 0 <= k < 21 => ColumnAt(k))
    }

    /** The column at index `k`. */
    function ColumnAt(k: nat): Column
      requires k < 21
    {
      match k
      case 0 => Text(recordType)
      case 1 => Reference(vendorId)
      case 2 => Number(companyId)
      case 3 => Dated(invoiceDate)
      case 4 => Text(invoiceNumber)
      case 5 => Amount(netAmountFullTax)
      case 6 => Amount(taxFull)
      case 7 => Amount(netAmountReducedTax)
      case 8 => Amount(taxReduced)
      case 9 => Reference(otherAccount)
      case 10 => Amount(otherAmount)
      case 11 => Text(currency)
      case 12 => Reference(contraAccount)
      case 13 => Flag(isCredit)
      case 14 => Text(bookingText)
      case 15 => Optional(paymentTerms)
      case 16 => Reference(accountFullTax)
      case 17 => Reference(accountReducedTax)
      case 18 => Flag(isCancelled)
      case 19 => Text(costCenter)
      case _ => Text(memo)
    }

    /** `VendorInvoice.to_csv_row`. */
    function ToRow(): (r: Row)
      ensures |r| == 21
    {
      Render(Layout())
    }

    /** The invoice date is from the year 1000 on and every amount is in
        plain notation. */
    predicate Writable()
    {
      (invoiceDate.Some? ==> invoiceDate.value.year >= 1000)
      && PlainAmount(netAmountFullTax) && PlainAmount(taxFull)
      && PlainAmount(netAmountReducedTax) && PlainAmount(taxReduced)
      && PlainAmount(otherAmount)
    }
  }

  predicate PlainAmount(a: Option<PyDecimal.Decimal>)
  {
    a.Some? ==> PyDecimal.Plain(a.value)
  }

  /** Every column of an encoded invoice reads back as the attribute
      written there: the texts and the flags as they are, the amounts and
      the date unchanged, payment terms including a zero, and the four
      accounts and the vendor number except that zero is lost. */
  lemma VendorInvoiceRoundTrip(inv: VendorInvoice)
    requires inv.Writable()
    ensures RowReadsBack(inv.ToRow(), inv.Layout())
  {
    RenderReadsBack(inv.Layout());
  }

  /** What the `invoice_date` validator (and the date validators of the
      other records) is given: a date, text, or anything else. */
  datatype DateInput = DateValue(date: CalendarDate) | TextValue(text: string) | OtherValue

  /** The `parse_date` field validator: a date is kept, text is parsed as
      a Collmex date, anything else becomes no date. */
  function CoerceDate(v: DateInput): Result<Option<CalendarDate>, CodecError>
  {
    match v
    case DateValue(d) => Success(Some(d))
    case TextValue(s) => ParseDate(s)
    case OtherValue => Success(None)
  }

  /** A date and its Collmex text set the same invoice date; the empty
      text and a non-text value set none. */
  lemma CoerceDateAgrees(d: CalendarDate)
    requires d.year >= 1000
    ensures CoerceDate(TextValue(FormatDate(Some(d)))) == CoerceDate(DateValue(d))
    ensures CoerceDate(TextValue("")) == CoerceDate(OtherValue) == Success(None)
  {
    DateRoundTrip(d);
  }

  // ---------------------------------------------------------------
  // Open item (OPEN_ITEM)
  // ---------------------------------------------------------------

  /** An open item; it is only ever decoded. */
  datatype OpenItem = OpenItem(
    recordType: string, companyId: int, fiscalYear: int, bookingId: int, position: int,
    customerId: Option<int>, customerName: string, vendorId: Option<int>, vendorName: string,
    invoiceNumber: string, documentDate: Option<CalendarDate>, paymentTerms: int,
    dueDate: Option<CalendarDate>, daysOverdue: int, dunningLevel: int,
    dunningDate: Option<CalendarDate>, dunningFees: Option<PyDecimal.Decimal>,
    amount: Option<PyDecimal.Decimal>, paid: Option<PyDecimal.Decimal>,
    openAmount: Option<PyDecimal.Decimal>)
  {
    /** `OpenItem.from_csv_row`. The keyword arguments are evaluated in
        order, so the integer and amount columns fail first, in column
        order; the three dates are passed as text and parsed afterwards by
        the `parse_date` validator, in declaration order. */
    static function FromRow(row: Row): Result<OpenItem, CodecError>
    {
      var companyId :- GetInt(row, 1, 1);
      var fiscalYear :- GetInt(row, 2, 0);
      var bookingId :- GetInt(row, 3, 0);
      var position :- GetInt(row, 4, 0);
      var customerId :- GetRef(row, 5);
      var vendorId :- GetRef(row, 7);
      var paymentTerms :- GetInt(row, 11, 0);
      var daysOverdue :- GetInt(row, 13, 0);
      var dunningLevel :- GetInt(row, 14, 0);
      var dunningFees :- GetDecimal(row, 16);
      var amount :- GetDecimal(row, 17);
      var paid :- GetDecimal(row, 18);
      var openAmount :- GetDecimal(row, 19);
      var documentDate :- GetDate(row, 10);
      var dueDate :- GetDate(row, 12);
      var dunningDate :- GetDate(row, 15);
      Success(OpenItem(
        Get(row, 0), companyId, fiscalYear, bookingId, position,
        customerId, Get(row, 6), vendorId, Get(row, 8),
        Get(row, 9), documentDate, paymentTerms,
        dueDate, daysOverdue, dunningLevel,
        dunningDate, dunningFees, amount, paid, openAmount))
    }

    /** The column an open item is read from, attribute by attribute: the
        row Collmex sends for it. `OpenItem` has no `to_csv_row`; this
        layout is the inverse of `from_csv_row` that the round trip
        starts from. */
    function Layout(): (cols: seq<Column>)
      ensures |cols| == 20
    {
      seq(20, k requires 0 <= k < 20 => ColumnAt(k))
    }

    /** The column at index `k`. */
    function ColumnAt(k: nat): Column
      requires k < 20
    {
      match k
      case 0 => Text(recordType)
      case 1 => Number(companyId)
      case 2 => Number(fiscalYear)
      case 3 => Number(bookingId)
      case 4 => Number(position)
      case 5 => Reference(customerId)
      case 6 => Text(customerName)
      case 7 => Reference(vendorId)
      case 8 => Text(vendorName)
      case 9 => Text(invoiceNumber)
      case 10 => Dated(documentDate)
      case 11 => Number(paymentTerms)
      case 12 => Dated(dueDate)
      case 13 => Number(daysOverdue)
      case 14 => Number(dunningLevel)
      case 15 => Dated(dunningDate)
      case 16 => Amount(dunningFees)
      case 17 => Amount(amount)
      case 18 => Amount(paid)
      case _ => Amount(openAmount)
    }

    /** No reference is 0, every date is from the year 1000 on and every
        amount is in plain notation. */
    predicate Readable()
    {
      customerId != Some(0) && vendorId != Some(0)
      && Survives(Dated(documentDate)) && Survives(Dated(dueDate)) && Survives(Dated(dunningDate))
      && PlainAmount(dunningFees) && PlainAmount(amount) && PlainAmount(paid) && PlainAmount(openAmount)
    }
  }

  /** The open item every attribute of which has its default, except the
      record type. */
  function DefaultOpenItem(recordType: string): OpenItem
  {
    OpenItem(recordType, 1, 0, 0, 0, None, "", None, "", "", None, 0, None, 0, 0, None, None, None, None, None)
  }

  /** A row holding only its tag decodes to the defaults: company 1, every
      other number 0, no dates, no amounts. */
  lemma OpenItemTagOnly(tag: string)
    ensures OpenItem.FromRow([tag]) == Success(DefaultOpenItem(tag))
  {
  }

  /** Decoding an open item fails exactly when an integer, amount or date
      column holds text its reader refuses. */
  lemma OpenItemFromRowFails(row: Row)
    ensures OpenItem.FromRow(row).Failure? <==>
      GetInt(row, 1, 1).Failure? || GetInt(row, 2, 0).Failure? || GetInt(row, 3, 0).Failure?
      || GetInt(row, 4, 0).Failure? || GetInt(row, 5, 0).Failure? || GetInt(row, 7, 0).Failure?
      || GetInt(row, 11, 0).Failure? || GetInt(row, 13, 0).Failure? || GetInt(row, 14, 0).Failure?
      || GetDecimal(row, 16).Failure? || GetDecimal(row, 17).Failure?
      || GetDecimal(row, 18).Failure? || GetDecimal(row, 19).Failure?
      || GetDate(row, 10).Failure? || GetDate(row, 12).Failure? || GetDate(row, 15).Failure?
  {
  }

  /** A date error is reported only when every integer and amount column
      reads. */
  lemma OpenItemDateErrorsLast(row: Row)
    requires OpenItem.FromRow(row).Failure? && OpenItem.FromRow(row).error.InvalidDate?
    ensures GetInt(row, 1, 1).Success? && GetInt(row, 2, 0).Success? && GetInt(row, 3, 0).Success?
    ensures GetInt(row, 4, 0).Success? && GetRef(row, 5).Success? && GetRef(row, 7).Success?
    ensures GetInt(row, 11, 0).Success? && GetInt(row, 13, 0).Success? && GetInt(row, 14, 0).Success?
    ensures GetDecimal(row, 16).Success? && GetDecimal(row, 17).Success?
    ensures GetDecimal(row, 18).Success? && GetDecimal(row, 19).Success?
  {
    OpenItemFromRowFails(row);
  }

  /** Customer and vendor are absent exactly when their column is empty or
      a spelling of zero. */
  lemma OpenItemReferences(row: Row)
    requires OpenItem.FromRow(row).Success?
    ensures var item := OpenItem.FromRow(row).value;
      && (item.customerId.None? <==> Get(row, 5) == "" || ParseInt(Get(row, 5)) == Some(0))
      && (item.vendorId.None? <==> Get(row, 7) == "" || ParseInt(Get(row, 7)) == Some(0))
  {
    OpenItemDecoded(row);
    GetRefNone(row, 5);
    GetRefNone(row, 7);
  }

  /** A successful decode is built from what each reader returned. */
  lemma OpenItemDecoded(row: Row)
    requires OpenItem.FromRow(row).Success?
    ensures GetInt(row, 1, 1).Success? && GetInt(row, 2, 0).Success? && GetInt(row, 3, 0).Success?
    ensures GetInt(row, 4, 0).Success? && GetRef(row, 5).Success? && GetRef(row, 7).Success?
    ensures GetInt(row, 11, 0).Success? && GetInt(row, 13, 0).Success? && GetInt(row, 14, 0).Success?
    ensures GetDecimal(row, 16).Success? && GetDecimal(row, 17).Success?
    ensures GetDecimal(row, 18).Success? && GetDecimal(row, 19).Success?
    ensures GetDate(row, 10).Success? && GetDate(row, 12).Success? && GetDate(row, 15).Success?
    ensures OpenItem.FromRow(row) == Success(OpenItem(
        Get(row, 0), GetInt(row, 1, 1).value, GetInt(row, 2, 0).value, GetInt(row, 3, 0).value, GetInt(row, 4, 0).value,
        GetRef(row, 5).value, Get(row, 6), GetRef(row, 7).value, Get(row, 8),
        Get(row, 9), GetDate(row, 10).value, GetInt(row, 11, 0).value,
        GetDate(row, 12).value, GetInt(row, 13, 0).value, GetInt(row, 14, 0).value,
        GetDate(row, 15).value, GetDecimal(row, 16).value, GetDecimal(row, 17).value,
        GetDecimal(row, 18).value, GetDecimal(row, 19).value))
  {
    OpenItemFromRowFails(row);
  }

  /** Any row that reads back as an open item's layout decodes to that
      item, provided neither reference is 0 (read back as none). */
  lemma OpenItemDecode(row: Row, item: OpenItem)
    requires RowReadsBack(row, item.Layout())
    requires item.customerId != Some(0) && item.vendorId != Some(0)
    ensures OpenItem.FromRow(row) == Success(item)
  {
    OpenItemTexts(row, item);
    OpenItemNumbers(row, item);
    OpenItemDates(row, item);
    OpenItemAmounts(row, item);
    OpenItemColumns(row, item);
  }

  lemma OpenItemTexts(row: Row, item: OpenItem)
    requires RowReadsBack(row, item.Layout())
    ensures Get(row, 0) == item.recordType && Get(row, 6) == item.customerName
    ensures Get(row, 8) == item.vendorName && Get(row, 9) == item.invoiceNumber
  {
    var cols := item.Layout();
    assert cols[0] == Text(item.recordType) && cols[6] == Text(item.customerName);
    assert cols[8] == Text(item.vendorName) && cols[9] == Text(item.invoiceNumber);
    TextAt(row, cols, 0, item.recordType);
    TextAt(row, cols, 6, item.customerName);
    TextAt(row, cols, 8, item.vendorName);
    TextAt(row, cols, 9, item.invoiceNumber);
  }

  lemma OpenItemNumbers(row: Row, item: OpenItem)
    requires RowReadsBack(row, item.Layout())
    requires item.customerId != Some(0) && item.vendorId != Some(0)
    ensures GetInt(row, 1, 1) == Success(item.companyId) && GetInt(row, 2, 0) == Success(item.fiscalYear)
    ensures GetInt(row, 3, 0) == Success(item.bookingId) && GetInt(row, 4, 0) == Success(item.position)
    ensures GetRef(row, 5) == Success(item.customerId) && GetRef(row, 7) == Success(item.vendorId)
    ensures GetInt(row, 11, 0) == Success(item.paymentTerms) && GetInt(row, 13, 0) == Success(item.daysOverdue)
    ensures GetInt(row, 14, 0) == Success(item.dunningLevel)
  {
    var cols := item.Layout();
    assert cols[1] == Number(item.companyId) && cols[2] == Number(item.fiscalYear) && cols[3] == Number(item.bookingId) && cols[4] == Number(item.position) && cols[5] == Reference(item.customerId) && cols[7] == Reference(item.vendorId) && cols[11] == Number(item.paymentTerms) && cols[13] == Number(item.daysOverdue) && cols[14] == Number(item.dunningLevel);
    NumberAt(row, cols, 1, item.companyId);
    NumberAt(row, cols, 2, item.fiscalYear);
    NumberAt(row, cols, 3, item.bookingId);
    NumberAt(row, cols, 4, item.position);
    ReferenceAt(row, cols, 5, item.customerId);
    ReferenceAt(row, cols, 7, item.vendorId);
    NumberAt(row, cols, 11, item.paymentTerms);
    NumberAt(row, cols, 13, item.daysOverdue);
    NumberAt(row, cols, 14, item.dunningLevel);
  }

  lemma OpenItemDates(row: Row, item: OpenItem)
    requires RowReadsBack(row, item.Layout())
    ensures GetDate(row, 10) == Success(item.documentDate) && GetDate(row, 12) == Success(item.dueDate)
    ensures GetDate(row, 15) == Success(item.dunningDate)
  {
    var cols := item.Layout();
    assert cols[10] == Dated(item.documentDate) && cols[12] == Dated(item.dueDate) && cols[15] == Dated(item.dunningDate);
    DateAt(row, cols, 10, item.documentDate);
    DateAt(row, cols, 12, item.dueDate);
    DateAt(row, cols, 15, item.dunningDate);
  }

  lemma OpenItemAmounts(row: Row, item: OpenItem)
    requires RowReadsBack(row, item.Layout())
    ensures GetDecimal(row, 16) == Success(item.dunningFees) && GetDecimal(row, 17) == Success(item.amount)
    ensures GetDecimal(row, 18) == Success(item.paid) && GetDecimal(row, 19) == Success(item.openAmount)
  {
    var cols := item.Layout();
    assert cols[16] == Amount(item.dunningFees) && cols[17] == Amount(item.amount) && cols[18] == Amount(item.paid) && cols[19] == Amount(item.openAmount);
    AmountAt(row, cols, 16, item.dunningFees);
    AmountAt(row, cols, 17, item.amount);
    AmountAt(row, cols, 18, item.paid);
    AmountAt(row, cols, 19, item.openAmount);
  }

  /** Once every column reads as the item's attribute, the decoder builds
      the item. */
  lemma OpenItemColumns(row: Row, item: OpenItem)
    requires Get(row, 0) == item.recordType && Get(row, 6) == item.customerName
    requires Get(row, 8) == item.vendorName && Get(row, 9) == item.invoiceNumber
    requires GetInt(row, 1, 1) == Success(item.companyId) && GetInt(row, 2, 0) == Success(item.fiscalYear)
    requires GetInt(row, 3, 0) == Success(item.bookingId) && GetInt(row, 4, 0) == Success(item.position)
    requires GetRef(row, 5) == Success(item.customerId) && GetRef(row, 7) == Success(item.vendorId)
    requires GetInt(row, 11, 0) == Success(item.paymentTerms) && GetInt(row, 13, 0) == Success(item.daysOverdue)
    requires GetInt(row, 14, 0) == Success(item.dunningLevel)
    requires GetDate(row, 10) == Success(item.documentDate) && GetDate(row, 12) == Success(item.dueDate)
    requires GetDate(row, 15) == Success(item.dunningDate)
    requires GetDecimal(row, 16) == Success(item.dunningFees) && GetDecimal(row, 17) == Success(item.amount)
    requires GetDecimal(row, 18) == Success(item.paid) && GetDecimal(row, 19) == Success(item.openAmount)
    ensures OpenItem.FromRow(row) == Success(item)
  {
  }

  /** Every open item without a zero reference, with dates from the year
      1000 on and plain amounts is read back from the row that lays it
      out. */
  lemma OpenItemRoundTrip(item: OpenItem)
    requires item.Readable()
    ensures OpenItem.FromRow(Render(item.Layout())) == Success(item)
  {
    var cols := item.Layout();
    RenderReadsBack(cols);
    OpenItemDecode(Render(cols), item);
  }

  // ---------------------------------------------------------------
  // Accounting document (ACCDOC)
  // ---------------------------------------------------------------

  /** One booking line of an accounting document; it is only ever
      decoded. */
  datatype AccountingDocument = AccountingDocument(
    recordType: string, companyId: int, fiscalYear: int, bookingId: int,
    documentDate: Option<CalendarDate>, bookedDate: Option<CalendarDate>, bookingText: string,
    position: int, accountNumber: int, accountName: string, debitCredit: string,
    amount: Option<PyDecimal.Decimal>, customerId: Option<int>, customerName: string,
    vendorId: Option<int>, vendorName: string, assetId: Option<int>, assetName: string,
    cancelledBooking: Option<int>, costCenter: string, invoiceNumber: string,
    customerOrderId: Option<int>, travelId: Option<int>, supplierOrderId: Option<int>,
    paymentId: Option<int>, documentNumber: string, memo: string, user: string)
  {
    /** `AccountingDocument.from_csv_row`. As for open items, the integer,
        amount and reference columns are read in column order while the
        arguments are evaluated, and the two date columns are parsed last,
        by the `parse_date` validator. */
    static function FromRow(row: Row): Result<AccountingDocument, CodecError>
    {
      var companyId :- GetInt(row, 1, 1);
      var fiscalYear :- GetInt(row, 2, 0);
      var bookingId :- GetInt(row, 3, 0);
      var position :- GetInt(row, 7, 0);
      var accountNumber :- GetInt(row, 8, 0);
      var amount :- GetDecimal(row, 11);
      var customerId :- GetRef(row, 12);
      var vendorId :- GetRef(row, 14);
      var assetId :- GetRef(row, 16);
      var cancelledBooking :- GetRef(row, 18);
      var customerOrderId :- GetRef(row, 21);
      var travelId :- GetRef(row, 22);
      var supplierOrderId :- GetRef(row, 23);
      var paymentId :- GetRef(row, 24);
      var documentDate :- GetDate(row, 4);
      var bookedDate :- GetDate(row, 5);
      Success(AccountingDocument(
        Get(row, 0), companyId, fiscalYear, bookingId, documentDate,
        bookedDate, Get(row, 6), position, accountNumber, Get(row, 9),
        Get(row, 10), amount, customerId, Get(row, 13), vendorId,
        Get(row, 15), assetId, Get(row, 17), cancelledBooking, Get(row, 19),
        Get(row, 20), customerOrderId, travelId, supplierOrderId, paymentId,
        Get(row, 25), Get(row, 26), Get(row, 27)))
    }

    /** The column each attribute of a booking line is read from.
        `AccountingDocument` has no `to_csv_row`; this layout is the
        inverse of `from_csv_row` that the round trip starts from. */
    function Layout(): (cols: seq<Column>)
      ensures |cols| == 28
    {
      seq(28, k requires 0 <= k < 28 => ColumnAt(k))
    }

    /** The column at index `k`. */
    function ColumnAt(k: nat): Column
      requires k < 28
    {
      match k
      case 0 => Text(recordType)
      case 1 => Number(companyId)
      case 2 => Number(fiscalYear)
      case 3 => Number(bookingId)
      case 4 => Dated(documentDate)
      case 5 => Dated(bookedDate)
      case 6 => Text(bookingText)
      case 7 => Number(position)
      case 8 => Number(accountNumber)
      case 9 => Text(accountName)
      case 10 => Text(debitCredit)
      case 11 => Amount(amount)
      case 12 => Reference(customerId)
      case 13 => Text(customerName)
      case 14 => Reference(vendorId)
      case 15 => Text(vendorName)
      case 16 => Reference(assetId)
      case 17 => Text(assetName)
      case 18 => Reference(cancelledBooking)
      case 19 => Text(costCenter)
      case 20 => Text(invoiceNumber)
      case 21 => Reference(customerOrderId)
      case 22 => Reference(travelId)
      case 23 => Reference(supplierOrderId)
      case 24 => Reference(paymentId)
      case 25 => Text(documentNumber)
      case 26 => Text(memo)
      case _ => Text(user)
    }

    /** No reference is 0. */
    predicate NoZeroReference()
    {
      customerId != Some(0) && vendorId != Some(0) && assetId != Some(0) && cancelledBooking != Some(0)
      && customerOrderId != Some(0) && travelId != Some(0) && supplierOrderId != Some(0) && paymentId != Some(0)
    }

    /** No reference is 0, both dates are from the year 1000 on and the
        amount is in plain notation. */
    predicate Readable()
    {
      NoZeroReference()
      && Survives(Dated(documentDate)) && Survives(Dated(bookedDate)) && PlainAmount(amount)
    }
  }

  /** The booking line every attribute of which has its default, except
      the record type. */
  function DefaultAccountingDocument(recordType: string): AccountingDocument
  {
    AccountingDocument(recordType, 1, 0, 0, None, None, "", 0, 0, "", "", None, None, "", None, "", None, "", None, "", "", None, None, None, None, "", "", "")
  }

  /** A row holding only its tag decodes to the defaults. */
  lemma AccountingDocumentTagOnly(tag: string)
    ensures AccountingDocument.FromRow([tag]) == Success(DefaultAccountingDocument(tag))
  {
  }

  /** Decoding a booking line fails exactly when an integer, reference,
      amount or date column holds text its reader refuses. */
  lemma AccountingDocumentFromRowFails(row: Row)
    ensures AccountingDocument.FromRow(row).Failure? <==>
      GetInt(row, 1, 1).Failure? || GetInt(row, 2, 0).Failure? || GetInt(row, 3, 0).Failure?
      || GetInt(row, 7, 0).Failure? || GetInt(row, 8, 0).Failure? || GetDecimal(row, 11).Failure?
      || GetInt(row, 12, 0).Failure? || GetInt(row, 14, 0).Failure? || GetInt(row, 16, 0).Failure?
      || GetInt(row, 18, 0).Failure? || GetInt(row, 21, 0).Failure? || GetInt(row, 22, 0).Failure?
      || GetInt(row, 23, 0).Failure? || GetInt(row, 24, 0).Failure? || GetDate(row, 4).Failure?
      || GetDate(row, 5).Failure?
  {
  }

  /** A date error is reported only when every other reader succeeds. */
  lemma AccountingDocumentDateErrorsLast(row: Row)
    requires AccountingDocument.FromRow(row).Failure? && AccountingDocument.FromRow(row).error.InvalidDate?
    ensures GetInt(row, 1, 1).Success? && GetInt(row, 2, 0).Success? && GetInt(row, 3, 0).Success?
    ensures GetInt(row, 7, 0).Success? && GetInt(row, 8, 0).Success? && GetDecimal(row, 11).Success?
    ensures GetRef(row, 12).Success? && GetRef(row, 14).Success? && GetRef(row, 16).Success?
    ensures GetRef(row, 18).Success? && GetRef(row, 21).Success? && GetRef(row, 22).Success?
    ensures GetRef(row, 23).Success? && GetRef(row, 24).Success?
  {
    AccountingDocumentFromRowFails(row);
  }

  /** A successful decode is built from what each reader returned. */
  lemma AccountingDocumentDecoded(row: Row)
    requires AccountingDocument.FromRow(row).Success?
    ensures GetInt(row, 1, 1).Success? && GetInt(row, 2, 0).Success? && GetInt(row, 3, 0).Success?
    ensures GetInt(row, 7, 0).Success? && GetInt(row, 8, 0).Success? && GetDecimal(row, 11).Success?
    ensures GetRef(row, 12).Success? && GetRef(row, 14).Success? && GetRef(row, 16).Success?
    ensures GetRef(row, 18).Success? && GetRef(row, 21).Success? && GetRef(row, 22).Success?
    ensures GetRef(row, 23).Success? && GetRef(row, 24).Success? && GetDate(row, 4).Success?
    ensures GetDate(row, 5).Success?
    ensures AccountingDocument.FromRow(row) == Success(AccountingDocument(
        Get(row, 0), GetInt(row, 1, 1).value, GetInt(row, 2, 0).value, GetInt(row, 3, 0).value,
        GetDate(row, 4).value, GetDate(row, 5).value, Get(row, 6), GetInt(row, 7, 0).value,
        GetInt(row, 8, 0).value, Get(row, 9), Get(row, 10), GetDecimal(row, 11).value,
        GetRef(row, 12).value, Get(row, 13), GetRef(row, 14).value, Get(row, 15),
        GetRef(row, 16).value, Get(row, 17), GetRef(row, 18).value, Get(row, 19),
        Get(row, 20), GetRef(row, 21).value, GetRef(row, 22).value, GetRef(row, 23).value,
        GetRef(row, 24).value, Get(row, 25), Get(row, 26), Get(row, 27)))
  {
    AccountingDocumentFromRowFails(row);
  }

  /** Every reference of a decoded booking line is absent exactly when its
      column is empty or a spelling of zero. */
  lemma AccountingDocumentReferences(row: Row)
    requires AccountingDocument.FromRow(row).Success?
    ensures var doc := AccountingDocument.FromRow(row).value;
      && (doc.customerId.None? <==> Get(row, 12) == "" || ParseInt(Get(row, 12)) == Some(0))
      && (doc.vendorId.None? <==> Get(row, 14) == "" || ParseInt(Get(row, 14)) == Some(0))
      && (doc.assetId.None? <==> Get(row, 16) == "" || ParseInt(Get(row, 16)) == Some(0))
      && (doc.cancelledBooking.None? <==> Get(row, 18) == "" || ParseInt(Get(row, 18)) == Some(0))
      && (doc.customerOrderId.None? <==> Get(row, 21) == "" || ParseInt(Get(row, 21)) == Some(0))
      && (doc.travelId.None? <==> Get(row, 22) == "" || ParseInt(Get(row, 22)) == Some(0))
      && (doc.supplierOrderId.None? <==> Get(row, 23) == "" || ParseInt(Get(row, 23)) == Some(0))
      && (doc.paymentId.None? <==> Get(row, 24) == "" || ParseInt(Get(row, 24)) == Some(0))
  {
    AccountingDocumentDecoded(row);
    GetRefNone(row, 12);
    GetRefNone(row, 14);
    GetRefNone(row, 16);
    GetRefNone(row, 18);
    GetRefNone(row, 21);
    GetRefNone(row, 22);
    GetRefNone(row, 23);
    GetRefNone(row, 24);
  }

  /** Any row that reads back as a booking line's layout decodes to that
      line, provided no reference is 0 (read back as none). */
  lemma AccountingDocumentDecode(row: Row, doc: AccountingDocument)
    requires RowReadsBack(row, doc.Layout()) && doc.NoZeroReference()
    ensures AccountingDocument.FromRow(row) == Success(doc)
  {
    AccountingDocumentValues(row, doc);
    AccountingDocumentReferenceColumns(row, doc);
    AccountingDocumentOrderColumns(row, doc);
    AccountingDocumentTexts(row, doc);
    AccountingDocumentTrailingTexts(row, doc);
    AccountingDocumentColumns(row, doc);
  }

  lemma AccountingDocumentValues(row: Row, doc: AccountingDocument)
    requires RowReadsBack(row, doc.Layout())
    ensures GetInt(row, 1, 1) == Success(doc.companyId) && GetInt(row, 2, 0) == Success(doc.fiscalYear)
    ensures GetInt(row, 3, 0) == Success(doc.bookingId) && GetDate(row, 4) == Success(doc.documentDate)
    ensures GetDate(row, 5) == Success(doc.bookedDate) && GetInt(row, 7, 0) == Success(doc.position)
    ensures GetInt(row, 8, 0) == Success(doc.accountNumber) && GetDecimal(row, 11) == Success(doc.amount)
  {
    var cols := doc.Layout();
    assert cols[1] == Number(doc.companyId) && cols[2] == Number(doc.fiscalYear) && cols[3] == Number(doc.bookingId);
    assert cols[4] == Dated(doc.documentDate) && cols[5] == Dated(doc.bookedDate) && cols[7] == Number(doc.position);
    assert cols[8] == Number(doc.accountNumber) && cols[11] == Amount(doc.amount);
    NumberAt(row, cols, 1, doc.companyId);
    NumberAt(row, cols, 2, doc.fiscalYear);
    NumberAt(row, cols, 3, doc.bookingId);
    DateAt(row, cols, 4, doc.documentDate);
    DateAt(row, cols, 5, doc.bookedDate);
    NumberAt(row, cols, 7, doc.position);
    NumberAt(row, cols, 8, doc.accountNumber);
    AmountAt(row, cols, 11, doc.amount);
  }

  lemma AccountingDocumentReferenceColumns(row: Row, doc: AccountingDocument)
    requires RowReadsBack(row, doc.Layout())
    requires doc.NoZeroReference()
    ensures GetRef(row, 12) == Success(doc.customerId) && GetRef(row, 14) == Success(doc.vendorId)
    ensures GetRef(row, 16) == Success(doc.assetId) && GetRef(row, 18) == Success(doc.cancelledBooking)
  {
    var cols := doc.Layout();
    assert cols[12] == Reference(doc.customerId) && cols[14] == Reference(doc.vendorId) && cols[16] == Reference(doc.assetId);
    assert cols[18] == Reference(doc.cancelledBooking);
    ReferenceAt(row, cols, 12, doc.customerId);
    ReferenceAt(row, cols, 14, doc.vendorId);
    ReferenceAt(row, cols, 16, doc.assetId);
    ReferenceAt(row, cols, 18, doc.cancelledBooking);
  }

  lemma AccountingDocumentOrderColumns(row: Row, doc: AccountingDocument)
    requires RowReadsBack(row, doc.Layout())
    requires doc.NoZeroReference()
    ensures GetRef(row, 21) == Success(doc.customerOrderId) && GetRef(row, 22) == Success(doc.travelId)
    ensures GetRef(row, 23) == Success(doc.supplierOrderId) && GetRef(row, 24) == Success(doc.paymentId)
  {
    var cols := doc.Layout();
    assert cols[21] == Reference(doc.customerOrderId) && cols[22] == Reference(doc.travelId) && cols[23] == Reference(doc.supplierOrderId);
    assert cols[24] == Reference(doc.paymentId);
    ReferenceAt(row, cols, 21, doc.customerOrderId);
    ReferenceAt(row, cols, 22, doc.travelId);
    ReferenceAt(row, cols, 23, doc.supplierOrderId);
    ReferenceAt(row, cols, 24, doc.paymentId);
  }

  lemma AccountingDocumentTexts(row: Row, doc: AccountingDocument)
    requires RowReadsBack(row, doc.Layout())
    ensures Get(row, 0) == doc.recordType && Get(row, 6) == doc.bookingText
    ensures Get(row, 9) == doc.accountName && Get(row, 10) == doc.debitCredit
    ensures Get(row, 13) == doc.customerName && Get(row, 15) == doc.vendorName
  {
    var cols := doc.Layout();
    assert cols[0] == Text(doc.recordType) && cols[6] == Text(doc.bookingText) && cols[9] == Text(doc.accountName);
    assert cols[10] == Text(doc.debitCredit) && cols[13] == Text(doc.customerName) && cols[15] == Text(doc.vendorName);
    TextAt(row, cols, 0, doc.recordType);
    TextAt(row, cols, 6, doc.bookingText);
    TextAt(row, cols, 9, doc.accountName);
    TextAt(row, cols, 10, doc.debitCredit);
    TextAt(row, cols, 13, doc.customerName);
    TextAt(row, cols, 15, doc.vendorName);
  }

  lemma AccountingDocumentTrailingTexts(row: Row, doc: AccountingDocument)
    requires RowReadsBack(row, doc.Layout())
    ensures Get(row, 17) == doc.assetName && Get(row, 19) == doc.costCenter
    ensures Get(row, 20) == doc.invoiceNumber && Get(row, 25) == doc.documentNumber
    ensures Get(row, 26) == doc.memo && Get(row, 27) == doc.user
  {
    var cols := doc.Layout();
    assert cols[17] == Text(doc.assetName) && cols[19] == Text(doc.costCenter) && cols[20] == Text(doc.invoiceNumber);
    assert cols[25] == Text(doc.documentNumber) && cols[26] == Text(doc.memo) && cols[27] == Text(doc.user);
    TextAt(row, cols, 17, doc.assetName);
    TextAt(row, cols, 19, doc.costCenter);
    TextAt(row, cols, 20, doc.invoiceNumber);
    TextAt(row, cols, 25, doc.documentNumber);
    TextAt(row, cols, 26, doc.memo);
    TextAt(row, cols, 27, doc.user);
  }

  /** Once every column reads as the line's attribute, the decoder
      builds the line. */
  lemma AccountingDocumentColumns(row: Row, doc: AccountingDocument)
    requires Get(row, 0) == doc.recordType && GetInt(row, 1, 1) == Success(doc.companyId)
    requires GetInt(row, 2, 0) == Success(doc.fiscalYear) && GetInt(row, 3, 0) == Success(doc.bookingId)
    requires GetDate(row, 4) == Success(doc.documentDate) && GetDate(row, 5) == Success(doc.bookedDate)
    requires Get(row, 6) == doc.bookingText && GetInt(row, 7, 0) == Success(doc.position)
    requires GetInt(row, 8, 0) == Success(doc.accountNumber) && Get(row, 9) == doc.accountName
    requires Get(row, 10) == doc.debitCredit && GetDecimal(row, 11) == Success(doc.amount)
    requires GetRef(row, 12) == Success(doc.customerId) && Get(row, 13) == doc.customerName
    requires GetRef(row, 14) == Success(doc.vendorId) && Get(row, 15) == doc.vendorName
    requires GetRef(row, 16) == Success(doc.assetId) && Get(row, 17) == doc.assetName
    requires GetRef(row, 18) == Success(doc.cancelledBooking) && Get(row, 19) == doc.costCenter
    requires Get(row, 20) == doc.invoiceNumber && GetRef(row, 21) == Success(doc.customerOrderId)
    requires GetRef(row, 22) == Success(doc.travelId) && GetRef(row, 23) == Success(doc.supplierOrderId)
    requires GetRef(row, 24) == Success(doc.paymentId) && Get(row, 25) == doc.documentNumber
    requires Get(row, 26) == doc.memo && Get(row, 27) == doc.user
    ensures AccountingDocument.FromRow(row) == Success(doc)
  {
  }

  /** Every booking line without a zero reference, with dates from the
      year 1000 on and a plain amount is read back from the row that lays
      it out. */
  lemma AccountingDocumentRoundTrip(doc: AccountingDocument)
    requires doc.Readable()
    ensures AccountingDocument.FromRow(Render(doc.Layout())) == Success(doc)
  {
    var cols := doc.Layout();
    RenderReadsBack(cols);
    AccountingDocumentDecode(Render(cols), doc);
  }

  // ---------------------------------------------------------------
  // Record dispatch
  // ---------------------------------------------------------------

  /** The record classes `parse_record` can produce. */
  datatype RecordKind = VendorKind | OpenItemKind | AccountingKind

  /** `RECORD_TYPES`: the tags `parse_record` knows. The vendor invoice
      tag `CMXLRN` is not among them. */
  const RecordTypes: map<string, RecordKind> :=
    map["CMXLIF" := VendorKind, "OPEN_ITEM" := OpenItemKind, "ACCDOC" := AccountingKind]

  /** A decoded record of one of the three registered classes. */
  datatype Record =
    | VendorRecord(vendor: Vendor)
    | OpenItemRecord(item: OpenItem)
    | AccountingRecord(doc: AccountingDocument)
  {
    function RecordType(): string
    {
      match this
      case VendorRecord(v) => v.recordType
      case OpenItemRecord(i) => i.recordType
      case AccountingRecord(d) => d.recordType
    }

    function Kind(): RecordKind
    {
      match this
      case VendorRecord(_) => VendorKind
      case OpenItemRecord(_) => OpenItemKind
      case AccountingRecord(_) => AccountingKind
    }
  }

  /** `parse_record`: no record for an empty row or an unknown tag,
      otherwise the decoder the tag names, whose error propagates. */
  function ParseRecord(row: Row): Result<Option<Record>, CodecError>
  {
    if row == [] || row[0] !in RecordTypes then Success(None)
    else
      match RecordTypes[row[0]]
      case VendorKind =>
        var v :- Vendor.FromRow(row);
        Success(Some(VendorRecord(v)))
      case OpenItemKind =>
        var i :- OpenItem.FromRow(row);
        Success(Some(OpenItemRecord(i)))
      case AccountingKind =>
        var d :- AccountingDocument.FromRow(row);
        Success(Some(AccountingRecord(d)))
  }

  /** No record comes back exactly for an empty row or an unregistered
      tag, such as a vendor invoice's. */
  lemma ParseRecordNone(row: Row)
    ensures ParseRecord(row) == Success(None) <==> row == [] || row[0] !in RecordTypes
    ensures row != [] && row[0] == "CMXLRN" ==> ParseRecord(row) == Success(None)
  {
  }

  /** A registered tag fails exactly when its class's decoder fails, with
      the same error. */
  lemma ParseRecordFails(row: Row)
    requires row != [] && row[0] in RecordTypes
    ensures ParseRecord(row).Failure? <==>
      match RecordTypes[row[0]]
      case VendorKind => Vendor.FromRow(row).Failure?
      case OpenItemKind => OpenItem.FromRow(row).Failure?
      case AccountingKind => AccountingDocument.FromRow(row).Failure?
  {
  }

  /** A record that comes back is of the class its tag names, and its
      record type is the tag. */
  lemma ParseRecordTag(row: Row)
    requires ParseRecord(row).Success? && ParseRecord(row).value.Some?
    ensures row != [] && row[0] in RecordTypes
    ensures ParseRecord(row).value.value.Kind() == RecordTypes[row[0]]
    ensures ParseRecord(row).value.value.RecordType() == row[0]
  {
    match RecordTypes[row[0]]
    case VendorKind =>
    case OpenItemKind =>
      OpenItemDecoded(row);
    case AccountingKind =>
      AccountingDocumentDecoded(row);
  }
}
