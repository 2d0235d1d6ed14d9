/** CSV export (utils/exportCSV.ts): ledger entries and bookings become a
    byte-order mark, a header line and one comma-separated line per
    record. A record reader in the style of RFC 4180 (quoted fields with
    doubled inner quotes) is the export's partner: reading a line back
    gives the exported values. Creating the download is outside the
    model. */
module ExportCsv {

  import opened Types
  import opened Strings

  // ---------------------------------------------------------------------
  // Quoting

  /** `replace(/"/g, '""')`. */
  function Escape(s: string): (r: string)
    ensures |r| >= |s|
    decreases |s|
  {
    if |s| == 0 then "" else (if s[0] == '"' then "\"\"" else [s[0]]) + Escape(s[1..])
  }

  /** A quoted field with inner quotes doubled. */
  function Quote(s: string): (r: string)
    ensures |r| >= 2 && r[0] == '"' && r[|r| - 1] == '"'
  {
    "\"" + Escape(s) + "\""
  }

  // ---------------------------------------------------------------------
  // Reading a record back

  /** What may follow a field: the end of the line or a comma. */
  predicate FieldEnd(rest: string) {
    |rest| == 0 || rest[0] == ','
  }

  /** The body of a quoted field, after its opening quote: the value read
      and the text after the closing quote, or `None` when the quote is
      never closed. */
  function QuotedBody(s: string): (r: Option<(string, string)>)
    ensures r.Some? ==> |r.value.1| < |s|
    decreases |s|
  {
    if |s| == 0 then None
    else if s[0] == '"' then
      if |s| >= 2 && s[1] == '"' then
        match QuotedBody(s[2..])
        case None => None
        case Some(p) => Some(("\"" + p.0, p.1))
      else Some(("", s[1..]))
    else
      match QuotedBody(s[1..])
      case None => None
      case Some(p) => Some(([s[0]] + p.0, p.1))
  }

  /** An unquoted field: everything up to the next comma. */
  function PlainField(s: string): (r: (string, string))
    ensures r.0 + r.1 == s && FieldEnd(r.1)
    decreases |s|
  {
    if |s| == 0 || s[0] == ',' then ("", s)
    else
      var p := PlainField(s[1..]);
      assert ([s[0]] + p.0) + p.1 == [s[0]] + (p.0 + p.1);
      assert s == [s[0]] + s[1..];
      ([s[0]] + p.0, p.1)
  }

  /** One field at the start of `s`, and what follows it; a quoted field
      must be followed by a comma or the end of the line. */
  function ParseField(s: string): (r: Option<(string, string)>)
    ensures r.Some? ==> |r.value.1| <= |s| && FieldEnd(r.value.1)
    ensures |s| == 0 || s[0] != '"' ==> r.Some?
  {
    if |s| > 0 && s[0] == '"' then
      match QuotedBody(s[1..])
      case Some(p) => if FieldEnd(p.1) then Some(p) else None
      case None => None
    else Some(PlainField(s))
  }

  /** The values of a comma-separated line, or `None` if it is malformed. */
  function ParseRecord(s: string): (r: Option<seq<string>>)
    ensures r.Some? ==> |r.value| > 0
    decreases |s|
  {
    match ParseField(s)
    case None => None
    case Some(p) =>
      if |p.1| == 0 then Some([p.0])
      else
        match ParseRecord(p.1[1..])
        case None => None
        case Some(vs) => Some([p.0] + vs)
  }

  /** Text that can stand unquoted in a field. */
  predicate Plain(x: string) {
    ',' !in x && '"' !in x
  }

  /** A cell as the export writes it: as it is, or quoted. */
  datatype Cell = PlainCell(text: string) | QuotedCell(text: string)

  function Render(c: Cell): string {
    match c
    case PlainCell(x) => x
    case QuotedCell(x) => Quote(x)
  }

  /** A cell the reader gives back unchanged. */
  predicate Renderable(c: Cell) {
    c.QuotedCell? || Plain(c.text)
  }

  function Rendered(cells: seq<Cell>): (r: seq<string>)
    ensures |r| == |cells|
  {
    seq(|cells|, i requires 0 <= i < |cells| => Render(cells[i]))
  }

  function Texts(cells: seq<Cell>): (r: seq<string>)
    ensures |r| == |cells|
  {
    seq(|cells|, i requires 0 <= i < |cells| => cells[i].text)
  }

  /** A line of cells joined by commas. */
  function Line(cells: seq<Cell>): string {
    Join(Rendered(cells), ",")
  }

  lemma {:induction false} QuotedBodyEscape(x: string, rest: string)
    requires FieldEnd(rest)
    ensures QuotedBody(Escape(x) + "\"" + rest) == Some((x, rest))
    decreases |x|
  {
    var s := Escape(x) + "\"" + rest;
    if |x| == 0 {
      assert s == "\"" + rest;
      assert s[1..] == rest;
      assert |s| == 1 || s[1] == ',';
    } else {
      var tail := Escape(x[1..]) + "\"" + rest;
      QuotedBodyEscape(x[1..], rest);
      assert x == [x[0]] + x[1..];
      if x[0] == '"' {
        assert s == "\"\"" + tail;
        assert s[2..] == tail;
      } else {
        assert s == [x[0]] + tail;
        assert s[1..] == tail;
      }
    }
  }

  lemma {:induction false} PlainFieldOf(x: string, rest: string)
    requires Plain(x) && FieldEnd(rest)
    ensures PlainField(x + rest) == (x, rest)
    decreases |x|
  {
    if |x| == 0 {
      assert x + rest == rest;
    } else {
      assert (x + rest)[0] == x[0];
      assert (x + rest)[1..] == x[1..] + rest;
      PlainFieldOf(x[1..], rest);
      assert [x[0]] + x[1..] == x;
    }
  }

  /** A rendered cell reads back as its text. */
  lemma ParseRendered(c: Cell, rest: string)
    requires Renderable(c) && FieldEnd(rest)
    ensures ParseField(Render(c) + rest) == Some((c.text, rest))
  {
    match c
    case PlainCell(x) =>
      PlainFieldOf(x, rest);
      if |x| > 0 {
        assert (x + rest)[0] == x[0];
      } else {
        assert x + rest == rest;
      }
    case QuotedCell(x) =>
      var s := Quote(x) + rest;
      assert s[1..] == Escape(x) + "\"" + rest;
      QuotedBodyEscape(x, rest);
  }

  /** A line of several cells is its first cell, a comma and the line of
      the others. */
  lemma LineCons(cells: seq<Cell>)
    requires |cells| > 1
    ensures Line(cells) == Render(cells[0]) + ("," + Line(cells[1..]))
  {
    var parts := Rendered(cells);
    assert parts[1..] == Rendered(cells[1..]);
    assert Line(cells) == (parts[0] + ",") + Join(parts[1..], ",");
  }

  /** A field followed by a comma and a well-formed line reads as that
      field's value in front of the line's values. */
  lemma ParseRecordCons(s: string, tail: string, v: string, vs: seq<string>)
    requires ParseField(s) == Some((v, "," + tail)) && ParseRecord(tail) == Some(vs)
    ensures ParseRecord(s) == Some([v] + vs)
  {
    assert ("," + tail)[1..] == tail;
  }

  /** The inductive step: a readable first cell in front of a line that
      reads back. */
  lemma RecordStep(cells: seq<Cell>)
    requires |cells| > 1 && Renderable(cells[0])
    requires ParseRecord(Line(cells[1..])) == Some(Texts(cells[1..]))
    ensures ParseRecord(Line(cells)) == Some(Texts(cells))
  {
    var tail := Line(cells[1..]);
    LineCons(cells);
    assert FieldEnd("," + tail);
    ParseRendered(cells[0], "," + tail);
    assert ParseField(Line(cells)) == Some((cells[0].text, "," + tail));
    ParseRecordCons(Line(cells), tail, cells[0].text, Texts(cells[1..]));
    TextsCons(cells);
  }

  lemma TextsCons(cells: seq<Cell>)
    requires |cells| > 0
    ensures Texts(cells) == [cells[0].text] + Texts(cells[1..])
  {
    assert forall i :: 0 <= i < |cells| - 1 ==> Texts(cells[1..])[i] == cells[i + 1].text;
  }

  /** Reading a written line gives back every cell's text, in order. */
  lemma {:induction false} RecordRoundTrip(cells: seq<Cell>)
    requires |cells| > 0
    requires forall i :: 0 <= i < |cells| ==> Renderable(cells[i])
    ensures ParseRecord(Line(cells)) == Some(Texts(cells))
    decreases |cells|
  {
    if |cells| == 1 {
      ParseRendered(cells[0], "");
      assert Line(cells) == Render(cells[0]) + "";
      assert Texts(cells) == [cells[0].text];
    } else {
      RecordRoundTrip(cells[1..]);
      RecordStep(cells);
    }
  }

  // ---------------------------------------------------------------------
  // The document

  /** The byte-order mark that makes spreadsheet programs read UTF-8. */
  const Bom := "\U{FEFF}"

  /** The mark, the header line and the record lines, joined by newlines. */
  function Document(header: seq<string>, lines: seq<string>): string {
    Bom + Join([Join(header, ",")] + lines, "\n")
  }

  lemma {:induction false} JoinAppend(parts: seq<string>, x: string, sep: string)
    requires |parts| > 0
    ensures Join(parts + [x], sep) == Join(parts, sep) + sep + x
    decreases |parts|
  {
    if |parts| == 1 {
      assert (parts + [x])[1..] == [x];
    } else {
      assert (parts + [x])[1..] == parts[1..] + [x];
      JoinAppend(parts[1..], x, sep);
    }
  }

  /** Each record adds exactly one line at the end; with no records the
      document is the mark and the header line. */
  lemma DocumentGrows(header: seq<string>, lines: seq<string>, line: string)
    ensures Document(header, []) == Bom + Join(header, ",")
    ensures Document(header, lines + [line]) == Document(header, lines) + "\n" + line
  {
    assert [Join(header, ",")] + [] == [Join(header, ",")];
    assert [Join(header, ",")] + (lines + [line]) == ([Join(header, ",")] + lines) + [line];
    JoinAppend([Join(header, ",")] + lines, line, "\n");
  }

  // ---------------------------------------------------------------------
  // Ledger entries

  const TransactionHeaders: seq<string> := [
    "วันที่", "ประเภท", "หมวดหมู่", "จำนวนเงิน", "รายละเอียด",
    "สถานะกระทบยอด", "ชื่อแขก", "เลขบัตรประชาชน", "เบอร์โทร", "ประเภทลูกค้า"
  ]

  function TypeLabel(ty: TransactionType): string {
    if ty == Income then "รายรับ" else "รายจ่าย"
  }

  function ReconcileLabel(reconciled: bool): string {
    if reconciled then "กระทบยอดแล้ว" else "รอกระทบยอด"
  }

  /** The guest's Thai first and last name. */
  function GuestName(g: GuestData): string {
    g.firstNameTH + " " + g.lastNameTH
  }

  function GuestNameOf(t: Transaction): string {
    if t.guestData.Some? then GuestName(t.guestData.value) else ""
  }

  function IdNumberOf(t: Transaction): string {
    if t.guestData.Some? then t.guestData.value.idNumber else ""
  }

  function PhoneOf(t: Transaction): string {
    if t.guestData.Some? then t.guestData.value.phone.GetOr("") else ""
  }

  function CustomerTypeOf(t: Transaction): string {
    if t.customerType.Some? then CustomerTypeLabel(t.customerType.value) else ""
  }

  /** The guest cell: the quoted name when there is a guest, else empty. */
  function GuestCell(t: Transaction): Cell {
    if t.guestData.Some? then QuotedCell(GuestNameOf(t)) else PlainCell("")
  }

  /** An entry's ten cells, one under each header. */
  function TransactionCells(t: Transaction): (r: seq<Cell>)
    ensures |r| == |TransactionHeaders|
  {
    [PlainCell(t.date), PlainCell(TypeLabel(t.txType)), PlainCell(CategoryLabel(t.category)),
     PlainCell(IntToString(t.amount)), QuotedCell(t.description), PlainCell(ReconcileLabel(t.isReconciled)),
     GuestCell(t), PlainCell(IdNumberOf(t)), PlainCell(PhoneOf(t)), PlainCell(CustomerTypeOf(t))]
  }

  /** An entry's line, with the guest name quoted and its quotes doubled. */
  function TransactionRow(t: Transaction): string {
    Line(TransactionCells(t))
  }

  /** The values an entry's line carries, in header order. */
  function TransactionValues(t: Transaction): (r: seq<string>)
    ensures |r| == |TransactionHeaders|
  {
    [t.date, TypeLabel(t.txType), CategoryLabel(t.category), IntToString(t.amount), t.description,
     ReconcileLabel(t.isReconciled), GuestNameOf(t), IdNumberOf(t), PhoneOf(t), CustomerTypeOf(t)]
  }

  lemma {:induction false} NatToStringPlain(n: nat)
    ensures Plain(NatToString(n))
  {
    var s := NatToString(n);
    forall i | 0 <= i < |s|
      ensures s[i] != ',' && s[i] != '"'
    {
      assert IsDigit(s[i]);
    }
  }

  lemma IntToStringPlain(n: int)
    ensures Plain(IntToString(n))
  {
    if n < 0 {
      NatToStringPlain(-n);
      assert IntToString(n)[1..] == NatToString(-n);
    } else {
      NatToStringPlain(n);
    }
  }

  lemma TypeLabelPlain(ty: TransactionType)
    ensures Plain(TypeLabel(ty))
  {
  }

  lemma ReconcileLabelPlain(reconciled: bool)
    ensures Plain(ReconcileLabel(reconciled))
  {
  }

  lemma RoomRevenueLabelPlain()
    ensures Plain(CategoryLabel(RoomRevenue))
  {
  }

  lemma FoodBeverageLabelPlain()
    ensures Plain(CategoryLabel(FoodBeverage))
  {
  }

  lemma SpaServiceLabelPlain()
    ensures Plain(CategoryLabel(SpaService))
  {
  }

  lemma OtherIncomeLabelPlain()
    ensures Plain(CategoryLabel(OtherIncome))
  {
  }

  lemma UtilitiesLabelPlain()
    ensures Plain(CategoryLabel(Utilities))
  {
  }

  lemma StaffSalaryLabelPlain()
    ensures Plain(CategoryLabel(StaffSalary))
  {
  }

  lemma MarketingLabelPlain()
    ensures Plain(CategoryLabel(Marketing))
  {
  }

  lemma MaintenanceLabelPlain()
    ensures Plain(CategoryLabel(Maintenance))
  {
  }

  lemma SuppliesLabelPlain()
    ensures Plain(CategoryLabel(Supplies))
  {
  }

  lemma TaxFeeLabelPlain()
    ensures Plain(CategoryLabel(TaxFee))
  {
  }

  lemma SoftwareSubscriptionLabelPlain()
    ensures Plain(CategoryLabel(SoftwareSubscription))
  {
  }

  lemma OfficeSuppliesLabelPlain()
    ensures Plain(CategoryLabel(OfficeSupplies))
  {
  }

  lemma CleaningSuppliesLabelPlain()
    ensures Plain(CategoryLabel(CleaningSupplies))
  {
  }

  /** No category string holds a comma or a quote. */
  lemma CategoryLabelPlain(c: Category)
    ensures Plain(CategoryLabel(c))
  {
    match c
    case RoomRevenue => RoomRevenueLabelPlain();
    case FoodBeverage => FoodBeverageLabelPlain();
    case SpaService => SpaServiceLabelPlain();
    case OtherIncome => OtherIncomeLabelPlain();
    case Utilities => UtilitiesLabelPlain();
    case StaffSalary => StaffSalaryLabelPlain();
    case Marketing => MarketingLabelPlain();
    case Maintenance => MaintenanceLabelPlain();
    case Supplies => SuppliesLabelPlain();
    case TaxFee => TaxFeeLabelPlain();
    case SoftwareSubscription => SoftwareSubscriptionLabelPlain();
    case OfficeSupplies => OfficeSuppliesLabelPlain();
    case CleaningSupplies => CleaningSuppliesLabelPlain();
  }

  /** Reading an entry's line back gives its values, provided the fields
      written unquoted hold no comma or quote. */
  lemma TransactionRowRoundTrip(t: Transaction)
    requires Plain(t.date) && Plain(IdNumberOf(t)) && Plain(PhoneOf(t)) && Plain(CustomerTypeOf(t))
    ensures ParseRecord(TransactionRow(t)) == Some(TransactionValues(t))
  {
    var cells := TransactionCells(t);
    TypeLabelPlain(t.txType);
    ReconcileLabelPlain(t.isReconciled);
    CategoryLabelPlain(t.category);
    IntToStringPlain(t.amount);
    assert Plain("");
    assert forall i :: 0 <= i < |cells| ==> Renderable(cells[i]);
    RecordRoundTrip(cells);
    assert Texts(cells) == TransactionValues(t);
  }

  /** `exportToCSV`: the document the download holds. */
  function ExportTransactions(ts: seq<Transaction>): (r: string)
    ensures IsPrefix(Bom, r)
  {
    Document(TransactionHeaders, seq(|ts|, i requires 0 <= i < |ts| => TransactionRow(ts[i])))
  }

  /** With no entries only the header is written, and each further entry
      adds its own line at the end. */
  lemma ExportTransactionsGrows(ts: seq<Transaction>, t: Transaction)
    ensures ExportTransactions([]) == Bom + Join(TransactionHeaders, ",")
    ensures ExportTransactions(ts + [t]) == ExportTransactions(ts) + "\n" + TransactionRow(t)
  {
    var lines := seq(|ts|, i requires 0 <= i < |ts| => TransactionRow(ts[i]));
    var more := ts + [t];
    assert seq(|more|, i requires 0 <= i < |more| => TransactionRow(more[i])) == lines + [TransactionRow(t)];
    DocumentGrows(TransactionHeaders, lines, TransactionRow(t));
  }

  // ---------------------------------------------------------------------
  // Bookings

  const BookingHeaders: seq<string> := [
    "รหัสการจอง", "ชื่อแขก", "เลขห้อง", "วันเข้าพัก", "วันออก", "ยอดเงิน", "สถานะ"
  ]

  lemma StatusLabelPlain(st: BookingStatus)
    ensures Plain(StatusLabel(st))
  {
  }

  /** A booking's seven cells, the guest name quoted with its quotes
      doubled. */
  function BookingCells(b: Booking): (r: seq<Cell>)
    ensures |r| == |BookingHeaders|
  {
    [PlainCell(b.id), QuotedCell(b.guestName), PlainCell(b.roomNumber), PlainCell(b.checkIn),
     PlainCell(b.checkOut), PlainCell(IntToString(b.totalAmount)), PlainCell(StatusLabel(b.status))]
  }

  function BookingRow(b: Booking): string {
    Line(BookingCells(b))
  }

  /** Reading a booking's line back gives its id, guest, room, dates,
      amount and status, provided the unquoted fields hold no comma or
      quote. */
  lemma BookingRowRoundTrip(b: Booking)
    requires Plain(b.id) && Plain(b.roomNumber) && Plain(b.checkIn) && Plain(b.checkOut)
    ensures ParseRecord(BookingRow(b)) ==
      Some([b.id, b.guestName, b.roomNumber, b.checkIn, b.checkOut, IntToString(b.totalAmount), StatusLabel(b.status)])
  {
    var cells := BookingCells(b);
    IntToStringPlain(b.totalAmount);
    StatusLabelPlain(b.status);
    assert forall i :: 0 <= i < |cells| ==> Renderable(cells[i]);
    RecordRoundTrip(cells);
    assert Texts(cells) == [b.id, b.guestName, b.roomNumber, b.checkIn, b.checkOut,
                            IntToString(b.totalAmount), StatusLabel(b.status)];
  }

  /** `exportBookingsToCSV`: the document the download holds. */
  function ExportBookings(bs: seq<Booking>): (r: string)
    ensures IsPrefix(Bom, r)
  {
    Document(BookingHeaders, seq(|bs|, i requires 0 <= i < |bs| => BookingRow(bs[i])))
  }

  lemma ExportBookingsGrows(bs: seq<Booking>, b: Booking)
    ensures ExportBookings([]) == Bom + Join(BookingHeaders, ",")
    ensures ExportBookings(bs + [b]) == ExportBookings(bs) + "\n" + BookingRow(b)
  {
    var lines := seq(|bs|, i requires 0 <= i < |bs| => BookingRow(bs[i]));
    var more := bs + [b];
    assert seq(|more|, i requires 0 <= i < |more| => BookingRow(more[i])) == lines + [BookingRow(b)];
    DocumentGrows(BookingHeaders, lines, BookingRow(b));
  }

  // ---------------------------------------------------------------------
  // The guest-name cells as written

  /** The guest-name cells as the export writes them: the name between
      quotes, with quotes inside it left single. */
  function WrapAsWritten(s: string): (r: string)
    ensures |r| == |s| + 2 && r[0] == '"' && r[|r| - 1] == '"'
  {
    "\"" + s + "\""
  }

  /** A name holding a quote makes the written cell unreadable, where the
      doubled form reads back as the name. */
  lemma WrapBreaks()
    ensures ParseField(WrapAsWritten("a\" ")) == None
    ensures ParseField(Quote("a\" ")) == Some(("a\" ", ""))
  {
    var s := WrapAsWritten("a\" ");
    assert s[1..] == "a\" \"";
    assert "a\" \""[1..] == "\" \"";
    assert QuotedBody("\" \"") == Some(("", " \"")) by {
      assert "\" \""[1..] == " \"";
    }
    assert ['a'] + "" == "a";
    assert QuotedBody(s[1..]) == Some(("a", " \""));
    ParseRendered(QuotedCell("a\" "), "");
    assert Quote("a\" ") + "" == Quote("a\" ");
  }

  /** The transaction guest cell as written, for an entry with a guest. */
  function GuestCellAsWritten(g: GuestData): (r: string)
    ensures r == WrapAsWritten(GuestName(g))
  {
    WrapAsWritten(GuestName(g))
  }

  /** A guest whose first name ends in a quote: the written cell cannot
      be read back. */
  lemma GuestCellBreaks(g: GuestData)
    requires g.firstNameTH == "a\"" && g.lastNameTH == ""
    ensures ParseField(GuestCellAsWritten(g)) == None
    ensures ParseField(Render(QuotedCell(GuestName(g)))) == Some((GuestName(g), ""))
  {
    assert GuestName(g) == "a\" ";
    WrapBreaks();
  }

  /** The booking guest cell as written. */
  function BookingNameCellAsWritten(b: Booking): (r: string)
    ensures r == WrapAsWritten(b.guestName)
  {
    WrapAsWritten(b.guestName)
  }

  lemma BookingNameCellBreaks(b: Booking)
    requires b.guestName == "a\" "
    ensures ParseField(BookingNameCellAsWritten(b)) == None
    ensures ParseField(Render(BookingCells(b)[1])) == Some((b.guestName, ""))
  {
    WrapBreaks();
  }

  /** For names without quotes the written cells and the doubled ones
      agree, so the correction changes nothing else. */
  lemma {:induction false} EscapeNoQuote(s: string)
    requires forall i :: 0 <= i < |s| ==> s[i] != '"'
    ensures Escape(s) == s
    ensures WrapAsWritten(s) == Quote(s)
    decreases |s|
  {
    if |s| > 0 {
      EscapeNoQuote(s[1..]);
      assert s == [s[0]] + s[1..];
    }
  }
}
