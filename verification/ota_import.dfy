/** The bulk importer of OTA booking spreadsheets (components/OTAImport.tsx):
    a row is read through chains of column synonyms, normalised and priced
    from the room catalogue, and a sheet is split into bookings and
    per-row errors. Spreadsheet decoding, the serial-date decoder and
    free-form date parsing are parameters. A serial date the decoder cannot
    read throws, and the throw abandons the whole sheet. */
module OtaImport {

  import opened Types
  import opened Strings
  import opened Rooms

  /** A decoded spreadsheet cell: text, an (integral) number or a date. */
  datatype Cell = Text(s: string) | Number(n: int) | Instant(d: CalendarDate)

  /** A sheet row: column header to cell; absent columns are missing keys. */
  type Row = map<string, Cell>

  /** JavaScript truthiness of a looked-up cell: an absent cell, an empty
      string and zero are falsy; a date object is truthy. */
  predicate Truthy(c: Option<Cell>) {
    match c
    case None => false
    case Some(Text(s)) => s != ""
    case Some(Number(n)) => n != 0
    case Some(Instant(_)) => true
  }

  function Lookup(row: Row, key: string): Option<Cell> {
    if key in row then Some(row[key]) else None
  }

  /** Index of the first column of `keys` holding a truthy cell, or -1:
      the value of `row[k0] || row[k1] || ...`. */
  function FirstTruthyIndex(row: Row, keys: seq<string>): (k: int)
    ensures -1 <= k < |keys|
    ensures k == -1 <==> forall i :: 0 <= i < |keys| ==> !Truthy(Lookup(row, keys[i]))
    ensures k >= 0 ==> Truthy(Lookup(row, keys[k])) && forall i :: 0 <= i < k ==> !Truthy(Lookup(row, keys[i]))
    decreases |keys|
  {
    if |keys| == 0 then -1
    else if Truthy(Lookup(row, keys[0])) then 0
    else
      var k := FirstTruthyIndex(row, keys[1..]);
      if k == -1 then -1 else k + 1
  }

  /** `row[k0] || row[k1] || ...`: the first truthy cell, if any. */
  function FirstTruthy(row: Row, keys: seq<string>): (r: Option<Cell>)
    ensures r.None? <==> forall i :: 0 <= i < |keys| ==> !Truthy(Lookup(row, keys[i]))
    ensures r.Some? ==> Truthy(r)
    ensures r.Some? ==> exists k :: (0 <= k < |keys| && r == Lookup(row, keys[k]) &&
      forall i :: 0 <= i < k ==> !Truthy(Lookup(row, keys[i])))
  {
    var k := FirstTruthyIndex(row, keys);
    if k == -1 then None else Lookup(row, keys[k])
  }

  // Column synonyms, in the order they are tried.
  const GuestKeys: seq<string> := ["Guest Name", "ชื่อแขก"]
  const RoomKeys: seq<string> := ["Room", "Room Number", "ห้อง"]
  const CheckInKeys: seq<string> := ["Check In Date", "Check In", "เข้าพัก"]
  const CheckOutKeys: seq<string> := ["Check Out Date", "Check Out", "ออก"]
  const PhoneKeys: seq<string> := ["Phone", "เบอร์โทร"]
  const ConfirmationKeys: seq<string> := ["Confirmation Number", "เลขยืนยัน"]
  const ChannelKeys: seq<string> := ["Channel", "ช่องทาง"]
  const AmountKeys: seq<string> := ["Total", "Total Amount", "Payment Total", "ยอดรวม", "ยอดชำระ"]

  /** What the importer cannot compute itself. */
  datatype DateSources = DateSources(
    today: CalendarDate,                     // the current UTC date
    fromSerial: int -> Option<CalendarDate>, // the spreadsheet serial-date decoder, None when it finds no date
    fromValue: Cell -> Option<CalendarDate>, // `new Date(value)`, None when invalid
    dateText: CalendarDate -> string,        // `String(date)` for a date cell
    serialFailure: string)                   // the message of the error reading the year of no date throws

  /** A truthy number the serial decoder finds no date for: reading the
      year of the missing date throws. */
  predicate SerialFails(env: DateSources, v: Option<Cell>) {
    v.Some? && v.value.Number? && v.value.n != 0 && env.fromSerial(v.value.n).None?
  }

  /** `toISOString().split('T')[0]` of a date. */
  function IsoText(d: CalendarDate): (r: string)
    ensures |r| >= 10
  {
    PadZeros(NatToString(d.year), 4) + "-" + PadZeros(NatToString(d.month), 2) + "-" + PadZeros(NatToString(d.day), 2)
  }

  /** The template string built from a decoded serial date. */
  function SerialText(d: CalendarDate): (r: string)
    ensures |r| >= 7
  {
    NatToString(d.year) + "-" + PadZeros(NatToString(d.month), 2) + "-" + PadZeros(NatToString(d.day), 2)
  }

  /** `new Date(value)` as an ISO date, or today when it is invalid. */
  function FreeFormDate(env: DateSources, c: Cell): string {
    match env.fromValue(c) case Some(d) => IsoText(d) case None => IsoText(env.today)
  }

  /** `parseDate`: a falsy value is today; text already shaped `YYYY-MM-DD`
      is kept as it is; a number is a serial date, and throws (`None`) when
      the decoder finds none; anything else goes through the free-form
      parser, falling back to today. */
  function ParseDate(env: DateSources, v: Option<Cell>): (r: Option<string>)
    ensures r.None? <==> SerialFails(env, v)
    ensures r.Some? ==> |r.value| > 0
    ensures !Truthy(v) ==> r == Some(IsoText(env.today))
    ensures v.Some? && v.value.Text? && IsIsoDateShape(v.value.s) ==> r == Some(v.value.s)
  {
    if !Truthy(v) then Some(IsoText(env.today))
    else match v.value
      case Text(s) => Some(if IsIsoDateShape(s) then s else FreeFormDate(env, v.value))
      case Number(n) => (match env.fromSerial(n) case Some(d) => Some(SerialText(d)) case None => None)
      case Instant(_) => Some(FreeFormDate(env, v.value))
  }

  /** `String(value)` of a cell. */
  function CellString(env: DateSources, c: Cell): string {
    match c
    case Text(s) => s
    case Number(n) => IntToString(n)
    case Instant(d) => env.dateText(d)
  }

  /** A truthy cell never spells the empty string. */
  lemma TruthyNonEmpty(env: DateSources, c: Cell)
    requires Truthy(Some(c)) && (c.Instant? ==> env.dateText(c.d) != "")
    ensures CellString(env, c) != ""
  {
  }

  /** The first truthy cell of a chain as text, or `fallback`. */
  function ChainText(env: DateSources, row: Row, keys: seq<string>, fallback: string): string {
    match FirstTruthy(row, keys)
    case Some(c) => CellString(env, c)
    case None => fallback
  }

  /** The amount a cell stands for: a number is itself; any other cell
      kind is treated as not a number. */
  function CellAmount(c: Cell): Num {
    match c
    case Number(n) => Val(n)
    case _ => NaN
  }

  /** A booking as the importer builds it: the booking fields plus the
      pricing and channel details the booking record does not declare. */
  datatype ImportedBooking = ImportedBooking(
    guestName: string,
    roomNumber: string,
    checkIn: string,
    checkOut: string,
    totalAmount: Num,
    nights: Num,
    pricePerNight: int,
    depositAmount: Num,
    paymentStatus: string,
    otaChannel: string,
    confirmationNumber: string,
    guestDetails: GuestData)

  /** The normalised room number: upper-cased, then trimmed. */
  function RoomOf(env: DateSources, row: Row): string {
    Trim(Upper(ChainText(env, row, RoomKeys, "")))
  }

  /** The guest name, or empty. */
  function GuestOf(env: DateSources, row: Row): string {
    ChainText(env, row, GuestKeys, "")
  }

  /** The stated amount, or the catalogue price of the stay. */
  function AmountOf(row: Row, room: string, checkIn: string, checkOut: string): (r: Num)
    ensures FirstTruthy(row, AmountKeys).None? ==> r == CalculateTotalAmount(room, checkIn, checkOut)
    ensures FirstTruthy(row, AmountKeys).Some? ==> r == CellAmount(FirstTruthy(row, AmountKeys).value)
  {
    match FirstTruthy(row, AmountKeys)
    case Some(c) => CellAmount(c)
    case None => CalculateTotalAmount(room, checkIn, checkOut)
  }

  /** What parsing one row gives: a result, a rejection for a missing
      field, or an error thrown out of the date decoding. */
  datatype RowResult<B> = Parsed(value: B) | Incomplete | Aborted

  /** `parseBookingRow`: the dates are decoded first, so an undecodable
      serial date throws whatever else the row holds; otherwise a row is
      rejected exactly when it names no guest or its normalised room number
      is empty, and every field is the first truthy synonym, with the
      documented defaults. */
  function ParseBookingRow(env: DateSources, row: Row): (r: RowResult<ImportedBooking>)
    ensures r.Aborted? <==>
      SerialFails(env, FirstTruthy(row, CheckInKeys)) || SerialFails(env, FirstTruthy(row, CheckOutKeys))
    ensures r.Incomplete? <==> !r.Aborted? && (FirstTruthy(row, GuestKeys).None? || RoomOf(env, row) == "")
    ensures r.Parsed? ==>
      var b := r.value;
      && b.guestName == GuestOf(env, row)
      && b.roomNumber == RoomOf(env, row)
      && Some(b.checkIn) == ParseDate(env, FirstTruthy(row, CheckInKeys))
      && Some(b.checkOut) == ParseDate(env, FirstTruthy(row, CheckOutKeys))
      && b.totalAmount == AmountOf(row, b.roomNumber, b.checkIn, b.checkOut)
      && b.depositAmount == CalculateDeposit(b.totalAmount)
      && b.nights == CalculateNights(b.checkIn, b.checkOut)
      && b.pricePerNight == (match GetRoomTypeByNumber(b.roomNumber) case Some(t) => t.pricePerNight case None => 0)
      && b.paymentStatus == "unpaid"
      && b.otaChannel == ChainText(env, row, ChannelKeys, "OTA")
      && b.confirmationNumber == ChainText(env, row, ConfirmationKeys, "")
      && b.guestDetails == NameOnlyGuest(b.guestName, ChainText(env, row, PhoneKeys, ""), Some(Unlisted("BOOKING")))
  {
    var guestCell := FirstTruthy(row, GuestKeys);
    var guestName := GuestOf(env, row);
    var roomNumber := RoomOf(env, row);
    var checkIn := ParseDate(env, FirstTruthy(row, CheckInKeys));
    var checkOut := ParseDate(env, FirstTruthy(row, CheckOutKeys));
    var phone := ChainText(env, row, PhoneKeys, "");
    var confirmation := ChainText(env, row, ConfirmationKeys, "");
    var channel := ChainText(env, row, ChannelKeys, "OTA");
    if checkIn.None? || checkOut.None? then Aborted
    else if guestCell.None? || roomNumber == "" then Incomplete
    else
      var total := AmountOf(row, roomNumber, checkIn.value, checkOut.value);
      var price := match GetRoomTypeByNumber(roomNumber) case Some(t) => t.pricePerNight case None => 0;
      Parsed(ImportedBooking(guestName, roomNumber, checkIn.value, checkOut.value, total,
                             CalculateNights(checkIn.value, checkOut.value), price, CalculateDeposit(total),
                             "unpaid", channel, confirmation,
                             NameOnlyGuest(guestName, phone, Some(Unlisted("BOOKING")))))
  }

  /** Missing or unreadable dates never reject a row: a row with a guest
      and a room is accepted unless one of its serial dates cannot be
      decoded, and a missing check-in becomes today. */
  lemma DatesNeverReject(env: DateSources, row: Row)
    requires FirstTruthy(row, GuestKeys).Some? && RoomOf(env, row) != ""
    ensures !ParseBookingRow(env, row).Incomplete?
    ensures ParseBookingRow(env, row).Parsed? <==>
      !SerialFails(env, FirstTruthy(row, CheckInKeys)) && !SerialFails(env, FirstTruthy(row, CheckOutKeys))
    ensures ParseBookingRow(env, row).Parsed? && FirstTruthy(row, CheckInKeys).None? ==>
      ParseBookingRow(env, row).value.checkIn == IsoText(env.today)
  {
  }

  /** An explicit amount of zero counts as no amount: the stay and its
      deposit are priced from the catalogue. */
  lemma ZeroAmountFallsBack(env: DateSources, row: Row)
    requires !SerialFails(env, FirstTruthy(row, CheckInKeys)) && !SerialFails(env, FirstTruthy(row, CheckOutKeys))
    requires FirstTruthy(row, GuestKeys).Some? && RoomOf(env, row) != ""
    requires forall i :: 0 <= i < |AmountKeys| ==> Lookup(row, AmountKeys[i]) in {None, Some(Number(0))}
    ensures var b := ParseBookingRow(env, row).value;
      && b.totalAmount == CalculateTotalAmount(b.roomNumber, b.checkIn, b.checkOut)
      && b.depositAmount == CalculateDeposit(CalculateTotalAmount(b.roomNumber, b.checkIn, b.checkOut))
  {
    NoStatedAmount(row);
  }

  lemma NoStatedAmount(row: Row)
    requires forall i :: 0 <= i < |AmountKeys| ==> Lookup(row, AmountKeys[i]) in {None, Some(Number(0))}
    ensures FirstTruthy(row, AmountKeys).None?
  {
    forall i | 0 <= i < |AmountKeys| ensures !Truthy(Lookup(row, AmountKeys[i])) {
      assert Lookup(row, AmountKeys[i]) in {None, Some(Number(0))};
    }
  }

  /** A row naming a guest whose room is typed " v1 " is accepted with
      room "V1" at the villa price. */
  lemma RoomNormalised(env: DateSources, row: Row)
    requires FirstTruthy(row, GuestKeys).Some?
    requires Lookup(row, "Room") == Some(Text(" v1 "))
    ensures !ParseBookingRow(env, row).Incomplete?
    ensures ParseBookingRow(env, row).Parsed? ==> ParseBookingRow(env, row).value.roomNumber == "V1"
    ensures ParseBookingRow(env, row).Parsed? ==> ParseBookingRow(env, row).value.pricePerNight == 6000
  {
    NormaliseVilla(env, row);
    CatalogPrices();
  }

  lemma NormaliseVilla(env: DateSources, row: Row)
    requires Lookup(row, "Room") == Some(Text(" v1 "))
    ensures RoomOf(env, row) == "V1"
  {
    assert FirstTruthyIndex(row, RoomKeys) == 0;
    var up := Upper(" v1 ");
    assert up == " " + "V1" + " " by {
      assert up[0] == ' ' && up[1] == 'V' && up[2] == '1' && up[3] == ' ';
    }
    TrimPadded("V1");
  }

  // ---------------------------------------------------------------------
  // The sheet

  const LabelPrefix: string := "แถวที่ "
  const LabelSuffix: string := ": ข้อมูลไม่ครบถ้วน"

  /** The error recorded for the row at 0-based index `i`: sheet rows are
      numbered from 2, below the header row. */
  function ErrorLabel(i: nat): string {
    LabelPrefix + NatToString(i + 2) + LabelSuffix
  }

  /** The sheet row number a label names: the digits after the prefix. */
  function RowNumberOf(text: string): Option<nat> {
    if IsPrefix(LabelPrefix, text) then
      var d := LeadingDigits(text[|LabelPrefix|..]);
      if |d| == 0 then None else Some(DigitsValue(d))
    else None
  }

  /** A label names the sheet row it was made for. */
  lemma LabelReadsBack(i: nat)
    ensures RowNumberOf(ErrorLabel(i)) == Some(i + 2)
  {
    var a := NatToString(i + 2);
    var l := ErrorLabel(i);
    assert l == LabelPrefix + (a + LabelSuffix);
    assert l[..|LabelPrefix|] == LabelPrefix;
    assert l[|LabelPrefix|..] == a + LabelSuffix;
    assert LabelSuffix[0] == ':';
    LeadingDigitsBefore(a, LabelSuffix);
    NatToStringRoundTrip(i + 2);
  }

  /** The results a row parser accepts, in row order. */
  function Accepted<R, B>(parse: R -> RowResult<B>, rows: seq<R>): seq<B>
    decreases |rows|
  {
    if |rows| == 0 then []
    else
      Accepted(parse, rows[..|rows| - 1])
        + match parse(rows[|rows| - 1]) case Parsed(b) => [b] case _ => []
  }

  /** The 0-based indices of the rows a parser rejects, in row order. */
  function Rejected<R, B>(parse: R -> RowResult<B>, rows: seq<R>): seq<nat>
    decreases |rows|
  {
    if |rows| == 0 then []
    else
      Rejected(parse, rows[..|rows| - 1])
        + if parse(rows[|rows| - 1]).Incomplete? then [|rows| - 1] else []
  }

  /** No row throws. */
  predicate NoAbort<R, B>(parse: R -> RowResult<B>, rows: seq<R>) {
    forall i :: 0 <= i < |rows| ==> !parse(rows[i]).Aborted?
  }

  /** One label per rejected row, naming its sheet row. */
  function Labels(rejected: seq<nat>): (r: seq<string>)
    ensures |r| == |rejected|
    ensures forall k :: 0 <= k < |r| ==> r[k] == ErrorLabel(rejected[k])
    ensures forall k :: 0 <= k < |r| ==> RowNumberOf(r[k]) == Some(rejected[k] + 2)
  {
    forall k | 0 <= k < |rejected|
      ensures RowNumberOf(ErrorLabel(rejected[k])) == Some(rejected[k] + 2)
    {
      LabelReadsBack(rejected[k]);
    }
    seq(|rejected|, k requires 0 <= k < |rejected| => ErrorLabel(rejected[k]))
  }

  /** When no row throws, every row yields exactly one result or one
      rejection. */
  lemma {:induction false} PartitionCount<R, B>(parse: R -> RowResult<B>, rows: seq<R>)
    ensures NoAbort(parse, rows) ==> |Accepted(parse, rows)| + |Rejected(parse, rows)| == |rows|
    decreases |rows|
  {
    if |rows| > 0 && NoAbort(parse, rows) {
      var init := rows[..|rows| - 1];
      assert forall i :: 0 <= i < |init| ==> init[i] == rows[i];
      PartitionCount(parse, init);
    }
  }

  /** The rejections are exactly the rows the parser finds incomplete,
      listed in increasing order. */
  lemma {:induction false} RejectedExactly<R, B>(parse: R -> RowResult<B>, rows: seq<R>)
    ensures forall i: nat :: i in Rejected(parse, rows) <==> i < |rows| && parse(rows[i]).Incomplete?
    ensures forall j, k :: 0 <= j < k < |Rejected(parse, rows)| ==> Rejected(parse, rows)[j] < Rejected(parse, rows)[k]
    decreases |rows|
  {
    if |rows| > 0 {
      var init := rows[..|rows| - 1];
      RejectedExactly(parse, init);
      assert forall i :: 0 <= i < |init| ==> init[i] == rows[i];
      var before := Rejected(parse, init);
      assert forall j :: 0 <= j < |before| ==> before[j] in before;
    }
  }

  /** Every accepted result comes from some row of the sheet. */
  lemma {:induction false} AcceptedFromRows<R, B>(parse: R -> RowResult<B>, rows: seq<R>)
    ensures forall b :: b in Accepted(parse, rows) ==> exists i :: 0 <= i < |rows| && parse(rows[i]) == Parsed(b)
    decreases |rows|
  {
    if |rows| > 0 {
      var init := rows[..|rows| - 1];
      AcceptedFromRows(parse, init);
      assert forall i :: 0 <= i < |init| ==> init[i] == rows[i];
    }
  }

  /** Distinct rows get distinct labels. */
  lemma LabelInjective(i: nat, j: nat)
    requires ErrorLabel(i) == ErrorLabel(j)
    ensures i == j
  {
    LabelReadsBack(i);
    LabelReadsBack(j);
  }

  /** How the sheet is reported. */
  datatype ErrorReport =
    | NoErrors
    | Listed(message: string)   // fewer than five errors, each named
    | CountOnly(message: string) // five or more, counted

  datatype ImportOutcome =
    | EmptySheet                  // the sheet has no data rows
    | ReadFailed(message: string) // a row threw: the file is reported unreadable
    | NoValidBookings             // every row was rejected: no preview
    | Preview(bookings: seq<ImportedBooking>, report: ErrorReport, success: string)

  function Report(errors: seq<string>): (r: ErrorReport)
    ensures r.NoErrors? <==> |errors| == 0
    ensures r.Listed? <==> 0 < |errors| < 5
    ensures r.CountOnly? <==> |errors| >= 5
  {
    if |errors| == 0 then NoErrors
    else if |errors| < 5 then Listed("พบข้อผิดพลาด: " + Join(errors, ", "))
    else CountOnly("พบข้อผิดพลาด " + NatToString(|errors|) + " รายการ")
  }

  /** The row-partition loop of `handleFileUpload`: each row, in order,
      yields a result or the index of a rejected row, and the first row
      that throws abandons the loop. */
  method PartitionRows<R, B>(parse: R -> RowResult<B>, rows: seq<R>)
    returns (aborted: bool, accepted: seq<B>, rejected: seq<nat>)
    ensures aborted <==> !NoAbort(parse, rows)
    ensures !aborted ==> accepted == Accepted(parse, rows) && rejected == Rejected(parse, rows)
    ensures !aborted ==> |accepted| + |rejected| == |rows|
  {
    aborted := false;
    accepted := [];
    rejected := [];
    var i := 0;
    while i < |rows|
      invariant 0 <= i <= |rows|
      invariant forall j :: 0 <= j < i ==> !parse(rows[j]).Aborted?
      invariant accepted == Accepted(parse, rows[..i]) && rejected == Rejected(parse, rows[..i])
    {
      assert rows[..i + 1][..i] == rows[..i];
      var parsed := parse(rows[i]);
      if parsed.Aborted? {
        aborted := true;
        return;
      } else if parsed.Parsed? {
        accepted := accepted + [parsed.value];
      } else {
        rejected := rejected + [i];
      }
      i := i + 1;
    }
    assert rows[..|rows|] == rows;
    PartitionCount(parse, rows);
  }

  /** What `handleFileUpload` reports for a sheet whose rows were
      partitioned without a throw. */
  function Outcome(rows: nat, bookings: seq<ImportedBooking>, errors: seq<string>): (r: ImportOutcome)
    ensures r.EmptySheet? <==> rows == 0
    ensures !r.ReadFailed?
    ensures r.NoValidBookings? <==> rows > 0 && |bookings| == 0
    ensures r.Preview? ==> r.bookings == bookings && r.report == Report(errors)
  {
    if rows == 0 then EmptySheet
    else if |bookings| == 0 then NoValidBookings
    else Preview(bookings, Report(errors), "อ่านข้อมูล " + NatToString(|bookings|) + " การจองสำเร็จ")
  }

  /** The importer's row parser as a function value. */
  function Parser(env: DateSources): Row -> RowResult<ImportedBooking> {
    row => ParseBookingRow(env, row)
  }

  /** The start of the unreadable-file message. */
  const ReadFailurePrefix: string := "อ่านไฟล์ไม่สำเร็จ: "

  /** The whole import of a sheet. */
  method ImportRows(env: DateSources, rows: seq<Row>) returns (outcome: ImportOutcome)
    ensures outcome.EmptySheet? <==> |rows| == 0
    ensures outcome.ReadFailed? <==> !NoAbort(Parser(env), rows)
    ensures outcome.ReadFailed? ==> outcome.message == ReadFailurePrefix + env.serialFailure
    ensures outcome.NoValidBookings? <==>
      |rows| > 0 && NoAbort(Parser(env), rows) && |Accepted(Parser(env), rows)| == 0
    ensures outcome.Preview? ==>
      && outcome.bookings == Accepted(Parser(env), rows)
      && outcome.report == Report(Labels(Rejected(Parser(env), rows)))
  {
    if |rows| == 0 {
      return EmptySheet;
    }
    var aborted, bookings, rejected := PartitionRows(Parser(env), rows);
    if aborted {
      return ReadFailed(ReadFailurePrefix + env.serialFailure);
    }
    outcome := Outcome(|rows|, bookings, Labels(rejected));
  }

  /** A check-in serial date the decoder cannot read makes the whole sheet
      unreadable, even on a row that would be rejected for a missing
      guest. */
  lemma SerialFailureAborts(env: DateSources, rows: seq<Row>, i: nat)
    requires i < |rows| && SerialFails(env, FirstTruthy(rows[i], CheckInKeys))
    ensures !NoAbort(Parser(env), rows)
  {
    assert Parser(env)(rows[i]).Aborted?;
  }
}
