/** The front desk (components/FrontDesk.tsx): the check-in and quick-book
    guards, the payloads they hand to the booking store, and the form
    reset. Scanning the ID card and printing documents are outside the
    model. */
module FrontDesk {

  import opened Types
  import opened Strings
  import opened Bookings

  datatype DeskForm = DeskForm(
    guest: Option<GuestData>,
    roomNumber: string,
    amount: string,
    description: string,
    customerType: CustomerType,
    checkInDate: string,
    checkOutDate: string,
    qbGuestName: string,
    qbPhone: string)

  /** The check-in payload; the amount is `parseFloat` of the amount box. */
  datatype CheckInPayload = CheckInPayload(
    guest: GuestData,
    amount: Num,
    room: string,
    description: string,
    customerType: CustomerType,
    checkIn: string,
    checkOut: string)

  /** The quick-book payload. */
  datatype QuickBookPayload = QuickBookPayload(
    guestName: string,
    roomNumber: string,
    checkIn: string,
    checkOut: string,
    totalAmount: Num,
    guestDetails: GuestData)

  /** A refused submission leaves the form as it was; a sent one hands
      over the payload and resets the form. */
  datatype Submission<P> = Refused(alert: string) | Sent(payload: P, next: DeskForm)

  /** `resetForm`: guest, room and quick-book fields cleared, the amount
      back to 1500 and the customer type to check-in; the description and
      the dates are kept. */
  function ResetForm(f: DeskForm): (r: DeskForm)
    ensures r.guest.None? && r.roomNumber == "" && r.qbGuestName == "" && r.qbPhone == ""
    ensures r.amount == "1500" && r.customerType == CheckInCustomer
    ensures r.description == f.description && r.checkInDate == f.checkInDate && r.checkOutDate == f.checkOutDate
  {
    f.(guest := None, roomNumber := "", amount := "1500", qbGuestName := "", qbPhone := "",
       customerType := CheckInCustomer)
  }

  /** Every field the check-in needs is filled in. */
  predicate CheckInReady(f: DeskForm) {
    f.guest.Some? && f.roomNumber != "" && f.amount != "" && f.checkInDate != "" && f.checkOutDate != ""
  }

  /** `handleCompleteCheckIn`. */
  function CompleteCheckIn(f: DeskForm): (r: Submission<CheckInPayload>)
    ensures r.Sent? <==> CheckInReady(f)
    ensures r.Sent? ==>
      && r.payload.guest == f.guest.value && r.payload.room == f.roomNumber
      && r.payload.amount == ParseFloat(f.amount)
      && r.payload.description == f.description + " - ห้อง " + f.roomNumber
      && r.payload.customerType == f.customerType
      && r.payload.checkIn == f.checkInDate && r.payload.checkOut == f.checkOutDate
      && r.next == ResetForm(f)
  {
    if !CheckInReady(f) then Refused("กรุณากรอกข้อมูลให้ครบถ้วนก่อนเช็คอิน")
    else Sent(CheckInPayload(f.guest.value, ParseFloat(f.amount), f.roomNumber,
                             f.description + " - ห้อง " + f.roomNumber, f.customerType,
                             f.checkInDate, f.checkOutDate),
              ResetForm(f))
  }

  /** `handleSaveQuickBooking`: only the name, room and amount are checked;
      the dates go through as they are. */
  function SaveQuickBooking(f: DeskForm): (r: Submission<QuickBookPayload>)
    ensures r.Sent? <==> f.qbGuestName != "" && f.roomNumber != "" && f.amount != ""
    ensures r.Sent? ==>
      && r.payload.guestName == f.qbGuestName && r.payload.roomNumber == f.roomNumber
      && r.payload.checkIn == f.checkInDate && r.payload.checkOut == f.checkOutDate
      && r.payload.totalAmount == ParseFloat(f.amount)
      && r.payload.guestDetails.firstNameTH == f.qbGuestName
      && r.payload.guestDetails.phone == Some(f.qbPhone)
      && r.next == ResetForm(f)
  {
    if f.qbGuestName == "" || f.roomNumber == "" || f.amount == "" then Refused("กรุณากรอกชื่อและห้องพัก")
    else Sent(QuickBookPayload(f.qbGuestName, f.roomNumber, f.checkInDate, f.checkOutDate,
                               ParseFloat(f.amount), NameOnlyGuest(f.qbGuestName, f.qbPhone, None)),
              ResetForm(f))
  }

  /** A quick lock needs no dates, while a check-in refuses without them. */
  lemma QuickBookIgnoresDates(f: DeskForm)
    requires f.qbGuestName != "" && f.roomNumber != "" && f.amount != "" && f.guest.Some?
    requires f.checkOutDate == ""
    ensures SaveQuickBooking(f).Sent?
    ensures CompleteCheckIn(f).Refused?
  {
  }

  /** The booking store's check-in request for a payload whose amount
      parsed. */
  function CheckInRequestOf(p: CheckInPayload): (r: Option<CheckInRequest>)
    ensures r.Some? <==> p.amount.Val?
    ensures r.Some? ==> r.value == CheckInRequest(p.guest, p.amount.v, p.room, p.description,
                                                  p.customerType, p.checkIn, p.checkOut)
  {
    match p.amount
    case Val(n) => Some(CheckInRequest(p.guest, n, p.room, p.description, p.customerType, p.checkIn, p.checkOut))
    case NaN => None
  }

  /** The booking store's quick-book request for a payload whose amount
      parsed. */
  function QuickBookRequestOf(p: QuickBookPayload): (r: Option<QuickBookRequest>)
    ensures r.Some? <==> p.totalAmount.Val?
    ensures r.Some? ==> r.value == QuickBookRequest(p.guestName, p.roomNumber, p.checkIn, p.checkOut,
                                                    p.totalAmount.v, Some(p.guestDetails))
  {
    match p.totalAmount
    case Val(n) => Some(QuickBookRequest(p.guestName, p.roomNumber, p.checkIn, p.checkOut, n, Some(p.guestDetails)))
    case NaN => None
  }

  /** A quick lock typed with a whole amount reaches the booking store as a
      lock for that room, guest and amount. */
  lemma QuickBookReachesStore(f: DeskForm, n: int, bs: seq<Booking>, freshId: string, now: int)
    requires f.qbGuestName != "" && f.roomNumber != "" && f.amount == IntToString(n)
    ensures var s := SaveQuickBooking(f);
      && s.Sent? && QuickBookRequestOf(s.payload).Some?
      && var b := QuickBook(bs, QuickBookRequestOf(s.payload).value, freshId, now)[0];
      && b.status == Locked && b.roomNumber == f.roomNumber && b.guestName == f.qbGuestName
      && b.totalAmount == n && b.checkIn == f.checkInDate && b.checkOut == f.checkOutDate
  {
    ParseFloatRoundTrip(n);
  }
}
