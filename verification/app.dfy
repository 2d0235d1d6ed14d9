/** The application shell's state and the handlers that change it
    (App.tsx): the ledger and the booking store side by side, plus the
    auto-reconcile setting. Today's date, the clock, fresh ids and the
    user's answer to a confirmation prompt are parameters. */
module App {

  import opened Types
  import opened Sorting
  import opened Ledger
  import opened Bookings

  datatype State = State(
    transactions: seq<Transaction>,
    bookings: seq<Booking>,
    autoReconcile: bool)

  /** `addTransaction` on the whole state. */
  function Add(st: State, t: Transaction, freshId: string): (r: State)
    ensures r.bookings == st.bookings && r.autoReconcile == st.autoReconcile
    ensures |r.transactions| == |st.transactions| + 1 && r.transactions[1..] == st.transactions
    ensures r.transactions[0].id == freshId
    ensures r.transactions[0].isReconciled <==> st.autoReconcile || t.isReconciled
  {
    st.(transactions := AddTransaction(st.transactions, t, freshId, st.autoReconcile))
  }

  /** The room-revenue entry a check-in records, before it gets an id. */
  function CheckInEntry(req: CheckInRequest, today: string): (t: Transaction)
    ensures t.txType == Income && t.category == RoomRevenue && t.isReconciled
    ensures t.amount == req.amount && t.date == today
    ensures t.pmsReferenceId == Some(req.room) && t.customerType == Some(req.customerType)
    ensures t.guestData == Some(req.guest.(customerType := Some(req.customerType)))
    ensures t.description == req.description + " (" + CustomerTypeLabel(req.customerType) + ") เช็คอิน "
                             + req.checkIn + " - " + req.checkOut
  {
    Transaction("", today, Income, RoomRevenue, req.amount,
                req.description + " (" + CustomerTypeLabel(req.customerType) + ") เช็คอิน "
                + req.checkIn + " - " + req.checkOut,
                None, true, Some(req.room),
                Some(req.guest.(customerType := Some(req.customerType))),
                Some(req.customerType))
  }

  /** `handleFrontDeskCheckIn`: one reconciled room-revenue entry in the
      ledger and the room's booking checked in. */
  function HandleCheckIn(st: State, req: CheckInRequest, today: string, txId: string, bookingId: string): (r: State)
    ensures r.autoReconcile == st.autoReconcile
    ensures r.transactions == [CheckInEntry(req, today).(id := txId)] + st.transactions
    ensures r.bookings == CheckInBookings(st.bookings, req, bookingId)
  {
    State(AddTransaction(st.transactions, CheckInEntry(req, today), txId, st.autoReconcile),
          CheckInBookings(st.bookings, req, bookingId),
          st.autoReconcile)
  }

  /** A check-in raises income by exactly the amount paid and leaves
      expenses alone. */
  lemma CheckInRevenue(st: State, req: CheckInRequest, today: string, txId: string, bookingId: string)
    ensures var r := HandleCheckIn(st, req, today, txId, bookingId);
      && TotalOf(r.transactions, Income) == TotalOf(st.transactions, Income) + req.amount
      && TotalOf(r.transactions, Expense) == TotalOf(st.transactions, Expense)
  {
    AddTransactionTotals(st.transactions, CheckInEntry(req, today), txId, st.autoReconcile, Income);
    AddTransactionTotals(st.transactions, CheckInEntry(req, today), txId, st.autoReconcile, Expense);
  }

  /** `handleQuickBooking` on the whole state. */
  function HandleQuickBooking(st: State, req: QuickBookRequest, lockId: string, now: int): (r: State)
    ensures r.transactions == st.transactions && r.autoReconcile == st.autoReconcile
    ensures |r.bookings| == |st.bookings| + 1 && r.bookings[1..] == st.bookings
    ensures r.bookings[0].status == Locked && r.bookings[0].lockedUntil == Some(now + LockMillis)
  {
    st.(bookings := QuickBook(st.bookings, req, lockId, now))
  }

  /** One tick of the auto-unlock timer. */
  function Tick(st: State, now: int): (r: State)
    ensures r.transactions == st.transactions && r.autoReconcile == st.autoReconcile
    ensures r.bookings == KeepLive(st.bookings, now)
    ensures forall b :: b in r.bookings <==> b in st.bookings && !Expired(b, now)
    ensures forall b :: multiset(r.bookings)[b] == if Expired(b, now) then 0 else multiset(st.bookings)[b]
  {
    SweepSpec(st.bookings, now);
    st.(bookings := Sweep(st.bookings, now))
  }

  /** `handleClearData`: both lists emptied once the user confirms,
      nothing touched otherwise; settings survive either way. */
  function ClearData(st: State, confirmed: bool): (r: State)
    ensures confirmed ==> r.transactions == [] && r.bookings == []
    ensures !confirmed ==> r == st
    ensures r.autoReconcile == st.autoReconcile
  {
    if confirmed then st.(transactions := [], bookings := []) else st
  }

  /** After clearing, the dashboard shows zero totals and no insights. */
  lemma ClearedDashboard(st: State, today: string)
    ensures var r := ClearData(st, true);
      && ComputeTotals(r.transactions) == Totals(0, 0, 0)
      && NextArrival(r.bookings, today).None?
      && NextDeparture(r.bookings, today).None?
  {
  }
}
