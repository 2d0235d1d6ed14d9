/** The property-management view (components/PMSIntegration.tsx): payment
    correlation between bookings and ledger entries, the one-click payment
    record, the lock countdown and the badge and label choices. */
module Pms {

  import opened Types
  import opened Strings
  import opened Ledger

  /** `isPaid`: some income entry mentions the booking id in its
      description. */
  predicate IsPaid(ledger: seq<Transaction>, bookingId: string)
    decreases |ledger|
  {
    |ledger| > 0 &&
      ((Contains(ledger[0].description, bookingId) && ledger[0].txType == Income)
       || IsPaid(ledger[1..], bookingId))
  }

  /** An income entry whose description contains the id. */
  predicate Pays(t: Transaction, bookingId: string) {
    Contains(t.description, bookingId) && t.txType == Income
  }

  /** The scan finds a paying entry exactly when one exists. */
  lemma {:induction false} IsPaidIff(ledger: seq<Transaction>, bookingId: string)
    ensures IsPaid(ledger, bookingId) <==> exists i :: 0 <= i < |ledger| && Pays(ledger[i], bookingId)
    decreases |ledger|
  {
    if |ledger| > 0 {
      IsPaidIff(ledger[1..], bookingId);
      if exists i :: 0 <= i < |ledger| && Pays(ledger[i], bookingId) {
        var i :| 0 <= i < |ledger| && Pays(ledger[i], bookingId);
        if i > 0 {
          assert ledger[1..][i - 1] == ledger[i];
        }
      }
      if IsPaid(ledger[1..], bookingId) && !Pays(ledger[0], bookingId) {
        var i :| 0 <= i < |ledger[1..]| && Pays(ledger[1..][i], bookingId);
        assert ledger[i + 1] == ledger[1..][i];
      }
    }
  }

  function PaymentDescription(b: Booking): string {
    "Payment for Booking " + b.id + " - " + b.guestName
  }

  /** `handleQuickAdd`: a reconciled room-revenue entry for the booking's
      total, dated today, whose description names the booking. */
  function QuickAdd(b: Booking, today: string): (t: Transaction)
    ensures t.txType == Income && t.category == RoomRevenue && t.isReconciled
    ensures t.amount == b.totalAmount && t.date == today
    ensures Contains(t.description, b.id)
    ensures t.imageUrl.None? && t.pmsReferenceId.None? && t.guestData.None?
  {
    ContainsInfix("Payment for Booking ", b.id, " - " + b.guestName);
    assert PaymentDescription(b) == "Payment for Booking " + b.id + (" - " + b.guestName);
    Draft(today, Income, RoomRevenue, b.totalAmount, PaymentDescription(b), None, true)
  }

  /** Once the quick-add entry is in the ledger the booking shows as paid,
      whatever the ledger held before. */
  lemma QuickAddPays(ledger: seq<Transaction>, b: Booking, today: string, freshId: string, autoReconcile: bool)
    ensures IsPaid(AddTransaction(ledger, QuickAdd(b, today), freshId, autoReconcile), b.id)
  {
    var r := AddTransaction(ledger, QuickAdd(b, today), freshId, autoReconcile);
    assert r[0].description == QuickAdd(b, today).description;
  }

  /** Adding an entry never makes a paid booking unpaid. */
  lemma PaidStaysPaid(ledger: seq<Transaction>, t: Transaction, freshId: string, autoReconcile: bool, bookingId: string)
    requires IsPaid(ledger, bookingId)
    ensures IsPaid(AddTransaction(ledger, t, freshId, autoReconcile), bookingId)
  {
    var r := AddTransaction(ledger, t, freshId, autoReconcile);
    assert r[1..] == ledger;
  }

  // ---------------------------------------------------------------------
  // Lock countdown

  /** What the countdown shows. */
  datatype Countdown = Expired | Remaining(mins: nat, secs: nat) | Invalid

  /** `CountdownTimer.update`: the time left until `expiry`, or `Invalid`
      when the booking carries no lock instant (the date is `NaN`). */
  function CountdownOf(expiry: Option<int>, now: int): (c: Countdown)
    ensures expiry.None? <==> c.Invalid?
    ensures expiry.Some? ==> (c.Expired? <==> expiry.value - now <= 0)
    ensures c.Remaining? ==>
      var diff := expiry.value - now;
      && c.secs < 60
      && c.mins * 60000 + c.secs * 1000 <= diff < c.mins * 60000 + (c.secs + 1) * 1000
  {
    match expiry
    case None => Invalid
    case Some(e) =>
      var diff := e - now;
      if diff <= 0 then Expired
      else Remaining(diff / 60000, (diff % 60000) / 1000)
  }

  /** The countdown text: `mins:ss`, or the fixed words. */
  function CountdownText(c: Countdown): string {
    match c
    case Expired => "Expired"
    case Remaining(m, s) => NatToString(m) + ":" + PadZeros(NatToString(s), 2)
    case Invalid => "NaN:NaN"
  }

  /** The seconds are always two digits, and a running countdown never
      reads "Expired". */
  lemma CountdownShape(expiry: int, now: int)
    requires expiry - now > 0
    ensures var t := CountdownText(CountdownOf(Some(expiry), now));
      && t != "Expired"
      && |t| >= 4 && t[|t| - 3] == ':' && IsDigit(t[|t| - 2]) && IsDigit(t[|t| - 1])
  {
    var c := CountdownOf(Some(expiry), now);
    var m := NatToString(c.mins);
    var s := NatToString(c.secs);
    var p := PadZeros(s, 2);
    assert |s| <= 2 by {
      if c.secs >= 10 {
        assert s == NatToString(c.secs / 10) + [DigitChar(c.secs % 10)];
        assert |NatToString(c.secs / 10)| == 1;
      }
    }
    assert |p| == 2;
    var t := m + ":" + p;
    assert t[|m|] == ':';
    assert t[|t| - 2] == p[0] && t[|t| - 1] == p[1];
    assert IsDigit(p[0]) && IsDigit(p[1]) by {
      if |s| == 1 {
        assert p[1] == s[0];
      } else {
        assert p == s;
      }
    }
    assert "Expired"[6] == 'd';
  }

  // ---------------------------------------------------------------------
  // Badges and labels

  datatype Badge = LockedBadge(countdown: Countdown) | CheckedInBadge | ConfirmedBadge | PendingBadge

  /** `getStatusBadge`: a badge for every status but checked-out; a lock's
      badge carries its countdown. */
  function StatusBadge(b: Booking, now: int): (r: Option<Badge>)
    ensures r.None? <==> b.status == CheckedOut
    ensures b.status == Locked ==> r == Some(LockedBadge(CountdownOf(b.lockedUntil, now)))
    ensures b.status == CheckedIn ==> r == Some(CheckedInBadge)
    ensures b.status == Confirmed ==> r == Some(ConfirmedBadge)
    ensures b.status == Pending ==> r == Some(PendingBadge)
  {
    match b.status
    case Locked => Some(LockedBadge(CountdownOf(b.lockedUntil, now)))
    case CheckedIn => Some(CheckedInBadge)
    case Confirmed => Some(ConfirmedBadge)
    case Pending => Some(PendingBadge)
    case CheckedOut => None
  }

  const PaidLabel := "● ชำระเงินเรียบร้อย"
  const AwaitingDepositLabel := "○ รอชำระมัดจำ"
  const OutstandingLabel := "○ ค้างชำระ"

  /** The payment line under a booking's amount. */
  function PaymentLabel(ledger: seq<Transaction>, b: Booking): (r: string)
    ensures IsPaid(ledger, b.id) <==> r == PaidLabel
    ensures r == AwaitingDepositLabel <==> !IsPaid(ledger, b.id) && b.status == Locked
    ensures r == OutstandingLabel <==> !IsPaid(ledger, b.id) && b.status != Locked
  {
    if IsPaid(ledger, b.id) then PaidLabel
    else if b.status == Locked then AwaitingDepositLabel
    else OutstandingLabel
  }

  /** The record-payment button is offered exactly while the booking is
      unpaid; pressing it makes the booking paid. */
  predicate ShowsRecordButton(ledger: seq<Transaction>, b: Booking) {
    !IsPaid(ledger, b.id)
  }

  lemma RecordButtonGoesAway(ledger: seq<Transaction>, b: Booking, today: string, freshId: string, autoReconcile: bool)
    requires ShowsRecordButton(ledger, b)
    ensures !ShowsRecordButton(AddTransaction(ledger, QuickAdd(b, today), freshId, autoReconcile), b)
    ensures PaymentLabel(AddTransaction(ledger, QuickAdd(b, today), freshId, autoReconcile), b) == PaidLabel
  {
    QuickAddPays(ledger, b, today, freshId, autoReconcile);
  }
}
