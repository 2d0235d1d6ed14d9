/** The booking store of the application shell (App.tsx): quick-book
    locks, the periodic lock-expiry sweep, check-in reconciliation and the
    next-arrival / next-departure insights. Time is an explicit `now` in
    milliseconds; fresh ids are parameters. */
module Bookings {

  import opened Types
  import opened Strings
  import opened Sorting

  /** How long a quick-book lock holds the room: one hour. */
  const LockMillis: int := 60 * 60 * 1000

  // ---------------------------------------------------------------------
  // Lock-expiry sweep

  /** The booking's lock instant lies before `now`. */
  predicate LockPassed(b: Booking, now: int) {
    b.lockedUntil.Some? && b.lockedUntil.value < now
  }

  /** The `map` step: an expired lock is demoted to pending, keeping its
      `lockedUntil`; a lock without an instant never expires. */
  function Demote(b: Booking, now: int): Booking {
    if b.status == Locked && LockPassed(b, now) then b.(status := Pending) else b
  }

  /** The `filter` step drops pending bookings whose lock instant passed. */
  predicate Dropped(b: Booking, now: int) {
    b.status == Pending && LockPassed(b, now)
  }

  /** The `map` step over the whole list: a booking's status changes
      exactly when it is a lock whose instant passed, and then it becomes
      pending; no other field of any booking changes, the lock instant
      included. */
  function DemoteAll(bs: seq<Booking>, now: int): (r: seq<Booking>)
    ensures |r| == |bs|
    ensures forall i :: 0 <= i < |bs| ==>
      (r[i].status != bs[i].status <==> bs[i].status == Locked && LockPassed(bs[i], now))
    ensures forall i :: 0 <= i < |bs| && r[i].status != bs[i].status ==> r[i].status == Pending
    ensures forall i :: 0 <= i < |bs| ==> r[i] == bs[i].(status := r[i].status)
  {
    seq(|bs|, i requires 0 <= i < |bs| => Demote(bs[i], now))
  }

  function DropPassed(bs: seq<Booking>, now: int): seq<Booking>
    decreases |bs|
  {
    if |bs| == 0 then []
    else if Dropped(bs[0], now) then DropPassed(bs[1..], now)
    else [bs[0]] + DropPassed(bs[1..], now)
  }

  /** Some booking's status is changed by the `map` step. */
  predicate AnyDemoted(bs: seq<Booking>, now: int) {
    exists i :: 0 <= i < |bs| && Demote(bs[i], now) != bs[i]
  }

  /** The sweep one timer tick runs, as written: demote, filter, and hand
      back the previous list itself when nothing changed. */
  function Sweep(bs: seq<Booking>, now: int): seq<Booking> {
    var filtered := DropPassed(DemoteAll(bs, now), now);
    if AnyDemoted(bs, now) || |filtered| != |bs| then filtered else bs
  }

  /** A booking the sweep removes: a lock or a pending booking whose lock
      instant lies before `now`. */
  predicate Expired(b: Booking, now: int) {
    (b.status == Locked || b.status == Pending) && LockPassed(b, now)
  }

  /** The bookings that are not expired, in order. */
  function KeepLive(bs: seq<Booking>, now: int): (r: seq<Booking>)
    ensures forall b :: b in r <==> b in bs && !Expired(b, now)
    ensures forall b :: multiset(r)[b] == if Expired(b, now) then 0 else multiset(bs)[b]
    ensures IsSubsequence(r, bs)
    ensures |r| <= |bs|
  {
    Filter(bs, Live(now))
  }

  function Live(now: int): Booking -> bool {
    (b: Booking) => !Expired(b, now)
  }

  /** Demoting and then filtering keeps exactly the live bookings,
      untouched. */
  lemma {:induction false} DropDemoted(bs: seq<Booking>, now: int)
    ensures DropPassed(DemoteAll(bs, now), now) == KeepLive(bs, now)
    decreases |bs|
  {
    if |bs| > 0 {
      assert DemoteAll(bs, now)[1..] == DemoteAll(bs[1..], now);
      DropDemoted(bs[1..], now);
    }
  }

  /** The sweep removes exactly the expired bookings and keeps every other
      booking unchanged and in order; when nothing is expired it returns
      the very same list. */
  lemma SweepSpec(bs: seq<Booking>, now: int)
    ensures Sweep(bs, now) == KeepLive(bs, now)
    ensures (forall b :: b in bs ==> !Expired(b, now)) ==> Sweep(bs, now) == bs
  {
    DropDemoted(bs, now);
    if |KeepLive(bs, now)| == |bs| {
      KeepLiveShorter(bs, now);
      KeepAll(bs, now);
    }
    if forall b :: b in bs ==> !Expired(b, now) {
      KeepAll(bs, now);
    }
  }

  /** Removing an expired booking shortens the list. */
  lemma {:induction false} KeepLiveShorter(bs: seq<Booking>, now: int)
    ensures |KeepLive(bs, now)| == |bs| ==> forall b :: b in bs ==> !Expired(b, now)
    decreases |bs|
  {
    if |bs| > 0 {
      KeepLiveShorter(bs[1..], now);
      assert forall b :: b in bs ==> b == bs[0] || b in bs[1..];
    }
  }

  lemma {:induction false} KeepAll(bs: seq<Booking>, now: int)
    requires forall b :: b in bs ==> !Expired(b, now)
    ensures KeepLive(bs, now) == bs
    decreases |bs|
  {
    if |bs| > 0 {
      assert bs[0] in bs;
      assert forall b :: b in bs[1..] ==> b in bs;
      KeepAll(bs[1..], now);
    }
  }

  /** A second sweep at the same instant changes nothing. */
  lemma SweepIdempotent(bs: seq<Booking>, now: int)
    ensures Sweep(Sweep(bs, now), now) == Sweep(bs, now)
  {
    SweepSpec(bs, now);
    SweepSpec(Sweep(bs, now), now);
  }

  /** Sweeping at an earlier instant and then at a later one is the same as
      sweeping once at the later one. */
  lemma SweepLater(bs: seq<Booking>, t1: int, t2: int)
    requires t1 <= t2
    ensures Sweep(Sweep(bs, t1), t2) == Sweep(bs, t2)
  {
    SweepSpec(bs, t1);
    SweepSpec(KeepLive(bs, t1), t2);
    SweepSpec(bs, t2);
    KeepLiveLater(bs, t1, t2);
  }

  lemma {:induction false} KeepLiveLater(bs: seq<Booking>, t1: int, t2: int)
    requires t1 <= t2
    ensures KeepLive(KeepLive(bs, t1), t2) == KeepLive(bs, t2)
    decreases |bs|
  {
    if |bs| > 0 {
      KeepLiveLater(bs[1..], t1, t2);
    }
  }

  /** Checked-in, confirmed and checked-out bookings, locks without an
      instant, and locks whose instant is not before `now` all survive the
      sweep unchanged. */
  lemma SweepKeeps(bs: seq<Booking>, now: int, b: Booking)
    requires b in bs
    requires b.status !in {Locked, Pending} || b.lockedUntil.None? || b.lockedUntil.value >= now
    ensures b in Sweep(bs, now)
  {
    SweepSpec(bs, now);
  }

  // ---------------------------------------------------------------------
  // Quick-book

  /** What the front desk hands over for a quick lock. */
  datatype QuickBookRequest = QuickBookRequest(
    guestName: string,
    roomNumber: string,
    checkIn: string,
    checkOut: string,
    totalAmount: int,
    guestDetails: Option<GuestData>)

  /** `handleQuickBooking`: a new locked booking, expiring one hour from
      `now`, goes to the front; no other booking is looked at. */
  function QuickBook(bs: seq<Booking>, req: QuickBookRequest, freshId: string, now: int): (r: seq<Booking>)
    ensures |r| == |bs| + 1 && r[1..] == bs
    ensures r[0].id == freshId && r[0].status == Locked && r[0].lockedUntil == Some(now + 3600000)
    ensures r[0].guestName == req.guestName && r[0].roomNumber == req.roomNumber
    ensures r[0].checkIn == req.checkIn && r[0].checkOut == req.checkOut
    ensures r[0].totalAmount == req.totalAmount && r[0].guestDetails == req.guestDetails
  {
    [Booking(freshId, req.guestName, req.roomNumber, req.checkIn, req.checkOut, req.totalAmount,
             Locked, req.guestDetails, Some(now + LockMillis))] + bs
  }

  /** A quick lock survives every sweep within its hour and is gone after
      the first sweep past it. */
  lemma QuickLockLifetime(bs: seq<Booking>, req: QuickBookRequest, freshId: string, now: int, later: int)
    requires now <= later
    ensures var store := QuickBook(bs, req, freshId, now);
      later <= now + LockMillis ==> store[0] in Sweep(store, later)
    ensures var store := QuickBook(bs, req, freshId, now);
      later > now + LockMillis ==> Sweep(store, later) == Sweep(bs, later)
  {
    var store := QuickBook(bs, req, freshId, now);
    SweepSpec(store, later);
    SweepSpec(bs, later);
    assert store == [store[0]] + bs;
  }

  // ---------------------------------------------------------------------
  // Check-in

  /** What the front desk hands over when a guest checks in. */
  datatype CheckInRequest = CheckInRequest(
    guest: GuestData,
    amount: int,
    room: string,
    description: string,
    customerType: CustomerType,
    checkIn: string,
    checkOut: string)

  /** The booking holds `room` ahead of arrival. */
  predicate ActiveFor(b: Booking, room: string) {
    b.roomNumber == room && IsActive(b.status)
  }

  /** `findIndex`: the first booking active for `room`, or -1. */
  function FindActive(bs: seq<Booking>, room: string): (k: int)
    ensures -1 <= k < |bs|
    ensures k == -1 <==> forall i :: 0 <= i < |bs| ==> !ActiveFor(bs[i], room)
    ensures k >= 0 ==> ActiveFor(bs[k], room) && forall i :: 0 <= i < k ==> !ActiveFor(bs[i], room)
    decreases |bs|
  {
    if |bs| == 0 then -1
    else if ActiveFor(bs[0], room) then 0
    else
      var k := FindActive(bs[1..], room);
      if k == -1 then -1 else k + 1
  }

  function FullName(g: GuestData): string {
    g.firstNameTH + " " + g.lastNameTH
  }

  /** The booking side of `handleFrontDeskCheckIn`: the first booking
      active for the room is checked in where it stands; otherwise a new
      checked-in booking goes to the front. */
  function CheckInBookings(bs: seq<Booking>, req: CheckInRequest, freshId: string): (r: seq<Booking>)
    ensures FindActive(bs, req.room) >= 0 ==>
      var k := FindActive(bs, req.room);
      && |r| == |bs|
      && (forall i :: 0 <= i < |bs| && i != k ==> r[i] == bs[i])
      && r[k].id == bs[k].id && r[k].totalAmount == bs[k].totalAmount
      && r[k].roomNumber == req.room && r[k].status == CheckedIn && r[k].lockedUntil.None?
      && r[k].checkIn == req.checkIn && r[k].checkOut == req.checkOut
      && r[k].guestDetails == Some(req.guest) && r[k].guestName == FullName(req.guest)
    ensures FindActive(bs, req.room) == -1 ==>
      && |r| == |bs| + 1 && r[1..] == bs
      && r[0] == Booking(freshId, FullName(req.guest), req.room, req.checkIn, req.checkOut,
                         req.amount, CheckedIn, Some(req.guest), None)
  {
    var k := FindActive(bs, req.room);
    if k != -1 then
      bs[k := bs[k].(status := CheckedIn, checkIn := req.checkIn, checkOut := req.checkOut,
                     guestDetails := Some(req.guest), guestName := FullName(req.guest),
                     lockedUntil := None)]
    else
      [Booking(freshId, FullName(req.guest), req.room, req.checkIn, req.checkOut,
               req.amount, CheckedIn, Some(req.guest), None)] + bs
  }

  /** After a check-in the room has no active booking before the one that
      was checked in, and that booking is checked in. */
  lemma CheckInSettlesRoom(bs: seq<Booking>, req: CheckInRequest, freshId: string)
    ensures var r := CheckInBookings(bs, req, freshId);
      exists k :: 0 <= k < |r| && r[k].roomNumber == req.room && r[k].status == CheckedIn
        && forall i :: 0 <= i < k ==> !ActiveFor(r[i], req.room)
  {
    var r := CheckInBookings(bs, req, freshId);
    var k := FindActive(bs, req.room);
    if k >= 0 {
      assert forall i :: 0 <= i < k ==> r[i] == bs[i];
    } else {
      assert r[0].roomNumber == req.room;
    }
  }

  // ---------------------------------------------------------------------
  // Occupancy insights

  /** Index of the first booking satisfying `eligible` whose `key` is
      smallest: the head of a stable ascending sort of the eligible
      bookings. */
  function FirstMin(bs: seq<Booking>, eligible: Booking -> bool, key: Booking -> string): (k: int)
    ensures -1 <= k < |bs|
    ensures k == -1 <==> forall i :: 0 <= i < |bs| ==> !eligible(bs[i])
    ensures k >= 0 ==> eligible(bs[k])
    ensures k >= 0 ==> forall i :: 0 <= i < |bs| && eligible(bs[i]) ==> LexLe(key(bs[k]), key(bs[i]))
    ensures k >= 0 ==> forall i :: 0 <= i < k && eligible(bs[i]) ==> !LexLe(key(bs[i]), key(bs[k]))
    decreases |bs|
  {
    if |bs| == 0 then -1
    else
      var j := FirstMin(bs[1..], eligible, key);
      if !eligible(bs[0]) then
        (if j == -1 then -1 else j + 1)
      else if j == -1 then
        LexLeReflexive(key(bs[0]));
        0
      else if LexLe(key(bs[0]), key(bs[j + 1])) then
        LexLeReflexive(key(bs[0]));
        forall i | 1 <= i < |bs| && eligible(bs[i])
          ensures LexLe(key(bs[0]), key(bs[i]))
        {
          assert bs[1..][i - 1] == bs[i];
          LexLeTransitive(key(bs[0]), key(bs[j + 1]), key(bs[i]));
        }
        0
      else
        LexLeTotal(key(bs[0]), key(bs[j + 1]));
        forall i | 0 <= i < j + 1 && eligible(bs[i])
          ensures !LexLe(key(bs[i]), key(bs[j + 1]))
        {
          if i > 0 {
            assert bs[1..][i - 1] == bs[i];
          }
        }
        j + 1
  }

  predicate ArrivalCandidate(today: string, b: Booking) {
    IsActive(b.status) && LexLe(today, b.checkIn)
  }

  predicate DepartureCandidate(today: string, b: Booking) {
    b.status == CheckedIn && LexLe(today, b.checkOut)
  }

  function CheckInKey(b: Booking): string { b.checkIn }
  function CheckOutKey(b: Booking): string { b.checkOut }

  /** `nextArrival`: among active bookings arriving today or later, the
      earliest check-in, the first in list order on ties. */
  function NextArrival(bs: seq<Booking>, today: string): (r: Option<Booking>)
    ensures r.None? <==> forall b :: b in bs ==> !ArrivalCandidate(today, b)
    ensures r.Some? ==> r.value in bs && ArrivalCandidate(today, r.value)
    ensures r.Some? ==> forall b :: b in bs && ArrivalCandidate(today, b) ==> LexLe(r.value.checkIn, b.checkIn)
    ensures r.Some? ==> exists k :: (0 <= k < |bs| && bs[k] == r.value &&
      forall i :: 0 <= i < k && ArrivalCandidate(today, bs[i]) ==> !LexLe(bs[i].checkIn, r.value.checkIn))
  {
    var k := FirstMin(bs, b => ArrivalCandidate(today, b), CheckInKey);
    if k == -1 then None else Some(bs[k])
  }

  /** `nextDeparture`: among checked-in bookings leaving today or later,
      the earliest check-out, the first in list order on ties. */
  function NextDeparture(bs: seq<Booking>, today: string): (r: Option<Booking>)
    ensures r.None? <==> forall b :: b in bs ==> !DepartureCandidate(today, b)
    ensures r.Some? ==> r.value in bs && DepartureCandidate(today, r.value)
    ensures r.Some? ==> forall b :: b in bs && DepartureCandidate(today, b) ==> LexLe(r.value.checkOut, b.checkOut)
    ensures r.Some? ==> exists k :: (0 <= k < |bs| && bs[k] == r.value &&
      forall i :: 0 <= i < k && DepartureCandidate(today, bs[i]) ==> !LexLe(bs[i].checkOut, r.value.checkOut))
  {
    var k := FirstMin(bs, b => DepartureCandidate(today, b), CheckOutKey);
    if k == -1 then None else Some(bs[k])
  }
}
