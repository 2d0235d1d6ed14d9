/** The static room catalogue and the pricing calculator built on it
    (config/rooms.ts): room-type lookup, night count, stay total and the
    30% deposit. */
module Rooms {

  import opened Types
  import opened Strings

  datatype RoomType = RoomType(
    id: string,
    name: string,
    pricePerNight: int,
    rooms: seq<string>,
    description: string,
    capacity: int)

  /** The four room types and the room numbers each one owns. */
  const Catalog: seq<RoomType> := [
    RoomType("standard", "Standard", 1500, ["101", "102", "103", "104", "105"], "ห้องพักมาตรฐาน", 2),
    RoomType("deluxe", "Deluxe", 2500, ["201", "202", "203", "204"], "ห้องพักระดับดีลักซ์", 2),
    RoomType("suite", "Suite", 4000, ["301", "302"], "ห้องสวีท", 4),
    RoomType("villa", "Villa", 6000, ["V1", "V2", "V3"], "วิลล่าส่วนตัว", 6)
  ]

  /** The first type in `types` whose room list holds `room` exactly. */
  function FindType(types: seq<RoomType>, room: string): (r: Option<RoomType>)
    ensures r.None? <==> forall i :: 0 <= i < |types| ==> room !in types[i].rooms
    ensures r.Some? ==> exists i :: (0 <= i < |types| && types[i] == r.value && room in r.value.rooms
      && forall j :: 0 <= j < i ==> room !in types[j].rooms)
    decreases |types|
  {
    if |types| == 0 then None
    else if room in types[0].rooms then Some(types[0])
    else
      var r := FindType(types[1..], room);
      if r.Some? then
        var i :| 0 <= i < |types[1..]| && types[1..][i] == r.value && room in r.value.rooms
          && forall j :: 0 <= j < i ==> room !in types[1..][j].rooms;
        assert types[i + 1] == r.value;
        r
      else r
  }

  /** `getRoomTypeByNumber`: look a room number up in the catalogue. */
  function GetRoomTypeByNumber(room: string): (r: Option<RoomType>)
    ensures r.Some? ==> r.value in Catalog && room in r.value.rooms
    ensures r.None? <==> forall t :: t in Catalog ==> room !in t.rooms
  {
    FindType(Catalog, room)
  }

  /** No room number belongs to two room types. */
  lemma CatalogDisjoint()
    ensures forall i, j :: 0 <= i < j < |Catalog| ==> forall r :: r in Catalog[i].rooms ==> r !in Catalog[j].rooms
  {
  }

  /** Because the catalogue's room lists are disjoint, a lookup returns
      the one type listing the room, whichever position it has. */
  lemma LookupUnique(room: string, t: RoomType)
    requires t in Catalog && room in t.rooms
    ensures GetRoomTypeByNumber(room) == Some(t)
  {
    CatalogDisjoint();
  }

  /** The catalogue's nightly prices: 1500, 2500, 4000 and 6000 for the
      Standard, Deluxe, Suite and Villa rooms. */
  lemma CatalogPrices()
    ensures GetRoomTypeByNumber("101").Some? && GetRoomTypeByNumber("101").value.pricePerNight == 1500
    ensures GetRoomTypeByNumber("204").Some? && GetRoomTypeByNumber("204").value.pricePerNight == 2500
    ensures GetRoomTypeByNumber("302").Some? && GetRoomTypeByNumber("302").value.pricePerNight == 4000
    ensures GetRoomTypeByNumber("V1").Some? && GetRoomTypeByNumber("V1").value.pricePerNight == 6000
  {
    assert "101" in Catalog[0].rooms;
    assert "204" in Catalog[1].rooms;
    assert "302" in Catalog[2].rooms;
    assert "V1" in Catalog[3].rooms;
    LookupUnique("101", Catalog[0]);
    LookupUnique("204", Catalog[1]);
    LookupUnique("302", Catalog[2]);
    LookupUnique("V1", Catalog[3]);
  }

  /** The catalogue lists fourteen rooms in all. */
  lemma CatalogSize()
    ensures |Catalog[0].rooms| + |Catalog[1].rooms| + |Catalog[2].rooms| + |Catalog[3].rooms| == 14
  {
  }

  /** Lookup is exact: a room number that differs in its first character
      from every catalogued number, such as a lower-case villa number, is
      unknown. */
  lemma UnknownRoom(room: string)
    requires |room| > 0 && room[0] != '1' && room[0] != '2' && room[0] != '3' && room[0] != 'V'
    ensures GetRoomTypeByNumber(room).None?
  {
    FirstCharacters(0, '1');
    FirstCharacters(1, '2');
    FirstCharacters(2, '3');
    FirstCharacters(3, 'V');
  }

  /** Every room of the `i`-th type starts with that type's character:
      1, 2 or 3 for the floors and V for the villas. */
  lemma FirstCharacters(i: nat, c: char)
    requires i < |Catalog| && c == "123V"[i]
    ensures forall k :: 0 <= k < |Catalog[i].rooms| ==> Catalog[i].rooms[k][0] == c
  {
  }

  // ---------------------------------------------------------------------
  // Calendar dates

  datatype CalendarDate = CalendarDate(year: nat, month: nat, day: nat)

  predicate IsLeapYear(y: nat) {
    (y % 4 == 0 && y % 100 != 0) || y % 400 == 0
  }

  function DaysInMonth(y: nat, m: nat): nat {
    if m == 2 then (if IsLeapYear(y) then 29 else 28)
    else if m == 4 || m == 6 || m == 9 || m == 11 then 30
    else 31
  }

  predicate ValidDate(d: CalendarDate) {
    1 <= d.month <= 12 && 1 <= d.day <= DaysInMonth(d.year, d.month)
  }

  /** Leap years in `[0, y)`. */
  function LeapYearsBefore(y: nat): nat {
    if y == 0 then 0 else (y - 1) / 4 - (y - 1) / 100 + (y - 1) / 400 + 1
  }

  function DaysBeforeMonth(y: nat, m: nat): nat
    decreases m
  {
    if m <= 1 then 0 else DaysBeforeMonth(y, m - 1) + DaysInMonth(y, m - 1)
  }

  /** Days from 0000-01-01 to the date. */
  function DayNumber(d: CalendarDate): int {
    365 * d.year + LeapYearsBefore(d.year) + DaysBeforeMonth(d.year, d.month) + d.day - 1
  }

  const DayMillis: int := 1000 * 60 * 60 * 24

  /** The characters of `s` at `lo..hi` are all digits. */
  predicate DigitsAt(s: string, lo: nat, hi: nat)
    requires lo <= hi <= |s|
  {
    forall i :: lo <= i < hi ==> IsDigit(s[i])
  }

  /** `s` has the shape `YYYY-MM-DD` (`/^\d{4}-\d{2}-\d{2}$/`). */
  predicate IsIsoDateShape(s: string) {
    |s| == 10 && DigitsAt(s, 0, 4) && s[4] == '-' && DigitsAt(s, 5, 7) && s[7] == '-' && DigitsAt(s, 8, 10)
  }

  /** `new Date(s)` for a date-only string: a date of the ISO shape whose
      month and day exist; anything else is an invalid date. */
  function ParseIsoDate(s: string): (r: Option<CalendarDate>)
    ensures r.Some? ==> IsIsoDateShape(s) && ValidDate(r.value)
  {
    if !IsIsoDateShape(s) then None
    else
      var d := CalendarDate(DigitsValue(s[0..4]), DigitsValue(s[5..7]), DigitsValue(s[8..10]));
      if ValidDate(d) then Some(d) else None
  }

  /** `new Date(s).getTime()` for a date-only string (UTC midnight). */
  function DateMillis(s: string): Option<int> {
    match ParseIsoDate(s)
    case Some(d) => Some(DayNumber(d) * DayMillis)
    case None => None
  }

  function Abs(x: int): nat {
    if x < 0 then -x else x
  }

  /** `Math.ceil(x / d)` for `x >= 0`, `d > 0`. */
  function CeilDiv(x: nat, d: nat): (r: nat)
    requires d > 0
    ensures (r - 1) * d < x <= r * d || (x == 0 && r == 0)
  {
    (x + d - 1) / d
  }

  /** `calculateNights`: whole days between the two instants, rounded up;
      `NaN` when either string is not a valid date. */
  function CalculateNights(checkIn: string, checkOut: string): (r: Num)
    ensures r.NaN? <==> DateMillis(checkIn).None? || DateMillis(checkOut).None?
    ensures r.Val? ==> r.v >= 0
  {
    match (DateMillis(checkIn), DateMillis(checkOut))
    case (Some(a), Some(b)) => Val(CeilDiv(Abs(b - a), DayMillis))
    case _ => NaN
  }

  /** The night count does not depend on the order of the two dates, and
      for date-only inputs it is the difference of their day numbers. */
  lemma NightsSymmetric(a: string, b: string)
    ensures CalculateNights(a, b) == CalculateNights(b, a)
    ensures ParseIsoDate(a).Some? && ParseIsoDate(b).Some? ==>
      CalculateNights(a, b) == Val(Abs(DayNumber(ParseIsoDate(b).value) - DayNumber(ParseIsoDate(a).value)))
  {
    if ParseIsoDate(a).Some? && ParseIsoDate(b).Some? {
      var x := DayNumber(ParseIsoDate(a).value);
      var y := DayNumber(ParseIsoDate(b).value);
      ScaledDistance(x, y, DayMillis);
      WholeDays(Abs(y - x));
    }
  }

  /** Distance commutes with scaling by a positive factor. */
  lemma ScaledDistance(x: int, y: int, k: nat)
    ensures Abs(y * k - x * k) == Abs(y - x) * k
  {
    assert y * k - x * k == (y - x) * k;
    if y < x {
      assert Abs(y - x) * k == (x - y) * k;
    }
  }

  lemma WholeDays(n: nat)
    ensures CeilDiv(n * DayMillis, DayMillis) == n
  {
    assert (n * DayMillis + DayMillis - 1) == n * DayMillis + (DayMillis - 1);
  }

  /** A stay of two nights in January 2025. */
  lemma NightsExample()
    ensures CalculateNights("2025-01-10", "2025-01-12") == Val(2)
  {
    var a := "2025-01-10";
    var b := "2025-01-12";
    assert a[0..4] == "2025";
    assert b[0..4] == "2025";
    assert a[5..7] == "01";
    assert b[5..7] == "01";
    assert a[8..10] == "10";
    assert b[8..10] == "12";
    assert DigitsValue("2025") == 2025 by {
      assert "2025"[..3] == "202";
      assert "202"[..2] == "20";
      assert "20"[..1] == "2";
    }
    assert DigitsValue("01") == 1 by { assert "01"[..1] == "0"; }
    assert DigitsValue("10") == 10 by { assert "10"[..1] == "1"; }
    assert DigitsValue("12") == 12 by { assert "12"[..1] == "1"; }
    assert ParseIsoDate(a) == Some(CalendarDate(2025, 1, 10));
    assert ParseIsoDate(b) == Some(CalendarDate(2025, 1, 12));
    NightsSymmetric(a, b);
  }

  // ---------------------------------------------------------------------
  // Stay total and deposit

  /** `calculateTotalAmount`: nightly price times nights, 0 for a room the
      catalogue does not list. */
  function CalculateTotalAmount(room: string, checkIn: string, checkOut: string): (r: Num)
    ensures GetRoomTypeByNumber(room).None? ==> r == Val(0)
    ensures GetRoomTypeByNumber(room).Some? ==>
      match CalculateNights(checkIn, checkOut)
      case Val(n) => r == Val(GetRoomTypeByNumber(room).value.pricePerNight * n)
      case NaN => r == NaN
  {
    match GetRoomTypeByNumber(room)
    case None => Val(0)
    case Some(t) =>
      match CalculateNights(checkIn, checkOut)
      case Val(n) => Val(t.pricePerNight * n)
      case NaN => NaN
  }

  /** Room 101 for two nights costs 3000, and an unknown room costs 0
      whatever the dates. */
  lemma TotalExample(checkIn: string, checkOut: string)
    ensures CalculateTotalAmount("101", "2025-01-10", "2025-01-12") == Val(3000)
    ensures CalculateTotalAmount("999", checkIn, checkOut) == Val(0)
  {
    CatalogPrices();
    NightsExample();
    UnknownRoom("999");
  }

  /** `calculateDeposit`: 30% of the total, rounded half up. */
  function CalculateDeposit(total: Num): (r: Num)
    ensures total.NaN? <==> r.NaN?
    ensures total.Val? ==> 10 * r.v - 5 <= 3 * total.v < 10 * r.v + 5
    ensures total.Val? && total.v >= 0 ==> 0 <= r.v <= total.v
  {
    match total
    case Val(t) => Val((3 * t + 5) / 10)
    case NaN => NaN
  }

  /** The deposit on a 3000 stay is 900; a half unit rounds up. */
  lemma DepositExample()
    ensures CalculateDeposit(Val(3000)) == Val(900)
    ensures CalculateDeposit(Val(5)) == Val(2)
  {
  }
}
