/**
 * The routes called in sequence on a fresh store, with the example request
 * body the create route documents (room 1, 2025-12-01 to 2025-12-03) and
 * variations of it.
 */
module Scenarios {
  import opened Wrappers
  import opened Text
  import opened Dates
  import opened JsValues
  import opened Entities
  import opened Validation
  import opened Queries
  import opened BookingStore

  /** The zero-padded digits of the demo dates' parts. */
  lemma DemoDigits()
    ensures Fixed(2025, 4) == "2025"
    ensures Fixed(11, 2) == "11" && Fixed(12, 2) == "12"
    ensures Fixed(30, 2) == "30" && Fixed(1, 2) == "01" && Fixed(3, 2) == "03"
  {
    assert Fixed(0, 0) == [];
    assert Fixed(2, 1) == "2" && Fixed(20, 2) == "20" && Fixed(202, 3) == "202";
    assert Fixed(1, 1) == "1" && Fixed(3, 1) == "3" && Fixed(0, 1) == "0";
  }

  /** The parser reads the demo dates as the days they name. */
  lemma DemoDays()
    ensures ParseDay("2025-11-30") == Some(Day(2025, 11, 30))
    ensures ParseDay("2025-12-01") == Some(Day(2025, 12, 1))
    ensures ParseDay("2025-12-03") == Some(Day(2025, 12, 3))
  {
    DemoDigits();
    assert FormatDay(Day(2025, 11, 30)) == "2025-11-30";
    assert FormatDay(Day(2025, 12, 1)) == "2025-12-01";
    assert FormatDay(Day(2025, 12, 3)) == "2025-12-03";
    ParseFormat(Day(2025, 11, 30));
    ParseFormat(Day(2025, 12, 1));
    ParseFormat(Day(2025, 12, 3));
  }

  /** The demo stay passes all three checks. */
  lemma DemoStayAccepted()
    ensures ValidateBooking(Num(1), Str("2025-12-01"), Str("2025-12-03")) == Accepted(Day(2025, 12, 1), Day(2025, 12, 3))
  {
    DemoDays();
  }

  /** Seeding a fresh database, then listing hotels, shows the demo hotel with rooms 101 and 102. */
  method SeedThenList() returns (seeded: Response, listed: Response)
    ensures seeded.status == 200
    ensures listed == Response(200, HotelsBody([HotelView(
      Hotel(1, "Test Hotel", "Seoul", "123 Test Street", 0),
      [Room(1, 1, "101", "single", 100000), Room(2, 1, "102", "double", 150000)])]))
  {
    var store := new Store();
    seeded := store.Seed();
    listed := store.ListHotels();
  }

  /** Seeding twice stores the demo hotel twice, under two ids. */
  method SeedTwice() returns (listed: Response)
    ensures listed.status == 200 && listed.body.HotelsBody? && |listed.body.views| == 2
    ensures listed.body.views[0].hotel.id == 1 && listed.body.views[1].hotel.id == 2
    ensures listed.body.views[0].hotel.name == listed.body.views[1].hotel.name == "Test Hotel"
    ensures |listed.body.views[1].rooms| == 2 && listed.body.views[1].rooms[0].roomNumber == "101"
  {
    var store := new Store();
    var _ := store.Seed();
    var _ := store.Seed();
    listed := store.ListHotels();
  }

  /** A check-out before the check-in is refused with 400 and stores no booking. */
  method ReversedStayRefused() returns (res: Response, stored: nat)
    ensures res == Response(400, ErrorBody(CheckInNotBeforeCheckOut))
    ensures stored == 0
  {
    DemoDays();
    var store := new Store();
    res := store.CreateBooking(Num(1), Str("2025-12-01"), Str("2025-11-30"));
    stored := |store.bookings|;
  }

  /** A room id of 0 counts as missing, even with good dates. */
  method ZeroRoomIdRefused() returns (res: Response, stored: nat)
    ensures res == Response(400, ErrorBody(MissingField))
    ensures stored == 0
  {
    var store := new Store();
    res := store.CreateBooking(Num(0), Str("2025-12-01"), Str("2025-12-03"));
    stored := |store.bookings|;
  }

  /** A booking for 2025-12-01 to 2025-12-03 reads back with the same days, confirmed, for the guest. */
  method CreateThenList() returns (created: Response, listed: Response)
    ensures created.status == 201 && created.body.CreatedBody?
    ensures created.body.user == User(1, GuestEmail, GuestName, GuestPassword)
    ensures listed.status == 200 && listed.body.BookingsBody? && |listed.body.items| == 1
    ensures listed.body.items[0].booking == created.body.created
    ensures ParseDay("2025-12-01") == Some(listed.body.items[0].booking.checkIn)
    ensures ParseDay("2025-12-03") == Some(listed.body.items[0].booking.checkOut)
    ensures listed.body.items[0].booking.status == Confirmed
    ensures listed.body.items[0].booking.userId == created.body.user.id
  {
    DemoDays();
    DemoStayAccepted();
    var store := new Store();
    created := BookOnFreshStore(store, "2025-12-01", "2025-12-03", Accepted(Day(2025, 12, 1), Day(2025, 12, 3)));
    listed := store.ListBookings();
    assert store.GuestId() == 1;
    assert OwnBookings(store.bookings, 1, 2) == [created.body.created];
  }

  /** Books room 1 for an accepted stay on a fresh database. */
  method BookOnFreshStore(store: Store, checkIn: string, checkOut: string, ghost stay: Verdict) returns (created: Response)
    requires store.Valid()
    requires store.users == map[] && store.bookings == map[]
    requires store.nextUserId == 1 && store.nextBookingId == 1
    requires stay.Accepted? && ValidateBooking(Num(1), Str(checkIn), Str(checkOut)) == stay
    modifies store
    ensures store.Valid()
    ensures created.status == 201 && created.body.CreatedBody?
    ensures created.body.user == User(1, GuestEmail, GuestName, GuestPassword)
    ensures created.body.created
         == Booking(1, 1, 1, stay.checkIn, stay.checkOut, Confirmed, old(store.clock))
    ensures store.bookings == map[1 := created.body.created] && store.nextBookingId == 2
    ensures store.users == map[1 := created.body.user] && store.nextUserId == 2
  {
    assert !HasGuest(store.users);
    created := store.CreateBooking(Num(1), Str(checkIn), Str(checkOut));
  }

  /** The demo id parameters: "1" and "2" read as numbers, "x" as NaN. */
  lemma DemoIds()
    ensures NumberOf("1") == Some(1) && NumberOf("2") == Some(2) && NumberOf("x") == None
  {
    assert !IsDigit('x');
  }

  /** Cancelling twice succeeds both times; a missing id is 404 and a non-numeric one 400. */
  method CancelTwice() returns (first: Response, second: Response, missing: Response, garbled: Response)
    ensures first.status == 200 && first.body.BookingBody? && first.body.booking.status == Cancelled
    ensures second == first
    ensures missing == Response(404, ErrorBody(BookingNotFound))
    ensures garbled == Response(400, ErrorBody(InvalidBookingId))
  {
    DemoStayAccepted();
    var store := new Store();
    var created := BookOnFreshStore(store, "2025-12-01", "2025-12-03", Accepted(Day(2025, 12, 1), Day(2025, 12, 3)));
    DemoIds();
    first := store.CancelBooking("1");
    second := store.CancelBooking("1");
    missing := store.CancelBooking("2");
    garbled := store.CancelBooking("x");
  }

  /** Resolving the guest twice returns the same user and creates only one. */
  method GuestResolvedOnce() returns (first: User, second: User, userCount: nat)
    ensures first == second
    ensures first == User(1, GuestEmail, GuestName, GuestPassword)
    ensures userCount == 1
  {
    var store := new Store();
    first := store.GetOrCreateDefaultUser();
    second := store.GetOrCreateDefaultUser();
    userCount := |store.users|;
  }
}
