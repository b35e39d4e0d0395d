/**
 * The booking server's routes over an in-memory stand-in for its database:
 * four tables keyed by id, the next id of each table, and a creation clock
 * that stamps `createdAt`. Every route runs to completion before the next.
 */
module BookingStore {
  import opened Wrappers
  import opened Dates
  import opened JsValues
  import opened Entities
  import opened Validation
  import opened Queries

  /** Some user carries the guest email. */
  ghost predicate HasGuest(users: map<int, User>) {
    exists id :: id in users && users[id].email == GuestEmail
  }

  /**
   * What resolving the guest did to the users table: the guest it returned is
   * stored; if a guest already existed nothing changed, otherwise exactly the
   * new guest row was added under the next user id, which then advanced.
   */
  ghost predicate GuestResolved(
    before: map<int, User>, after: map<int, User>, nextBefore: int, nextAfter: int, guest: User)
  {
    && guest.email == GuestEmail
    && guest.id in after && after[guest.id] == guest
    && (HasGuest(before) ==> after == before && nextAfter == nextBefore && guest.id in before)
    && (!HasGuest(before) ==>
          && guest == User(nextBefore, GuestEmail, GuestName, GuestPassword)
          && guest.id !in before
          && after == before[guest.id := guest]
          && nextAfter == nextBefore + 1)
  }

  /**
   * Resolving the guest a second time, on a table where emails are unique,
   * returns the same user and changes nothing.
   */
  lemma GuestResolutionIsIdempotent(
    u0: map<int, User>, u1: map<int, User>, u2: map<int, User>,
    n0: int, n1: int, n2: int, first: User, second: User)
    requires GuestResolved(u0, u1, n0, n1, first)
    requires GuestResolved(u1, u2, n1, n2, second)
    requires forall i, j :: i in u1 && j in u1 && u1[i].email == u1[j].email ==> i == j
    ensures second == first
    ensures u2 == u1 && n2 == n1
  {
    assert first.id in u1 && u1[first.id].email == GuestEmail;
    assert HasGuest(u1);
  }

  class Store {
    var users: map<int, User>
    var hotels: map<int, Hotel>
    var rooms: map<int, Room>
    var bookings: map<int, Booking>
    var nextUserId: int
    var nextHotelId: int
    var nextRoomId: int
    var nextBookingId: int
    var clock: nat

    /**
     * Rows sit under their own ids, below the table's next id; emails are
     * unique; rooms belong to stored hotels and bookings to stored users; every
     * booking's check-in is strictly before its check-out; creation times lie
     * in the past and increase with booking ids.
     */
    ghost predicate Valid()
      reads this
    {
      && 1 <= nextUserId && 1 <= nextHotelId && 1 <= nextRoomId && 1 <= nextBookingId
      && (forall id :: id in users ==> users[id].id == id && 1 <= id < nextUserId)
      && (forall i, j :: i in users && j in users && users[i].email == users[j].email ==> i == j)
      && HotelsKeyed(hotels)
      && (forall id :: id in hotels ==> id < nextHotelId && hotels[id].createdAt < clock)
      && RoomsKeyed(rooms)
      && (forall id :: id in rooms ==> id < nextRoomId && rooms[id].hotelId in hotels)
      && BookingsKeyed(bookings)
      && CreatedInIdOrder(bookings)
      && (forall id :: id in bookings ==>
            && id < nextBookingId
            && bookings[id].userId in users
            && Before(bookings[id].checkIn, bookings[id].checkOut)
            && bookings[id].createdAt < clock)
    }

    /** The id of the one guest user. */
    ghost function GuestId(): (id: int)
      reads this
      requires HasGuest(users)
      ensures id in users && users[id].email == GuestEmail
    {
      var id :| id in users && users[id].email == GuestEmail; id
    }

    /** The catalog `GET /hotels` returns in the current state. */
    function HotelListing(): seq<HotelView>
      reads this
    {
      Catalog(hotels, rooms, nextRoomId, nextHotelId)
    }

    /** An empty database. */
    constructor ()
      ensures Valid()
      ensures users == map[] && hotels == map[] && rooms == map[] && bookings == map[]
      ensures nextUserId == 1 && nextHotelId == 1 && nextRoomId == 1 && nextBookingId == 1 && clock == 0
    {
      users, hotels, rooms, bookings := map[], map[], map[], map[];
      nextUserId, nextHotelId, nextRoomId, nextBookingId := 1, 1, 1, 1;
      clock := 0;
    }

    /** Finds the user with the guest email, creating it if there is none. */
    method GetOrCreateDefaultUser() returns (u: User)
      requires Valid()
      modifies this`users, this`nextUserId
      ensures Valid()
      ensures GuestResolved(old(users), users, old(nextUserId), nextUserId, u)
      ensures forall id :: id in users && users[id].email == GuestEmail ==> id == u.id
      ensures HasGuest(users) && GuestId() == u.id
    {
      if exists id :: id in users && users[id].email == GuestEmail {
        var id :| id in users && users[id].email == GuestEmail;
        u := users[id];
      } else {
        u := User(nextUserId, GuestEmail, GuestName, GuestPassword);
        users := users[u.id := u];
        nextUserId := nextUserId + 1;
      }
    }

    /** `POST /seed`: adds one demo hotel with two rooms, every time it is called. */
    method Seed() returns (res: Response)
      requires Valid()
      modifies this`hotels, this`rooms, this`nextHotelId, this`nextRoomId, this`clock
      ensures Valid()
      ensures
        var h := Hotel(old(nextHotelId), "Test Hotel", "Seoul", "123 Test Street", old(clock));
        var r1 := Room(old(nextRoomId), h.id, "101", "single", 100000);
        var r2 := Room(old(nextRoomId) + 1, h.id, "102", "double", 150000);
        && h.id !in old(hotels) && r1.id !in old(rooms) && r2.id !in old(rooms)
        && hotels == old(hotels)[h.id := h]
        && rooms == old(rooms)[r1.id := r1][r2.id := r2]
        && res == Response(200, HotelBody(HotelView(h, [r1, r2])))
      ensures nextHotelId == old(nextHotelId) + 1 && nextRoomId == old(nextRoomId) + 2 && clock == old(clock) + 1
      ensures HotelListing() == old(HotelListing()) + [res.body.view]
    {
      var h := Hotel(nextHotelId, "Test Hotel", "Seoul", "123 Test Street", clock);
      var r1 := Room(nextRoomId, h.id, "101", "single", 100000);
      var r2 := Room(nextRoomId + 1, h.id, "102", "double", 150000);
      CatalogAfterSeed(hotels, rooms, nextHotelId, nextRoomId, h, r1, r2);
      AddHotel(h, r1, r2);
      res := Response(200, HotelBody(HotelView(h, [r1, r2])));
    }

    /** Stores a new hotel and two new rooms of it under the next ids, stamped with the current clock. */
    method AddHotel(h: Hotel, r1: Room, r2: Room)
      requires Valid()
      requires h.id == nextHotelId && h.createdAt == clock
      requires r1.id == nextRoomId && r2.id == nextRoomId + 1 && r1.hotelId == h.id && r2.hotelId == h.id
      modifies this`hotels, this`rooms, this`nextHotelId, this`nextRoomId, this`clock
      ensures Valid()
      ensures hotels == old(hotels)[h.id := h] && rooms == old(rooms)[r1.id := r1][r2.id := r2]
      ensures nextHotelId == old(nextHotelId) + 1 && nextRoomId == old(nextRoomId) + 2 && clock == old(clock) + 1
    {
      hotels := hotels[h.id := h];
      rooms := rooms[r1.id := r1][r2.id := r2];
      nextHotelId, nextRoomId, clock := nextHotelId + 1, nextRoomId + 2, clock + 1;
    }

    /** `GET /hotels`: every hotel, in ascending id order, with its rooms nested. */
    method ListHotels() returns (res: Response)
      requires Valid()
      ensures res.status == 200 && res.body == HotelsBody(HotelListing())
      ensures forall v :: v in res.body.views <==>
        v.hotel.id in hotels && hotels[v.hotel.id] == v.hotel && v.rooms == RoomsOf(rooms, v.hotel.id, nextRoomId)
      ensures forall i, j :: 0 <= i < j < |res.body.views| ==> res.body.views[i].hotel.id < res.body.views[j].hotel.id
    {
      CatalogExact(hotels, rooms, nextRoomId, nextHotelId);
      res := Response(200, HotelsBody(Catalog(hotels, rooms, nextRoomId, nextHotelId)));
    }

    /**
     * `POST /bookings`: validates the body, resolves the guest, then stores a
     * confirmed booking for the given room. The room is not looked up first.
     */
    method CreateBooking(roomId: JsValue, checkIn: JsValue, checkOut: JsValue) returns (res: Response)
      requires Valid()
      modifies this`users, this`nextUserId, this`bookings, this`nextBookingId, this`clock
      ensures Valid()
      ensures BookingsEvolve(old(bookings), bookings)
      // 400: the body is refused and nothing at all changes.
      ensures ValidateBooking(roomId, checkIn, checkOut).Rejected? ==>
        && res == Response(400, ErrorBody(ValidateBooking(roomId, checkIn, checkOut).reason))
        && users == old(users) && nextUserId == old(nextUserId)
        && bookings == old(bookings) && nextBookingId == old(nextBookingId) && clock == old(clock)
      // Past validation the guest has been resolved, whatever follows.
      ensures ValidateBooking(roomId, checkIn, checkOut).Accepted? ==>
        HasGuest(users) && GuestResolved(old(users), users, old(nextUserId), nextUserId, users[GuestId()])
      // 500: `Number(roomId)` is NaN, so the insert is rejected; no booking is stored.
      ensures ValidateBooking(roomId, checkIn, checkOut).Accepted? && ToNumber(roomId).None? ==>
        && res == Response(500, ErrorBody(CreateFailed))
        && bookings == old(bookings) && nextBookingId == old(nextBookingId) && clock == old(clock)
      // 201: exactly one new confirmed booking, for the guest, with the parsed days.
      ensures ValidateBooking(roomId, checkIn, checkOut).Accepted? && ToNumber(roomId).Some? ==>
        && res.status == 201 && res.body.CreatedBody?
        && var b := res.body.created;
        && GuestResolved(old(users), users, old(nextUserId), nextUserId, res.body.user)
        && b == Booking(old(nextBookingId), res.body.user.id, ToNumber(roomId).value,
                        ValidateBooking(roomId, checkIn, checkOut).checkIn,
                        ValidateBooking(roomId, checkIn, checkOut).checkOut,
                        Confirmed, old(clock))
        && b.id !in old(bookings)
        && bookings == old(bookings)[b.id := b]
        && nextBookingId == old(nextBookingId) + 1 && clock == old(clock) + 1
        && res.body.room == Lookup(rooms, b.roomId)
        && OwnBookings(bookings, b.userId, nextBookingId) == [b] + OwnBookings(old(bookings), b.userId, old(nextBookingId))
      ensures res.status in {201, 400, 500}
    {
      var verdict := ValidateBooking(roomId, checkIn, checkOut);
      if verdict.Rejected? {
        return Response(400, ErrorBody(verdict.reason));
      }
      var user := GetOrCreateDefaultUser();
      var number := ToNumber(roomId);
      if number.None? {
        return Response(500, ErrorBody(CreateFailed));
      }
      var b := Booking(nextBookingId, user.id, number.value, verdict.checkIn, verdict.checkOut, Confirmed, clock);
      Insert(b);
      res := Response(201, CreatedBody(b, Lookup(rooms, b.roomId), user));
    }

    /** Stores a new booking under the next id, stamped with the current clock. */
    method Insert(b: Booking)
      requires Valid()
      requires b.id == nextBookingId && b.createdAt == clock
      requires b.userId in users && Before(b.checkIn, b.checkOut)
      modifies this`bookings, this`nextBookingId, this`clock
      ensures Valid()
      ensures b.id !in old(bookings) && bookings == old(bookings)[b.id := b]
      ensures nextBookingId == old(nextBookingId) + 1 && clock == old(clock) + 1
      ensures OwnBookings(bookings, b.userId, nextBookingId) == [b] + OwnBookings(old(bookings), b.userId, old(nextBookingId))
    {
      NewBookingListedFirst(bookings, b, nextBookingId);
      bookings := bookings[b.id := b];
      nextBookingId, clock := nextBookingId + 1, clock + 1;
    }

    /** `GET /bookings`: the guest's bookings, newest first, each joined with its room and hotel. */
    method ListBookings() returns (res: Response)
      requires Valid()
      modifies this`users, this`nextUserId
      ensures Valid()
      ensures HasGuest(users) && GuestResolved(old(users), users, old(nextUserId), nextUserId, users[GuestId()])
      ensures res == Response(200, BookingsBody(Views(OwnBookings(bookings, GuestId(), nextBookingId), rooms, hotels)))
      ensures !HasGuest(old(users)) ==> res.body.items == []
    {
      var user := GetOrCreateDefaultUser();
      if !HasGuest(old(users)) {
        OwnBookingsEmpty(bookings, user.id, nextBookingId);
      }
      res := Response(200, BookingsBody(Views(OwnBookings(bookings, user.id, nextBookingId), rooms, hotels)));
    }

    /**
     * `POST /bookings/:id/cancel`: cancels a confirmed booking; an already
     * cancelled one is returned as it is. No ownership check is made.
     */
    method CancelBooking(idParam: string) returns (res: Response)
      requires Valid()
      modifies this`bookings
      ensures Valid()
      ensures BookingsEvolve(old(bookings), bookings)
      ensures NumberOf(idParam).None? ==>
        res == Response(400, ErrorBody(InvalidBookingId)) && bookings == old(bookings)
      ensures NumberOf(idParam).Some? && NumberOf(idParam).value !in old(bookings) ==>
        res == Response(404, ErrorBody(BookingNotFound)) && bookings == old(bookings)
      ensures NumberOf(idParam).Some? && NumberOf(idParam).value in old(bookings) ==>
        var id := NumberOf(idParam).value;
        && res == Response(200, BookingBody(Cancel(old(bookings)[id])))
        && res.body.booking.status == Cancelled
        && bookings == old(bookings)[id := Cancel(old(bookings)[id])]
        && (old(bookings)[id].status == Cancelled ==> bookings == old(bookings))
    {
      var id := NumberOf(idParam);
      if id.None? {
        return Response(400, ErrorBody(InvalidBookingId));
      }
      if id.value !in bookings {
        return Response(404, ErrorBody(BookingNotFound));
      }
      var booking := bookings[id.value];
      if booking.status == Cancelled {
        return Response(200, BookingBody(booking));
      }
      var updated := Cancel(booking);
      bookings := bookings[id.value := updated];
      res := Response(200, BookingBody(updated));
    }
  }
}
