/**
 * What the read routes return, as functions of the tables: the hotel catalog
 * with nested rooms, and one user's bookings newest first. The hotel route
 * asks for no order; the model fixes one, ascending id (hotels and their
 * rooms alike). Bookings are ordered by creation time, which increases with
 * the id.
 */
module Queries {
  import opened Wrappers
  import opened Entities

  /** Every room is stored under its own id, which is positive. */
  predicate RoomsKeyed(rooms: map<int, Room>) {
    forall id :: id in rooms ==> rooms[id].id == id && id >= 1
  }

  predicate HotelsKeyed(hotels: map<int, Hotel>) {
    forall id :: id in hotels ==> hotels[id].id == id && id >= 1
  }

  predicate BookingsKeyed(bookings: map<int, Booking>) {
    forall id :: id in bookings ==> bookings[id].id == id && id >= 1
  }

  /** Later bookings (higher ids) were created strictly later. */
  predicate CreatedInIdOrder(bookings: map<int, Booking>) {
    forall i, j :: i in bookings && j in bookings && i < j ==> bookings[i].createdAt < bookings[j].createdAt
  }

  // ---------------------------------------------------------------- catalog

  /** The rooms of hotel `hotelId` among ids below `hi`, in id order. */
  function RoomsOf(rooms: map<int, Room>, hotelId: int, hi: int): seq<Room>
    decreases hi
  {
    if hi <= 1 then []
    else RoomsOf(rooms, hotelId, hi - 1)
         + (if hi - 1 in rooms && rooms[hi - 1].hotelId == hotelId then [rooms[hi - 1]] else [])
  }

  /** Every hotel with id below `hi`, each with its rooms (ids below `roomHi`) nested, in id order. */
  function Catalog(hotels: map<int, Hotel>, rooms: map<int, Room>, roomHi: int, hi: int): seq<HotelView>
    decreases hi
  {
    if hi <= 1 then []
    else Catalog(hotels, rooms, roomHi, hi - 1)
         + (if hi - 1 in hotels then [HotelView(hotels[hi - 1], RoomsOf(rooms, hi - 1, roomHi))] else [])
  }

  /** `RoomsOf` lists exactly that hotel's rooms below `hi`, in strictly increasing id order. */
  lemma {:induction false} RoomsOfExact(rooms: map<int, Room>, hotelId: int, hi: int)
    requires RoomsKeyed(rooms)
    ensures forall r :: r in RoomsOf(rooms, hotelId, hi) <==>
      r.id < hi && r.id in rooms && rooms[r.id] == r && r.hotelId == hotelId
    ensures forall i, j :: 0 <= i < j < |RoomsOf(rooms, hotelId, hi)| ==>
      RoomsOf(rooms, hotelId, hi)[i].id < RoomsOf(rooms, hotelId, hi)[j].id
  {
    if hi > 1 {
      RoomsOfExact(rooms, hotelId, hi - 1);
    }
  }

  /** The catalog holds exactly the hotels below `hi`, in increasing id order, each with its own rooms. */
  lemma {:induction false} CatalogExact(hotels: map<int, Hotel>, rooms: map<int, Room>, roomHi: int, hi: int)
    requires HotelsKeyed(hotels)
    ensures forall v :: v in Catalog(hotels, rooms, roomHi, hi) <==>
      && v.hotel.id < hi && v.hotel.id in hotels && hotels[v.hotel.id] == v.hotel
      && v.rooms == RoomsOf(rooms, v.hotel.id, roomHi)
    ensures forall i, j :: 0 <= i < j < |Catalog(hotels, rooms, roomHi, hi)| ==>
      Catalog(hotels, rooms, roomHi, hi)[i].hotel.id < Catalog(hotels, rooms, roomHi, hi)[j].hotel.id
  {
    if hi > 1 {
      CatalogExact(hotels, rooms, roomHi, hi - 1);
    }
  }

  /** Rooms in `[lo, hi)` that belong to other hotels do not change a hotel's room list. */
  lemma {:induction false} RoomsOfSkip(rooms: map<int, Room>, hotelId: int, lo: int, hi: int)
    requires 1 <= lo <= hi
    requires forall id :: lo <= id < hi && id in rooms ==> rooms[id].hotelId != hotelId
    ensures RoomsOf(rooms, hotelId, hi) == RoomsOf(rooms, hotelId, lo)
    decreases hi
  {
    if hi > lo {
      RoomsOfSkip(rooms, hotelId, lo, hi - 1);
    }
  }

  /** A hotel's room list depends only on the rooms below `hi`. */
  lemma {:induction false} RoomsOfAgree(a: map<int, Room>, b: map<int, Room>, hotelId: int, hi: int)
    requires forall id :: id < hi ==> Lookup(a, id) == Lookup(b, id)
    ensures RoomsOf(a, hotelId, hi) == RoomsOf(b, hotelId, hi)
    decreases hi
  {
    if hi > 1 {
      RoomsOfAgree(a, b, hotelId, hi - 1);
      assert Lookup(a, hi - 1) == Lookup(b, hi - 1);
    }
  }

  /** Seeding a new hotel and its rooms leaves every earlier catalog entry as it was. */
  lemma {:induction false} CatalogPrefixAfterSeed(
    hotels: map<int, Hotel>, rooms: map<int, Room>, roomHi: int,
    h: Hotel, r1: Room, r2: Room, hi: int)
    requires 1 <= roomHi && hi <= h.id
    requires forall id :: id in rooms ==> id < roomHi
    requires r1.id == roomHi && r2.id == roomHi + 1 && r1.hotelId == h.id && r2.hotelId == h.id
    ensures Catalog(hotels[h.id := h], rooms[r1.id := r1][r2.id := r2], roomHi + 2, hi)
         == Catalog(hotels, rooms, roomHi, hi)
    decreases hi
  {
    var rooms' := rooms[r1.id := r1][r2.id := r2];
    if hi > 1 {
      CatalogPrefixAfterSeed(hotels, rooms, roomHi, h, r1, r2, hi - 1);
      if hi - 1 in hotels {
        RoomsOfSkip(rooms', hi - 1, roomHi, roomHi + 2);
        forall id | id < roomHi ensures Lookup(rooms', id) == Lookup(rooms, id) { }
        RoomsOfAgree(rooms', rooms, hi - 1, roomHi);
      }
    }
  }

  /**
   * Seeding appends exactly one entry to the end of the catalog, the new hotel
   * with its two new rooms, and leaves every earlier entry as it was.
   */
  lemma CatalogAfterSeed(
    hotels: map<int, Hotel>, rooms: map<int, Room>, hotelHi: int, roomHi: int,
    h: Hotel, r1: Room, r2: Room)
    requires 1 <= hotelHi && 1 <= roomHi
    requires forall id :: id in hotels ==> id < hotelHi
    requires forall id :: id in rooms ==> id < roomHi && rooms[id].hotelId in hotels
    requires h.id == hotelHi && r1.id == roomHi && r2.id == roomHi + 1
    requires r1.hotelId == hotelHi && r2.hotelId == hotelHi
    ensures Catalog(hotels[h.id := h], rooms[r1.id := r1][r2.id := r2], roomHi + 2, hotelHi + 1)
         == Catalog(hotels, rooms, roomHi, hotelHi) + [HotelView(h, [r1, r2])]
  {
    var rooms' := rooms[r1.id := r1][r2.id := r2];
    CatalogPrefixAfterSeed(hotels, rooms, roomHi, h, r1, r2, hotelHi);
    // Below roomHi no room belongs to the new hotel.
    RoomsOfSkip(rooms', hotelHi, 1, roomHi);
    assert RoomsOf(rooms', hotelHi, roomHi + 2) == [r1, r2];
  }

  // ---------------------------------------------------------------- bookings

  /** The bookings of user `userId` among ids below `hi`, highest id first. */
  function OwnBookings(bookings: map<int, Booking>, userId: int, hi: int): seq<Booking>
    decreases hi
  {
    if hi <= 1 then []
    else (if hi - 1 in bookings && bookings[hi - 1].userId == userId then [bookings[hi - 1]] else [])
         + OwnBookings(bookings, userId, hi - 1)
  }

  /**
   * The listing holds exactly the user's bookings below `hi`, each once, newest
   * first: ids strictly decrease, and so do creation times.
   */
  lemma {:induction false} OwnBookingsExact(bookings: map<int, Booking>, userId: int, hi: int)
    requires BookingsKeyed(bookings) && CreatedInIdOrder(bookings)
    ensures forall b :: b in OwnBookings(bookings, userId, hi) <==>
      b.id < hi && b.id in bookings && bookings[b.id] == b && b.userId == userId
    ensures forall i, j :: 0 <= i < j < |OwnBookings(bookings, userId, hi)| ==>
      && OwnBookings(bookings, userId, hi)[i].id > OwnBookings(bookings, userId, hi)[j].id
      && OwnBookings(bookings, userId, hi)[i].createdAt > OwnBookings(bookings, userId, hi)[j].createdAt
    decreases hi
  {
    if hi > 1 {
      OwnBookingsExact(bookings, userId, hi - 1);
    }
  }

  /** The listing depends only on the bookings below `hi`. */
  lemma {:induction false} OwnBookingsAgree(a: map<int, Booking>, b: map<int, Booking>, userId: int, hi: int)
    requires forall id :: id < hi ==> Lookup(a, id) == Lookup(b, id)
    ensures OwnBookings(a, userId, hi) == OwnBookings(b, userId, hi)
    decreases hi
  {
    if hi > 1 {
      OwnBookingsAgree(a, b, userId, hi - 1);
      assert Lookup(a, hi - 1) == Lookup(b, hi - 1);
    }
  }

  /** A booking just created for the user with the next id heads that user's listing. */
  lemma NewBookingListedFirst(bookings: map<int, Booking>, b: Booking, hi: int)
    requires 1 <= hi && b.id == hi
    requires forall id :: id in bookings ==> id < hi
    ensures OwnBookings(bookings[b.id := b], b.userId, hi + 1) == [b] + OwnBookings(bookings, b.userId, hi)
  {
    forall id | id < hi ensures Lookup(bookings[b.id := b], id) == Lookup(bookings, id) { }
    OwnBookingsAgree(bookings[b.id := b], bookings, b.userId, hi);
  }

  /** A user who owns no booking has an empty listing. */
  lemma {:induction false} OwnBookingsEmpty(bookings: map<int, Booking>, userId: int, hi: int)
    requires forall id :: id in bookings ==> bookings[id].userId != userId
    ensures OwnBookings(bookings, userId, hi) == []
    decreases hi
  {
    if hi > 1 {
      OwnBookingsEmpty(bookings, userId, hi - 1);
    }
  }

  /** A booking joined with its room and that room's hotel. */
  function ViewOf(b: Booking, rooms: map<int, Room>, hotels: map<int, Hotel>): (v: BookingView)
    ensures v.booking == b
    ensures v.room == Lookup(rooms, b.roomId)
    ensures v.hotel == (if b.roomId in rooms then Lookup(hotels, rooms[b.roomId].hotelId) else None)
  {
    var room := Lookup(rooms, b.roomId);
    BookingView(b, room, if room.Some? then Lookup(hotels, room.value.hotelId) else None)
  }

  /** Joins every booking of a listing, keeping its order. */
  function Views(bs: seq<Booking>, rooms: map<int, Room>, hotels: map<int, Hotel>): (r: seq<BookingView>)
    ensures |r| == |bs|
    ensures forall i :: 0 <= i < |bs| ==> r[i] == ViewOf(bs[i], rooms, hotels)
  {
    if bs == [] then [] else [ViewOf(bs[0], rooms, hotels)] + Views(bs[1..], rooms, hotels)
  }
}
