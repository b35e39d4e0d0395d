/**
 * The four stored tables' rows (users, hotels, rooms, bookings), the booking
 * status machine, and the shapes of the HTTP responses the routes send.
 */
module Entities {
  import opened Wrappers
  import opened Dates

  /** The identity every request acts as: there is no login. */
  const GuestEmail: string := "guest@example.com"
  const GuestName: string := "Guest User"
  const GuestPassword: string := "dummy-password"

  datatype User = User(id: int, email: string, name: string, password: string)

  datatype Hotel = Hotel(id: int, name: string, city: string, address: string, createdAt: nat)

  datatype Room = Room(id: int, hotelId: int, roomNumber: string, kind: string, price: int)

  datatype Status = Confirmed | Cancelled

  datatype Booking = Booking(
    id: int, userId: int, roomId: int,
    checkIn: Day, checkOut: Day,
    status: Status, createdAt: nat)

  /** A hotel with its rooms nested, as the catalog and the seed route return it. */
  datatype HotelView = HotelView(hotel: Hotel, rooms: seq<Room>)

  /**
   * A booking joined with its room and that room's hotel, where they exist.
   * The route nests the hotel inside the room; the model flattens it into a
   * sibling of the room.
   */
  datatype BookingView = BookingView(booking: Booking, room: Option<Room>, hotel: Option<Hotel>)

  /** The reason carried by every 4xx/5xx error body. */
  datatype ApiError =
    | MissingField              // 400: roomId, checkIn or checkOut absent or falsy
    | InvalidDate               // 400: a date does not parse
    | CheckInNotBeforeCheckOut  // 400: check-in is the same day as check-out or later
    | InvalidBookingId          // 400: the cancel route's id is NaN
    | BookingNotFound           // 404: no booking has that id
    | CreateFailed              // 500: the insert was rejected

  datatype Body =
    | HotelBody(view: HotelView)
    | HotelsBody(views: seq<HotelView>)
    | CreatedBody(created: Booking, room: Option<Room>, user: User)
    | BookingBody(booking: Booking)
    | BookingsBody(items: seq<BookingView>)
    | ErrorBody(error: ApiError)

  datatype Response = Response(status: int, body: Body)

  /**
   * The cancel transition: a confirmed booking becomes cancelled, a cancelled
   * one is left as it is, and nothing but the status ever changes.
   */
  function Cancel(b: Booking): (r: Booking)
    ensures r.status == Cancelled
    ensures r.(status := b.status) == b
    ensures b.status == Cancelled ==> r == b
  {
    if b.status == Cancelled then b else b.(status := Cancelled)
  }

  /** The changes a stored booking may undergo between two moments: none, or the cancel transition. */
  predicate StatusStep(before: Booking, after: Booking) {
    after == before || after == Cancel(before)
  }

  /** Bookings are never deleted and change only by the cancel transition. */
  predicate BookingsEvolve(before: map<int, Booking>, after: map<int, Booking>) {
    && before.Keys <= after.Keys
    && forall id :: id in before ==> StatusStep(before[id], after[id])
  }

  /**
   * Any sequence of operations that each keep `BookingsEvolve` keeps it as a
   * whole; in particular a cancelled booking never returns to confirmed.
   */
  lemma EvolveComposes(a: map<int, Booking>, b: map<int, Booking>, c: map<int, Booking>)
    requires BookingsEvolve(a, b) && BookingsEvolve(b, c)
    ensures BookingsEvolve(a, c)
    ensures forall id :: id in a && a[id].status == Cancelled ==> c[id] == a[id]
  {
    forall id | id in a
      ensures StatusStep(a[id], c[id])
    {
      assert StatusStep(a[id], b[id]) && StatusStep(b[id], c[id]);
      assert Cancel(Cancel(a[id])) == Cancel(a[id]);
    }
  }
}
