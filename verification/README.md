# Hotel booking workflow, modelled in Dafny

This project models the booking server of a small hotel-room booking demo.
The server keeps four tables: users, hotels, rooms and bookings. Every request
acts as one implicit guest user, `guest@example.com`, who is created the first
time someone needs it. The routes are:

- `POST /seed` adds a demo hotel, "Test Hotel" in Seoul, with rooms 101 (single, 100000) and 102 (double, 150000).
- `GET /hotels` lists every hotel with its rooms nested.
- `POST /bookings` validates `{roomId, checkIn, checkOut}` and stores a confirmed booking for the guest.
- `GET /bookings` lists the guest's bookings, newest first, each joined with its room and hotel.
- `POST /bookings/:id/cancel` moves a booking from confirmed to cancelled. A booking that is already cancelled is returned unchanged.

The database is modelled as a class, `BookingStore.Store`. It holds one map per
table, a next-id counter per table, and a creation clock that stands in for
`createdAt`. There is one method per route, and each returns a `Response`: the
HTTP status and the body. The object invariant `Valid()` says:

- every row is stored under its own id;
- emails are unique;
- rooms belong to stored hotels, and bookings to stored users;
- every booking's check-in is strictly before its check-out;
- creation times increase with booking ids.

Booking status only moves forward. `BookingsEvolve` states this as a relation
between the bookings table before and after a call. Every route that touches
bookings keeps it, and `EvolveComposes` shows that it holds across any sequence
of routes.

The pure parts of the routes are functions:

- the create route's three ordered checks (`Validation.ValidateBooking`);
- JavaScript truthiness and `Number` (`JsValues`);
- a restricted `YYYY-MM-DD` date parser with its inverse (`Dates`);
- the catalog and the listing as functions of the tables (`Queries`).

`Scenarios` calls the routes in sequence on a fresh store, with the example body the create route documents (server/src/index.js:138-143) and variations of it.

Files:

- `wrappers.dfy`: `Option`, `Lookup`.
- `text.dfy`: decimal digit strings.
- `dates.dfy`: calendar days and their parser.
- `js_values.dfy`: request-body values.
- `entities.dfy`: rows, the status machine, response shapes.
- `validation.dfy`: the create-booking checks.
- `queries.dfy`: catalog and listing.
- `store.dfy`: the store and its routes.
- `scenarios.dfy`: the routes called in sequence on a fresh store.

Three behaviours of the code are easy to misread; the model follows the code:

- A field counts as missing when it is falsy, not only when it is absent. So `roomId: 0`, `roomId: false` and `checkIn: ""` are all rejected as missing, while the string `"0"` is truthy and passes.
- The cancel route answers 400 only when `Number(id)` is NaN. An id that reads as a number but names no booking, such as `-1`, gets 404.
- The create route resolves the guest before it inserts the booking. So a request that passes validation but whose `roomId` reads as NaN still creates the guest, then fails with 500.

## Model

| member | source | states |
|---|---|---|
| `Validation.ValidateBooking` | server/src/index.js:150-171 | A body is refused as missing exactly when one of roomId/checkIn/checkOut is falsy; as an invalid date exactly when all are present and a date does not parse; as a bad range exactly when both parse and check-in is not strictly before check-out; an accepted body carries the two parsed days, check-in strictly first |
| `Validation.DateOf` | server/src/index.js:160-166 | a date value that parses is a string and yields a real calendar day |
| `Validation.RejectsEmptyOrReversedStay` | server/src/index.js:167-171 | check-in on the same day as check-out, or later, is always refused with the range error |
| `Validation.AcceptsEveryStay` | server/src/index.js:150-171 | every real stay of at least one night, sent as ISO dates with a truthy room id, is accepted with exactly those days |
| `Dates.ParseDay` | server/src/index.js:160-166 | whatever the parser accepts is a valid Gregorian day |
| `Dates.ParseFormat` | server/src/index.js:160-161 | rendering a valid day as YYYY-MM-DD and parsing it back gives the same day |
| `Dates.FormatParse` | server/src/index.js:160-161 | a string the parser accepts is exactly the rendering of the day it yields, so stored dates read back as sent |
| `Dates.BeforeIsStrictTotalOrder` | server/src/index.js:167 | day order is irreflexive, asymmetric, transitive and total, so `checkIn >= checkOut` means "not strictly before" |
| `JsValues.Truthy` | server/src/index.js:153 | a value is falsy exactly when it is `undefined`, `null`, `false`, `0` or `""` |
| `Dates.Before` | server/src/index.js:167 | on valid days, calendar order is the order of the days read as numbers YYYYMMDD, which is the order of their timestamps |
| `JsValues.NumberOf` | server/src/index.js:243-247 | the empty string reads as 0, a digit string as its decimal value, `-` followed by digits as the negated value, and every other string as NaN |
| `JsValues.NumberOfShowInt` | server/src/index.js:243 | `Number(String(n)) == n` for every integer id |
| `JsValues.ToNumber` | server/src/index.js:180 | a numeric roomId is stored as itself; an absent or object roomId is NaN |
| `Entities.Cancel` | server/src/index.js:258-269 | the cancel transition always ends in cancelled, changes no field but the status, and leaves a cancelled booking as it is |
| `Entities.EvolveComposes` | server/src/index.js:258-269 | the allowed booking changes compose: across any sequence of routes no booking disappears and a cancelled booking never changes again |
| `Queries.RoomsOfExact` | server/src/index.js:121-125 | a hotel's nested room list holds exactly its rooms, each once, in ascending id order (an order the model chooses) |
| `Queries.CatalogExact` | server/src/index.js:119-126 | the catalog holds exactly the stored hotels, each once in ascending id order (an order the model chooses), each with its own rooms |
| `Queries.CatalogPrefixAfterSeed` | server/src/index.js:82-103 | adding a new hotel and its rooms leaves every earlier catalog entry unchanged |
| `Queries.CatalogAfterSeed` | server/src/index.js:82-103 | seeding appends exactly one entry, the new hotel with its two rooms, to the end of the catalog |
| `Queries.OwnBookingsExact` | server/src/index.js:210-224 | the listing holds exactly the user's bookings, each once, with ids and creation times strictly decreasing (newest first) |
| `Queries.NewBookingListedFirst` | server/src/index.js:177-189 | a booking just created for a user heads that user's listing, ahead of all the earlier ones |
| `Queries.OwnBookingsEmpty` | server/src/index.js:208-213 | a user without bookings gets an empty listing |
| `Queries.ViewOf` | server/src/index.js:214-220 | a listed booking is joined with the room it names when that room is stored, and with that room's hotel when both are stored |
| `Queries.Views` | server/src/index.js:214-220 | joining a listing keeps its length and order |
| `BookingStore.GuestResolutionIsIdempotent` | server/src/index.js:40-60 | resolving the guest twice returns the same user and the second call changes nothing |
| `BookingStore.Store.GetOrCreateDefaultUser` | server/src/index.js:40-60 | returns the one user with the guest email; if none existed, it adds exactly `Guest User` under the next id, otherwise the users table is untouched; nothing else changes |
| `BookingStore.Store.Seed` | server/src/index.js:80-110 | adds exactly one hotel ("Test Hotel", Seoul) with rooms 101/single/100000 and 102/double/150000 under fresh ids, returns it with 200, and appends it to the catalog; each call adds another copy |
| `BookingStore.Store.AddHotel` | server/src/index.js:82-103 | a new hotel and its two rooms are stored under the next ids with the current creation time, keeping the invariant |
| `BookingStore.Store.ListHotels` | server/src/index.js:119-131 | answers 200 with exactly the stored hotels, in ascending id order, each with its own rooms |
| `BookingStore.Store.CreateBooking` | server/src/index.js:148-197 | a refused body gives 400 and changes nothing; after validation the guest is resolved; a NaN room id gives 500 and no booking; otherwise 201 with exactly one new confirmed booking for the guest, with a fresh id, the given room and the parsed days, all earlier bookings unchanged and the new one first in the guest's listing; the invariant, strict check-in before check-out included, is kept |
| `BookingStore.Store.Insert` | server/src/index.js:177-189 | a new booking is stored under the next id with the current creation time, keeping the invariant |
| `BookingStore.Store.ListBookings` | server/src/index.js:206-231 | resolves the guest, then answers 200 with exactly the guest's bookings, newest first, each joined with its room and hotel |
| `BookingStore.Store.CancelBooking` | server/src/index.js:240-277 | a NaN id gives 400 and an unknown id 404, both changing nothing; otherwise 200 with the booking cancelled; an already cancelled one is returned unchanged and nothing changes, and a confirmed one has only its status changed |
| `Scenarios.SeedThenList` | server/src/index.js:80-131 | on a fresh database, seeding then listing shows exactly Test Hotel with rooms 101 and 102 |
| `Scenarios.SeedTwice` | server/src/index.js:80-103 | seeding twice stores two Test Hotels under ids 1 and 2 |
| `Scenarios.ReversedStayRefused` | server/src/index.js:167-171 | booking 2025-12-01 to 2025-11-30 answers 400 and stores nothing |
| `Scenarios.ZeroRoomIdRefused` | server/src/index.js:153-157 | `roomId: 0` counts as missing and stores nothing |
| `Scenarios.CreateThenList` | server/src/index.js:173-224 | a booking for 2025-12-01 to 2025-12-03 is created for the guest and reads back confirmed with the same days |
| `Scenarios.CancelTwice` | server/src/index.js:240-277 | cancelling the same booking twice answers 200 with the same cancelled booking both times; id "2" gives 404, id "x" gives 400 |
| `Scenarios.GuestResolvedOnce` | server/src/index.js:40-60 | resolving the guest twice on a fresh database returns the same user and creates one |
| `Scenarios.DemoIds` | server/src/index.js:243-247 | the id parameters "1" and "2" read as numbers and "x" reads as NaN |
| `Scenarios.DemoDays` | server/src/index.js:160-161 | the demo date strings parse to the days they name |

## Left out

- HTTP plumbing: the Express app, CORS and JSON middleware, route registration, the health route `GET /`, and `app.listen` (server/src/index.js:7-29, 69-71, 283-287).
- Storage failures. Each route's catch block turns a database error into a 500. Only one such failure is modelled: the create route's insert rejects a `roomId` that reads as NaN.
- Foreign keys. The database would reject a booking for a room that does not exist. The model stores it anyway, because the route itself does not look the room up, and the joined room then reads as `None`.
- Concurrency: the race between two first calls that both create the guest. The model runs one route at a time.
- JavaScript `Date` parsing. `new Date(v)` is modelled only for strings of the exact shape `YYYY-MM-DD` naming a real day; any other value is an invalid date. Real engines also accept timestamps, other string formats and, in some engines, out-of-range days.
- ValidateBooking: does not model numeric or boolean `checkIn`/`checkOut`, which JavaScript turns into valid timestamps; the model rejects them as invalid dates.
- NumberOf: reads only an optional `-` followed by decimal digits, plus the empty string as 0. Whitespace, `+`, hexadecimal, exponents, fractions and `Infinity`, all of which JavaScript accepts, read as NaN here. The model's values are exact integers: JavaScript numbers are doubles, so a digit string above 2^53 is rounded (`Number("9007199254740993")` is 9007199254740992), which the model does not do.
- ToNumber: numbers are integers. A fractional room id, which the database rejects as 500, cannot be expressed. Arrays count as objects and read as NaN.
- ListHotels: `findMany` on hotels and on their rooms asks for no order, so the database promises none; the model chooses ascending id (insertion order) for both.
- Queries.ViewOf: the route nests the hotel inside the room; the model returns room and hotel side by side.
- `createdAt` is a strictly increasing counter, so two bookings never tie. The database clock has millisecond resolution, and its order between bookings created in the same millisecond is not modelled.
- Error message texts. Each error body carries an `ApiError` reason instead of the route's message string.
- The client (`client/src/`), which only renders the server's answers and repeats the date check before sending.
