# Hotel booking app: a verified model

This project models the logic at the centre of a small hotel app in Dafny 4. The app has an Express/Prisma API (`simple_api`) and a React client (`my-hotel-app`). The model covers:

- **the booking engine**: the nightly price, the three-clause availability query against a room's active bookings, and creating, updating, listing and deleting bookings with their pagination metadata;
- **the room and hotel tables**: filtered listings, lookups with their "not found" errors, room-number uniqueness per hotel on create and update, and the paged hotel listing with its metadata;
- **the request validators** (zod schemas) of the API and of the client forms, as functions from the raw fields to `Option` (None is a rejected request);
- **the client's list and cache logic**: the amenity checkbox toggle, the amenity chips of a hotel card, the room-form defaults and submit trim, the error text of the room mutations, and the optimistic cache edits of the hotel and room mutation hooks, with their rollback.

State is modelled where the code changes it in place:

- The database is the class `Store.Database`. Its fields `hotels`, `rooms` and `bookings` are sequences kept in creation order.
- The react-query cache is the class `QueryCache.QueryClient`. It holds the `["hotels"]` list, the `["hotel", id]` details and the `["rooms", { hotelId }]` lists.
- The submitted room-form object is the class `RoomForm.SubmittedValues`.
- The service operations that write are methods with `modifies` clauses. They state the whole new state, and which table invariants they keep: unique ids, unique room numbers per hotel, and no double booking.
- The queries and validators are functions, each proved against independent predicates.

Modelling conventions:

- Dates are integers (milliseconds), and "today" is a parameter. Prices are integers.
- Generated ids (cuid) are parameters that must be fresh.
- Prisma's errors for a missing row are the constants in `Store`. These are "Record to update not found.", "Record to delete does not exist.", and the foreign-key failure on `hotelId`.
- JavaScript truthiness is kept where the code relies on it:
  - `filters.page || 1`;
  - `if (filters.maxPrice)`, which ignores a bound of 0;
  - `if (data.roomNumber)`, which skips the duplicate check for "";
  - `excludeBookingId ? … : undefined`.

Two behaviours of the code as written are exhibited by lemmas rather than corrected:

- An update that gives only one date can store an inverted stay. See `BookingSchemas.SingleDateUpdateCanInvertStay`.
- A status-only update that reactivates a cancelled booking is not checked against other bookings. See `BookingService.ReactivationCanDoubleBook`.

Other gaps are exhibited the same way:

- Renaming a room to a number that a room of another hotel holds is refused as "Room number already exists in this hotel". The update schema strips hotelId, so updateRoom's duplicate check runs across all hotels: `RoomSchemas.RenameClashesAcrossHotels` and `RoomSchemas.RenameToOtherHotelsNumberRefused`.
- At the service level only, moving a room to another hotel without giving a number is not checked: `RoomService.MoveWithoutNumberCanDuplicate`. PUT /rooms/:id cannot send such a patch, because the update schema has no hotelId (`RoomSchemas.ValidatedUpdateKeepsNumbersUnique`).
- The client accepts room numbers the API rejects: `RoomForms.LongNumberPassesFormOnly` and `RoomForm.BlankNumberPassesFormOnly`.

## Model

| member | source | states |
|---|---|---|
| Entities.ParseRoomType | simple_api/src/schemas/roomSchemas.js:4 | a room type is accepted exactly when it is one of SINGLE, DOUBLE, SUITE, FAMILY, and it spells back to the input |
| Entities.RoomTypeRoundTrip | simple_api/src/schemas/roomSchemas.js:9-12 | every room type's name is accepted and read back as that type |
| Entities.ParseStatus | simple_api/src/schemas/bookingSchemas.js:4 | a status is accepted exactly when it is PENDING, CONFIRMED or CANCELLED, and it spells back to the input |
| Entities.StatusRoundTrip | simple_api/src/schemas/bookingSchemas.js:19 | every booking status's name is read back as that status |
| Entities.FindRoom | simple_api/src/services/bookingService.js:20-22 | findUnique on rooms: a room with the id is found exactly when one is stored |
| Entities.HotelIndex | simple_api/src/services/roomService.js:58-60 | findUnique on hotels: a position holding the id, or None exactly when no hotel has it |
| Entities.RoomIndex | simple_api/src/services/roomService.js:109-111 | the position of the room with the id, or None exactly when no room has it |
| Entities.BookingIndex | simple_api/src/services/bookingService.js:201-204 | the position of the booking with the id, or None exactly when no booking has it |
| Text.TrimStart | my-hotel-app/src/features/hotels/domain/hotel.ts:5 | the suffix of the input left once its leading whitespace is gone: everything dropped is whitespace and the rest starts with a non-whitespace character |
| Text.TrimEnd | my-hotel-app/src/features/hotels/domain/hotel.ts:5 | the prefix of the input left once its trailing whitespace is gone: everything dropped is whitespace and the rest ends with a non-whitespace character |
| Text.Trim | my-hotel-app/src/features/hotels/domain/hotel.ts:5 | String.prototype.trim: no longer than the input, and neither starting nor ending with whitespace |
| Text.TrimIdempotent | my-hotel-app/src/features/hotels/domain/hotel.ts:5 | trimming twice is trimming once |
| Text.TrimIsSlice | my-hotel-app/src/features/hotels/domain/hotel.ts:9 | the trim is the contiguous slice of the input that starts where the leading whitespace ends |
| Text.TrimRemovesOnlyWhitespace | my-hotel-app/src/features/hotels/domain/hotel.ts:9 | every character trim drops, before or after that slice, is whitespace |
| Text.BlankTrimsToEmpty | my-hotel-app/src/features/rooms/hooks/useRoomForm.ts:49 | a string of whitespace only trims to "" |
| Text.ParseInteger | simple_api/src/schemas/hotelSchemas.js:24 | Number(v) on integer text: blank text reads as 0; after trimming, a run of digits reads as its value and a sign followed by digits as the signed value; every other text is rejected |
| Text.PaddedSignedReading | simple_api/src/schemas/hotelSchemas.js:24 | " +05 " reads as 5: padding, a plus sign and leading zeros are accepted |
| Text.NegativeReading | simple_api/src/schemas/hotelSchemas.js:24 | "-3" reads as -3 |
| Text.NonNumericRejected | simple_api/src/schemas/hotelSchemas.js:24 | "12a" and a bare "-" are not numbers |
| Text.ParseDigits | simple_api/src/schemas/hotelSchemas.js:24 | Number(v) on a non-empty run of digits is the value of those digits |
| Text.DecimalRoundTrip | simple_api/src/schemas/hotelSchemas.js:24 | the decimal spelling of a natural number reads back as that number |
| Arith.CeilDiv | simple_api/src/services/bookingService.js:10 | Math.ceil(a / b) for b > 0: the q with (q-1)·b < a ≤ q·b, for either sign of a |
| Arith.CeilDivUnique | simple_api/src/services/bookingService.js:112 | that bracket determines the ceiling uniquely |
| Arith.CeilDivExact | simple_api/src/services/bookingService.js:112 | an exact multiple k·b divides to k |
| Arith.CeilDivSign | simple_api/src/services/hotelService.js:71 | a non-negative amount divides to a non-negative count, which is 0 exactly when the amount is 0 |
| Paging.Skip | simple_api/src/services/hotelService.js:61 | skip = (page − 1) · perPage, never negative |
| Paging.PageSlice | simple_api/src/services/bookingService.js:106-107 | findMany's skip/take: min(take, max(0, n − skip)) rows, row i being row skip + i |
| Paging.MoreRowsIffBeforeLastPage | simple_api/src/services/hotelService.js:64-73 | when the page holds min(perPage, max(0, total − skip)) rows, skip + rows < total exactly when page < ceil(total / perPage) |
| Paging.RowOnItsPage | simple_api/src/services/hotelService.js:61-65 | row i of the ordered result is row i mod perPage of page i / perPage + 1 |
| BookingService.Nights | simple_api/src/services/bookingService.js:10 | the nights charged are the ceiling of the stay's length in days: (n−1)·day < checkOut − checkIn ≤ n·day |
| BookingService.CalculateTotalPrice | simple_api/src/services/bookingService.js:7-12 | the rate times the nights: a non-empty stay is charged at least one night, and a stay of at most one day costs exactly the nightly rate |
| BookingService.TotalPriceWholeDays | simple_api/src/services/bookingService.js:7-12 | a stay of exactly d days costs d × pricePerNight |
| BookingService.PartialDayIsWholeNight | simple_api/src/services/bookingService.js:10 | a started day is charged as a whole night |
| BookingService.TwoNightsExample | simple_api/src/services/bookingService.js:7-12 | 2024-01-01 to 2024-01-03 at 100 a night costs 200 |
| BookingService.OverlapClausesIffIntersect | simple_api/src/services/bookingService.js:38-54 | for non-empty stays the three OR clauses hold exactly when existing.checkIn < new.checkOut and existing.checkOut > new.checkIn |
| BookingService.IntersectionIsCaught | simple_api/src/services/bookingService.js:38-54 | for a non-empty new stay every intersecting existing stay matches a clause |
| BookingService.BackToBackNeverConflicts | simple_api/src/services/bookingService.js:38-54 | stays that only share a changeover instant never conflict |
| BookingService.CheckRoomAvailability | simple_api/src/services/bookingService.js:15-62 | 'Room not found' for a missing room and 'Room is not available for booking' for an unbookable one, both before the overlap query. Otherwise the conflicts are exactly the bookings of the room that are PENDING or CONFIRMED, not excluded, and match a clause. The stay is available exactly when there are none |
| BookingService.AvailableIffNoIntersectingStay | simple_api/src/services/bookingService.js:33-60 | for non-empty stays: available exactly when no active, non-excluded booking of the room intersects the requested stay |
| BookingService.IrrelevantBookingsIgnored | simple_api/src/services/bookingService.js:35-37 | adding cancelled bookings, bookings of other rooms or the excluded booking never changes the answer |
| BookingService.AppendKeepsNoDoubleBooking | simple_api/src/services/bookingService.js:159-180 | storing a non-empty stay that conflicts with nothing keeps the table free of double bookings |
| BookingService.CreateBooking | simple_api/src/services/bookingService.js:151-196 | the availability errors come first, then 'Room is not available for the selected dates'. On those errors nothing is stored. Otherwise exactly one booking is appended: the data with the fresh id and totalPrice = calculateTotalPrice(room rate, checkIn, checkOut). Unique ids are kept, and so is the no-double-booking invariant for a non-empty stay |
| BookingService.ApplyPatch | simple_api/src/services/bookingService.js:235-241 | the given fields replace the stored ones; id and room never change |
| BookingService.SameStayKeepsNoDoubleBooking | simple_api/src/services/bookingService.js:239-241 | rewriting a booking with its room, stay and status unchanged keeps no double booking |
| BookingService.ReplaceKeepsNoDoubleBooking | simple_api/src/services/bookingService.js:213-222 | rewriting a booking to a non-empty stay that conflicts with no other booking (its own id excluded) keeps no double booking |
| BookingService.UpdateBooking | simple_api/src/services/bookingService.js:198-257 | with a date given: 'Booking not found' for a missing booking; the stay completed from the stored one; the check run excluding the booking's own id; 'Room is not available for the updated dates' on conflict; the total re-priced. Without dates the patch is written as it is, a missing row failing with Prisma's update error. Nothing changes on error. Unique ids are kept, and no double booking is kept for a non-empty new stay or a patch without dates or status |
| BookingService.ReactivationCanDoubleBook | simple_api/src/services/bookingService.js:200 | a status-only update turning a cancelled booking back to CONFIRMED skips the check and can double-book |
| BookingService.MatchingBookings | simple_api/src/services/bookingService.js:68-84 | the listed bookings are exactly the stored ones that satisfy every supplied, non-empty filter |
| BookingService.OrDefault | simple_api/src/services/bookingService.js:86-87 | `n \|\| default`: an absent or zero value takes the default |
| BookingService.BuildWhere | simple_api/src/services/bookingService.js:65-84 | the assembled `where` holds of a booking exactly when every supplied filter does (roomId, status, guestEmail, checkIn range, hotel through the room) |
| BookingService.WhereSelectsMatching | simple_api/src/services/bookingService.js:90-109 | a `where` that agrees with the filters selects the matching bookings, newest first |
| BookingService.QueryBookings | simple_api/src/services/bookingService.js:90-110 | the findMany/count pair returns the matching bookings, newest first |
| BookingService.GetAllBookings | simple_api/src/services/bookingService.js:64-125 | page = page \|\| 1, limit = limit \|\| 10 and skip = (page−1)·limit. The rows are that slice of the matching bookings, at most limit of them. total is the match count and totalPages its ceiling over limit. hasPrev ⇔ page > 1, and hasNext ⇔ page < totalPages ⇔ more rows follow this page |
| BookingService.Pagination | simple_api/src/services/bookingService.js:112-123 | the pagination record echoes page, limit and total. totalPages is 0 for no matches, and otherwise the least count of limit-sized pages that holds total. hasPrev ⇔ page > 1, and hasNext ⇔ page < totalPages ⇔ rows remain after this page |
| BookingService.GetBookingById | simple_api/src/services/bookingService.js:127-149 | 'Booking not found' exactly when no booking has the id, else a stored booking with that id |
| BookingService.ByCheckIn | simple_api/src/services/bookingService.js:284 | orderBy checkIn asc: a permutation of its input, ascending by check-in |
| BookingService.GetBookingsByRoom | simple_api/src/services/bookingService.js:265-291 | 'Room not found' exactly when the room is missing; else that room and its bookings, ascending by check-in, as a permutation of the room's rows (each stored booking exactly as often as it is stored) |
| BookingService.GetBookingsByHotel | simple_api/src/services/bookingService.js:293-327 | 'Hotel not found' exactly when the hotel is missing; else the bookings of its rooms, ascending by check-in, as a permutation of those rows |
| BookingService.DeleteBooking | simple_api/src/services/bookingService.js:259-263 | a missing id fails with Prisma's delete error and changes nothing; else exactly that booking is removed |
| RoomService.MatchingRooms | simple_api/src/services/roomService.js:7-17 | exactly the rooms satisfying every supplied filter (hotelId, type, isAvailable, price ≥ minPrice, ≤ maxPrice; empty ids and zero bounds ignored), newest first |
| RoomService.BuildWhere | simple_api/src/services/roomService.js:7-17 | the assembled `where` holds of a room exactly when every supplied filter does |
| RoomService.GetAllRooms | simple_api/src/services/roomService.js:6-33 | the listing is the matching rooms, newest first |
| RoomService.NoFiltersListsAll | simple_api/src/services/roomService.js:19-30 | with no filters every room is listed, newest first |
| RoomService.ZeroMaxPriceIgnored | simple_api/src/services/roomService.js:13-16 | a maxPrice of 0 is falsy and filters nothing |
| RoomService.FalseAvailabilityFilters | simple_api/src/services/roomService.js:12 | isAvailable = false is applied (an available room is excluded), unlike a zero price bound |
| RoomService.GetRoomById | simple_api/src/services/roomService.js:35-54 | 'Room not found' exactly when no room has the id, else a stored room with that id |
| RoomService.AppendKeepsNumbersUnique | simple_api/src/services/roomService.js:66-78 | adding a room whose number is free in its hotel keeps room numbers unique per hotel |
| RoomService.CreateRoom | simple_api/src/services/roomService.js:56-91 | 'Hotel not found' for a missing hotel, then 'Room number already exists in this hotel' for a taken number; on error nothing changes. Otherwise exactly one room is appended with the fresh id. Uniqueness of numbers and ids is kept, and every room still belongs to a stored hotel |
| RoomService.ApplyPatch | simple_api/src/services/roomService.js:109-111 | the given fields replace the stored ones; the id never changes |
| RoomService.ReplaceKeepsNumbersUnique | simple_api/src/services/roomService.js:95-107 | rewriting a room to a number no other room of its hotel has keeps numbers unique |
| RoomService.SameKeyKeepsNumbersUnique | simple_api/src/services/roomService.js:109-111 | rewriting a room with its hotel and number unchanged keeps numbers unique |
| RoomService.ReplaceKeepsIdsAndHotels | simple_api/src/services/roomService.js:109-111 | rewriting a room under its own id, in its old hotel or one that exists, keeps ids unique and every room's hotel present |
| RoomService.UpdateRoom | simple_api/src/services/roomService.js:93-123 | a non-empty number held by another room fails with 'Room number already exists in this hotel'. When the payload names no hotel, that check spans all hotels; a room never conflicts with itself. Without a clash, a missing room gives P2025 (record to update not found) and then a missing named hotel gives P2003 (foreign key failed); the update succeeds exactly when there is no clash, the room exists and any hotel named exists, and then the patch is written in place. Nothing changes on error. Ids, hotel references and, for a checked number or an untouched hotel and number, number uniqueness are kept |
| RoomService.MoveWithoutNumberCanDuplicate | simple_api/src/services/roomService.js:95 | at the service level, a patch that moves a room to another hotel without a new number skips the check and can duplicate a number there; the update route never sends such a patch |
| RoomService.DeleteRoom | simple_api/src/services/roomService.js:125-129 | a missing id fails with Prisma's delete error and changes nothing; else exactly that room is removed |
| RoomService.DeleteRemovesOnlyThatRoom | simple_api/src/services/roomService.js:125-129 | with unique ids, the rooms left are exactly those with another id |
| RoomService.ByRoomNumber | simple_api/src/services/roomService.js:143 | orderBy roomNumber asc: a permutation of its input, ascending by code points |
| RoomService.GetRoomsByHotel | simple_api/src/services/roomService.js:131-153 | 'Hotel not found' exactly when the hotel is missing; else that hotel's rooms, ascending by room number, as a permutation of those rows |
| HotelService.GetAllHotels | simple_api/src/services/hotelService.js:12-17 | every stored hotel, newest first |
| HotelService.GetHotelById | simple_api/src/services/hotelService.js:19-29 | 'Hotel not found' exactly when no hotel has the id, else a stored hotel with that id |
| HotelService.CreateHotel | simple_api/src/services/hotelService.js:31-39 | exactly one hotel is appended, with the fresh id and the given fields, and read back unchanged; unique ids are kept |
| HotelService.ApplyPatch | simple_api/src/services/hotelService.js:42-45 | a given amenity list, even empty, replaces the stored one; an absent one leaves it |
| HotelService.ApplyPatchLaws | simple_api/src/services/hotelService.js:41-52 | an empty patch changes nothing, and patching twice is patching once |
| HotelService.UpdateHotel | simple_api/src/services/hotelService.js:41-52 | a missing id fails with Prisma's update error and changes nothing; else the patch is written in place and read back |
| HotelService.DeleteHotel | simple_api/src/services/hotelService.js:54-58 | a missing id fails with Prisma's delete error; else exactly that hotel row is removed |
| HotelService.Ordered | simple_api/src/services/hotelService.js:62 | orderBy createdAt/id asc keeps creation order and desc reverses it |
| HotelService.Meta | simple_api/src/services/hotelService.js:71-87 | totalPages is 0 for no rows and otherwise ceil(total/per_page); hasPrev ⇔ page > 1; hasNext ⇔ page < totalPages; prevPage and nextPage are set exactly when hasPrev and hasNext |
| HotelService.ListHotelsPaged | simple_api/src/services/hotelService.js:60-89 | the defaults are page 1, per_page 10 and order desc. data is the slice at skip = (page−1)·per_page of the ordered table, and the meta is as above, with hasNext computed as skip + rows < total |
| HotelService.EveryHotelOnItsPage | simple_api/src/services/hotelService.js:61-65 | every hotel appears on the page its position gives, in either order |
| HotelService.PastTheEndIsEmpty | simple_api/src/services/hotelService.js:73 | a page past the last one is empty and has no next page |
| BookingSchemas.ParseStatusOrPending | simple_api/src/schemas/bookingSchemas.js:19 | an absent status defaults to PENDING; a given one must be a known status |
| BookingSchemas.ParseCreateBooking | simple_api/src/schemas/bookingSchemas.js:14-40 | a create body is accepted exactly when every required field is present, the room id is non-empty, the guest name has 2 to 100 characters, checkOut is after checkIn, checkIn is not before today's start, and the status is absent or one of PENDING, CONFIRMED, CANCELLED; the booking carries the given values and that status, PENDING when absent |
| BookingSchemas.CreateRoundTrip | simple_api/src/schemas/bookingSchemas.js:30-40 | every valid booking is accepted back from its own request body |
| BookingSchemas.StatusDefaultsToPending | simple_api/src/schemas/bookingSchemas.js:19 | a create body without a status books as PENDING |
| BookingSchemas.MissingStatusIsAccepted | simple_api/src/schemas/bookingSchemas.js:19 | every valid body without a status is accepted, as a PENDING booking |
| BookingSchemas.UnknownStatusRejected | simple_api/src/schemas/bookingSchemas.js:4 | a status other than the three names fails both the create and the update schema |
| BookingSchemas.ParseUpdateBooking | simple_api/src/schemas/bookingSchemas.js:43-59 | accepted exactly when a given name has 2 to 100 characters, a given status is one of the three names, and checkOut is after checkIn when both dates are given; the patch carries the given fields and no price |
| BookingSchemas.SingleDateUpdatePasses | simple_api/src/schemas/bookingSchemas.js:49-56 | a body naming at most one date is accepted whatever that date is, when its other fields are valid |
| BookingSchemas.EmptyUpdateIsNoOp | simple_api/src/schemas/bookingSchemas.js:43-48 | an empty update body is valid and leaves a booking unchanged |
| BookingSchemas.SingleDateUpdateCanInvertStay | simple_api/src/schemas/bookingSchemas.js:50-55 | a body with only checkOut passes and can give a stored booking a check-out before its check-in, and a negative price |
| BookingSchemas.ParseId | simple_api/src/schemas/bookingSchemas.js:62-64 | an id is accepted exactly when non-empty |
| BookingSchemas.ParseBookingQuery | simple_api/src/schemas/bookingSchemas.js:67-76 | page ≥ 1 (default 1) and limit in 1..100 (default 10), accepted exactly then and with a known status; the room, hotel, e-mail and check-in filters pass through, and the status is read as its enum value |
| BookingSchemas.ValidatedQueryNeedsNoFallback | simple_api/src/schemas/bookingSchemas.js:74-75 | for a validated query, getAllBookings' `\|\| 1` and `\|\| 10` fallbacks never fire |
| BookingSchemas.ParseAvailabilityQuery | simple_api/src/schemas/bookingSchemas.js:79-90 | accepted exactly for a non-empty roomId and checkOut after checkIn |
| BookingSchemas.ValidatedQueryAnswersIntersection | simple_api/src/schemas/bookingSchemas.js:83-86 | for a validated availability query, the answer is the half-open intersection test against the room's active bookings |
| RoomSchemas.ParseCreateRoom | simple_api/src/schemas/roomSchemas.js:7-20 | accepted exactly for a non-empty hotelId, a 1..10 character number, a known type and a price ≥ 0; isAvailable defaults to true |
| RoomSchemas.CreateRoundTrip | simple_api/src/schemas/roomSchemas.js:18-20 | every valid room is accepted back from its own request body |
| RoomSchemas.ParseUpdateRoom | simple_api/src/schemas/roomSchemas.js:23 | partial(): every base field optional and checked when present, no default for isAvailable, and hotelId stripped |
| RoomSchemas.ValidatedUpdateKeepsNumbersUnique | simple_api/src/schemas/roomSchemas.js:23 | every validated update falls in a case where updateRoom keeps room numbers unique |
| RoomSchemas.RenameClashesAcrossHotels | simple_api/src/services/roomService.js:95-101 | a validated update whose new number is held by any other room, in any hotel, is a number clash, so updateRoom refuses it as a duplicate |
| RoomSchemas.RenameToOtherHotelsNumberRefused | simple_api/src/services/roomService.js:95-101 | renaming room r2 of hotel h2 to "101", the number of room r1 of hotel h1, is a clash although the hotels differ |
| RoomSchemas.UpdateKeepsAvailabilityWhenAbsent | simple_api/src/schemas/roomSchemas.js:14 | an update without isAvailable leaves the stored flag alone |
| RoomSchemas.ParseRoomQuery | simple_api/src/schemas/roomSchemas.js:31-37 | all filters optional; accepted exactly when the type is known and the price bounds are not negative |
| RoomSchemas.ValidatedZeroMaxPriceIgnored | simple_api/src/schemas/roomSchemas.js:36 | maxPrice = 0 passes validation and then filters nothing |
| RoomSchemas.ParseRoomQueryString | simple_api/src/routes/rooms.js:10 | the route parses the URL query, whose values are strings: it is accepted exactly when no availability or price parameter is given and the type is known, so only the hotel and type filters can reach the service |
| RoomSchemas.RouteRejectsPriceFilter | simple_api/src/routes/rooms.js:10 | any minPrice or maxPrice string, "0" included, is rejected on the route |
| HotelSchemas.ParseCreateHotel | simple_api/src/schemas/hotelSchemas.js:4-8 | accepted exactly for a 2..50 character name and a 10..200 character description; amenities default to [] |
| HotelSchemas.CreateRoundTrip | simple_api/src/schemas/hotelSchemas.js:4-8 | every valid hotel is accepted back from its own request body |
| HotelSchemas.ParseUpdateHotel | simple_api/src/schemas/hotelSchemas.js:10-14 | every field optional, accepted exactly when each given field obeys the create bounds |
| HotelSchemas.CreateBodyIsUpdateBody | simple_api/src/schemas/hotelSchemas.js:10-14 | every valid create body is a valid update body |
| HotelSchemas.ParseCount | simple_api/src/schemas/hotelSchemas.js:21-32 | an absent or empty value takes the default; otherwise the value is accepted exactly when it reads as an integer in range |
| HotelSchemas.ParseOrder | simple_api/src/schemas/hotelSchemas.js:33 | order is 'asc' or 'desc', default 'desc' |
| HotelSchemas.ParsePageQuery | simple_api/src/schemas/hotelSchemas.js:20-34 | page an integer ≥ 1 (default 1), per_page an integer in 1..100 (default 10) and the order (default desc), accepted exactly when each is; the query holds exactly the values those three parameter readers give |
| HotelSchemas.DefaultsAreFirstPageOfTen | simple_api/src/schemas/hotelSchemas.js:24 | no (or empty) parameters give page 1 of 10, newest first |
| HotelSchemas.DecimalQueryRoundTrip | simple_api/src/schemas/hotelSchemas.js:21-33 | page and per_page written in decimal within range are read back exactly |
| HotelSchemas.PaddedPageAccepted | simple_api/src/schemas/hotelSchemas.js:21-27 | page " +05 " with no per_page is page 5 of 10, newest first |
| HotelSchemas.PageZeroRejected | simple_api/src/schemas/hotelSchemas.js:25 | page "0" is rejected |
| HotelSchemas.BlankPageRejected | simple_api/src/schemas/hotelSchemas.js:24-25 | a blank page reads as 0 and is rejected |
| HotelSchemas.PerPageOverHundredRejected | simple_api/src/schemas/hotelSchemas.js:30 | per_page "101" is rejected |
| HotelSchemas.ValidatedQueryIsListable | simple_api/src/schemas/hotelSchemas.js:20-34 | a validated query meets listHotelsPaged's needs and returns at most per_page rows |
| HotelForms.TrimAll | my-hotel-app/src/features/hotels/domain/hotel.ts:12 | every amenity trimmed, order and length kept |
| HotelForms.TrimAllIdempotent | my-hotel-app/src/features/hotels/domain/hotel.ts:12 | trimming the amenities twice is trimming once |
| HotelForms.ParseHotelBase | my-hotel-app/src/features/hotels/domain/hotel.ts:3-13 | accepted exactly when the trimmed name has 2..50 characters and the trimmed description 10..200; the values are the trimmed ones, amenities default to [] |
| HotelForms.BaseIsIdempotent | my-hotel-app/src/features/hotels/domain/hotel.ts:3-13 | validating validated values gives them back unchanged |
| HotelForms.ParseHotel | my-hotel-app/src/features/hotels/domain/hotel.ts:15-17 | the base schema plus a required id |
| HotelForms.ParseHotelCreateForm | my-hotel-app/src/features/hotels/feature/create/validationSchema/hotelCreateSchema.ts:6-10 | trimmed name 2..50, trimmed description 10..200, every amenity one of the offered options, default [] |
| HotelForms.ParseHotelUpdateForm | my-hotel-app/src/features/hotels/feature/update/validationSchema/hotelUpdateSchema.ts:6-18 | name and description required, bounded after trimming, and the amenities drawn from the options |
| HotelForms.UpdateFormIsCreateForm | my-hotel-app/src/features/hotels/feature/update/validationSchema/hotelUpdateSchema.ts:6-18 | the update form accepts and produces exactly what the create form does |
| HotelForms.OptionsAreTrimmed | my-hotel-app/src/features/hotels/constants/amenities.ts:1-8 | no offered amenity has surrounding whitespace |
| HotelForms.CreateFormPassesDomainSchema | my-hotel-app/src/features/hotels/feature/create/validationSchema/hotelCreateSchema.ts:6-10 | create-form values pass the domain schema unchanged |
| HotelForms.CreateFormPassesServer | simple_api/src/schemas/hotelSchemas.js:4-8 | create-form values pass the API's createHotelSchema unchanged |
| RoomForms.ParseTypedRoomForm | my-hotel-app/src/features/rooms/domain/roomSchema.ts:4-13 | a non-empty number, a known type and a price above 0, accepted exactly then; isAvailable defaults to true |
| RoomForms.CoercePrice | my-hotel-app/src/features/rooms/schemas/roomFormSchema.ts:8 | z.coerce.number: a number as it is, text read as an integer (blank as 0) |
| RoomForms.ParseCoercingRoomForm | my-hotel-app/src/features/rooms/schemas/roomFormSchema.ts:3-10 | the same rules as the typed form, after the price is converted |
| RoomForms.SchemasAgreeOnNumbers | my-hotel-app/src/features/rooms/schemas/roomFormSchema.ts:3-10 | on numeric prices the two room-form schemas agree |
| RoomForms.DecimalPriceText | my-hotel-app/src/features/rooms/schemas/roomFormSchema.ts:8 | a price typed in decimal is read as that number |
| RoomForms.EmptyPriceRejected | my-hotel-app/src/features/rooms/schemas/roomFormSchema.ts:8 | an empty price box converts to 0 and is rejected |
| RoomForms.FormValuesPassServer | simple_api/src/schemas/roomSchemas.js:18-20 | room-form values with a number of at most 10 characters pass createRoomSchema unchanged |
| RoomForms.LongNumberPassesFormOnly | my-hotel-app/src/features/rooms/schemas/roomFormSchema.ts:4 | an 11-character number passes the form and fails the API's 10-character bound |
| RoomForm.DefaultValues | my-hotel-app/src/features/rooms/hooks/useRoomForm.ts:30-42 | the defaults are the initial number or "", the initial type or SINGLE, and the initial price or an empty box. isAvailable is true exactly when the initial value is true |
| RoomForm.UntouchedEditFormRoundTrip | my-hotel-app/src/features/rooms/hooks/useRoomForm.ts:30-42 | an edit form left untouched validates to the room's own values |
| RoomForm.BlankFormDefaults | my-hotel-app/src/features/rooms/hooks/useRoomForm.ts:32-39 | a blank form opens with "", SINGLE, an empty price and isAvailable false, and is rejected until a price is typed |
| RoomForm.OnSuccess | my-hotel-app/src/features/rooms/hooks/useRoomForm.ts:46-53 | only the room number changes, to its trimmed value, and the updated object is what gets submitted |
| RoomForm.SubmitTrimIdempotent | my-hotel-app/src/features/rooms/hooks/useRoomForm.ts:49 | submitting twice trims no further |
| RoomForm.BlankNumberPassesFormOnly | my-hotel-app/src/features/rooms/hooks/useRoomForm.ts:49 | a number of spaces passes the form and is sent as "", which createRoomSchema rejects |
| AmenityCheckboxGroup.Dedup | my-hotel-app/src/features/hotels/components/AmenityCheckboxGroup.tsx:12 | new Set(value): the same elements, none twice |
| AmenityCheckboxGroup.DedupKeepsFirstOrder | my-hotel-app/src/features/hotels/components/AmenityCheckboxGroup.tsx:12 | for any input, duplicates included, the Set lists its entries by the position of their first occurrence |
| AmenityCheckboxGroup.Without | my-hotel-app/src/features/hotels/components/AmenityCheckboxGroup.tsx:14 | set.delete: the elements other than the option, still without duplicates |
| AmenityCheckboxGroup.Toggle | my-hotel-app/src/features/hotels/components/AmenityCheckboxGroup.tsx:11-16 | the loop building the Set, then the add or delete, computes the toggle specification |
| AmenityCheckboxGroup.ToggleSetsChecked | my-hotel-app/src/features/hotels/components/AmenityCheckboxGroup.tsx:22 | after a toggle, the option's box is checked exactly when the toggle asked for it |
| AmenityCheckboxGroup.ToggleKeepsOthers | my-hotel-app/src/features/hotels/components/AmenityCheckboxGroup.tsx:12-15 | every other element is kept, and nothing but the option is added |
| AmenityCheckboxGroup.ToggleNoDup | my-hotel-app/src/features/hotels/components/AmenityCheckboxGroup.tsx:15 | the result never holds a duplicate |
| AmenityCheckboxGroup.DedupOfDistinct | my-hotel-app/src/features/hotels/components/AmenityCheckboxGroup.tsx:12 | a list without duplicates comes back from the Set unchanged, order included |
| AmenityCheckboxGroup.AddGoesLast | my-hotel-app/src/features/hotels/components/AmenityCheckboxGroup.tsx:13 | checking a new option appends it at the end |
| AmenityCheckboxGroup.RemoveKeepsOrder | my-hotel-app/src/features/hotels/components/AmenityCheckboxGroup.tsx:14 | unchecking keeps the other elements in their order |
| AmenityCheckboxGroup.ToggleIdempotent | my-hotel-app/src/features/hotels/components/AmenityCheckboxGroup.tsx:11-16 | repeating a toggle changes nothing further |
| HotelCard.Normalized | my-hotel-app/src/features/hotels/components/HotelCard.tsx:17 | a non-array amenities field is the empty list |
| HotelCard.Shown | my-hotel-app/src/features/hotels/components/HotelCard.tsx:18 | the prefix of length min(3, n) |
| HotelCard.Extra | my-hotel-app/src/features/hotels/components/HotelCard.tsx:19 | never negative, and the shown count plus extra is n |
| HotelCard.MoreChipIffOverThree | my-hotel-app/src/features/hotels/components/HotelCard.tsx:61 | the "+n more" chip appears exactly when there are more than three amenities |
| HotelCard.ShownThenRestIsAll | my-hotel-app/src/features/hotels/components/HotelCard.tsx:18-19 | the shown chips followed by the counted rest are the whole list |
| HotelCard.NonListShowsNothing | my-hotel-app/src/features/hotels/components/HotelCard.tsx:17-19 | a card for non-list amenities shows no chips and no "+n more" |
| QueryCache.WithoutHotel | my-hotel-app/src/features/hotels/data-access/useDeleteMutation/index.ts:17 | exactly the hotels with another id remain |
| QueryCache.WithoutHotelLaws | my-hotel-app/src/features/hotels/data-access/useDeleteMutation/index.ts:17 | the filter works piece by piece (so the rest keep their order), keeps each other hotel as often as before, and leaves a list without the id unchanged |
| QueryCache.WithoutRoom | my-hotel-app/src/features/rooms/data-access/mutation/useRoomMutations.ts:87 | exactly the rooms with another id remain |
| QueryCache.WithoutRoomLaws | my-hotel-app/src/features/rooms/data-access/mutation/useRoomMutations.ts:87 | the same laws for the room list |
| QueryCache.ReplaceHotel | my-hotel-app/src/features/hotels/data-access/useUpdateMutation/index.ts:21 | same length; each entry with the id becomes the update, every other entry stays where it was |
| QueryCache.ReplaceHotelLaws | my-hotel-app/src/features/hotels/data-access/useUpdateMutation/index.ts:20-21 | replacing twice is replacing once, a list without the id is unchanged, and a list with it then holds the update |
| RoomMutations.ExtractErrorMessage | my-hotel-app/src/features/rooms/data-access/mutation/useRoomMutations.ts:9-20 | 409, 404 and 400 give their fixed texts. Any other status gives the first non-empty of data.error, data.message and message, else 'Something went wrong'. The text is never empty |
| RoomMutations.MessageComesFromError | my-hotel-app/src/features/rooms/data-access/mutation/useRoomMutations.ts:14-19 | the text is a fixed one or one the error carries |
| RoomMutations.OnMutateDeleteRoom | my-hotel-app/src/features/rooms/data-access/mutation/useRoomMutations.ts:83-89 | snapshots the hotel's cached rooms. A cached list loses exactly the deleted room; with none cached the cache is unchanged |
| RoomMutations.OnErrorDeleteRoom | my-hotel-app/src/features/rooms/data-access/mutation/useRoomMutations.ts:90-91 | a snapshot is put back; without one nothing changes |
| RoomMutations.DeleteRoomFails | my-hotel-app/src/features/rooms/data-access/mutation/useRoomMutations.ts:83-93 | a failed delete leaves the whole cache as it found it |
| HotelMutations.OnCreateSuccess | my-hotel-app/src/features/hotels/data-access/useCreateMutation/index.ts:15-21 | the created hotel heads the list, the previous list follows unchanged, and an absent list becomes [created]; its detail entry is set |
| HotelMutations.OnUpdateSuccess | my-hotel-app/src/features/hotels/data-access/useUpdateMutation/index.ts:16-23 | the detail entry becomes the update, and the list has entries with its id replaced; an absent list becomes [] |
| HotelMutations.UpdateOfAbsentListIsEmpty | my-hotel-app/src/features/hotels/data-access/useUpdateMutation/index.ts:21 | an update never populates an absent list |
| HotelMutations.OnMutateDelete | my-hotel-app/src/features/hotels/data-access/useDeleteMutation/index.ts:14-19 | snapshots the list, then drops every hotel with the id from it; an absent list becomes [] |
| HotelMutations.OnDeleteError | my-hotel-app/src/features/hotels/data-access/useDeleteMutation/index.ts:20-21 | a snapshot is restored exactly; without one nothing changes |
| HotelMutations.OnDeleteSuccess | my-hotel-app/src/features/hotels/data-access/useDeleteMutation/index.ts:23-24 | the deleted hotel's detail entry is removed, the rest kept |
| HotelMutations.DeleteHotelFails | my-hotel-app/src/features/hotels/data-access/useDeleteMutation/index.ts:14-21 | a failed delete restores a cached list exactly, and leaves an uncached one as [] |

## Left out

- HTTP, routing, CORS, logging and the mapping of errors to status codes are not modelled. The network test script, the seed script and all rendering components are left out too. They are I/O and presentation.
- Prisma's persistence is replaced by in-memory sequences, so transactions and `Promise.all` are left out. The check-then-insert race in createBooking and createRoom is concurrency the code never handles.
- `include`/`select` of related rows (the room and hotel summaries attached to results) is not modelled: it changes what is returned, not which rows.
- JavaScript `Date`, `Date.parse` and the `dateString` refine are not modelled: dates are integers, so an invalid date string cannot be written, and "today" is a parameter.
- Prices are integers, not floating-point numbers.
- BookingSchemas.ParseBookingQuery: page and limit are integers in the model. z.number() also accepts fractional numbers such as page 1.5, which getAllBookings would turn into a fractional skip; those queries are not modelled.
- The `email()` rule of the schemas is left out (a foreign regular expression). So are zod's issue messages: a rejection is None.
- String lengths count code points, not UTF-16 units. Sorting by room number compares code points, not the database's collation.
- Ties in `createdAt` are not modelled: insertion order stands in for it. The `id` tie-break of listHotelsPaged is therefore not visible.
- JSON.stringify and JSON.parse of the amenities column are left out (a foreign format). Amenities are stored as the list itself.
- Text.ParseInteger: reads a digit run exactly at any length. Number() rounds integers above 2^53 to the nearest double ("9007199254740993" reads as 9007199254740992), and a run of 310 or more digits reads as Infinity, which Number.isInteger rejects. Text.ParseDigits and Text.DecimalRoundTrip share this limit.
- HotelSchemas.ParseCount: only reads optionally signed decimal integers with surrounding whitespace. Number()'s other spellings (hex, exponents, "1.0") are rejected here, although Number() accepts them. It also reads every digit run exactly, so a page above 2^53, or one of 310 or more digits (Infinity, rejected by Number.isInteger), is not read as Number() reads it. HotelSchemas.DecimalQueryRoundTrip shares this limit for page.
- RoomForms.CoercePrice: reads text the same way, so a price typed as "12.5" is rejected in the model.
- HotelService.DeleteHotel: removes the hotel row only. The database's onDelete behaviour for the hotel's rooms and bookings is not modelled, because the Prisma schema is not part of this model.
- RoomService.DeleteRoom: removes the room row only. The database's onDelete behaviour for the room's bookings is not modelled, because the Prisma schema is not part of this model.
- The zod semantics of `.extend()` on a refined schema are not modelled. createBookingSchema is taken to keep the base refine and add the roomId field and the "today" refine.
- The coercion quirks of `z.coerce.boolean` (any non-empty string is true) are left out. isAvailable is a boolean in the model.
- RoomSchemas.ValidatedZeroMaxPriceIgnored: composes the schema and the service on a typed query. Through GET /rooms the query values are strings, so z.boolean() and z.number() reject every isAvailable, minPrice and maxPrice and the route answers 500; RoomSchemas.ParseRoomQueryString models that call site.
- BookingService.GetAllBookings: requires a page and a limit that are not negative. Prisma's rejection of a negative skip or take is not modelled.
- RoomMutations.ExtractErrorMessage: the error fields are strings in the model. A truthy non-string value (a number or an object) is not modelled. httpClient's response interceptor (my-hotel-app/src/lib/httpClient.ts:7-12) rejects with a plain Error whose message is the response body's message (or the axios message) and which has no `response`. The room gateway is not part of this model; if it calls through httpClient, the 409, 404 and 400 branches never fire in the app, and the message branch decides.
- React Query's `invalidateQueries`, `cancelQueries` and refetching are left out, and so are the toasts (useToastify). They are scheduling and UI side effects, not cache contents.
- The `onSubmit` callback of useRoomForm is a parameter, not modelled.
- The `resolver` of useRoomForm is modelled as the form schema itself: RoomForms.ParseCoercingRoomForm.
- The mutation hooks' network calls (the gateways and httpClient) are left out. Their results enter as parameters.
- HotelMutations.OnCreateSuccess: takes the created hotel. createHotel (my-hotel-app/src/features/hotels/data-access/useCreateMutation/index.ts:6-9) returns axios's `data`, which is the whole response body `{ data: hotel, success: true }` (simple_api/src/routes/hotels.js:51), so the app puts that body, not a hotel, at the head of the list and under the detail key `["hotel", undefined]`. updateHotel unwraps `data.data` (my-hotel-app/src/features/hotels/data-access/useUpdateMutation/index.ts:6-9). The model states the behaviour for an unwrapped hotel.

