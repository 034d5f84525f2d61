# Cinema booking core, modelled in Dafny

This project models the booking backend of the HD FutureTech cinema site, an
Express/Mongoose REST service. Two parts of it are modelled.

- The **booking controller**: create a booking, list a user's bookings, read one
  booking, change its booking status, change its payment status, and ask which
  seats of a screening are taken. Both `createBooking` and
  `checkSeatAvailability` resolve the request's `cinemaId`:
  - A string that passes `ObjectId.isValid` is a native id.
    `createBooking` looks it up and answers 404 when no cinema has it
    (bookingController.js:39-40, :63-68). `checkSeatAvailability` uses it
    unchecked (:262-263).
  - Any other string is an identifier code. When no cinema carries the code,
    both handlers create a placeholder cinema for it (:42-60, :265-285).
- The **Movie schema**: what a saved movie document must satisfy, which paths
  report errors, and which defaults fill in missing fields.

The document store is a class `BookingStore.Store`. Its movies, cinemas and
bookings are sequence fields, and the bookings are kept in creation order.
Every stored movie, cinema and booking has a native id. Each handler is a method that updates
those fields, or a function that reads them. The store queries the handlers
use are pure functions over those sequences:

- `findById` and `findOne` become `DocumentQueries.FindFirst`.
- `Booking.find` with its status filter becomes `SeatAvailability.BookedSeats`.
- `createBooking`'s conflict probe becomes `SeatAvailability.HasConflict`.

Modules:

- `JsValues`: optional values and JavaScript truthiness of request fields.
- `MovieSchema`: the Movie document, the `trim` setter, the validators and the defaults.
- `BookingTypes`: bookings, cinemas, principals, request bodies and handler outcomes.
- `DocumentQueries`: first-match lookup.
- `CinemaResolution`: native-id and identifier-code resolution, and the placeholder table.
- `SeatAvailability`: booked seats of a screening, the availability answer,
  the conflict probe, and the no-double-booking invariant under appends and
  status changes.
- `Access`: the owner-or-admin and admin-only guards, and the newest-first listing.
- `BookingStore`: the store class and its handlers.
- `Scenarios`: two scenarios proved from the handlers' contracts.

Three behaviours of the code are worth stating on their own:

- **Placeholder names for unknown codes.** For a code other than "1" and "2",
  the placeholder is named "CineStar Quận 1" but located in district "Quận 7"
  (bookingController.js:46-56). The name table and the district table disagree.
  `CinemaResolution.PlaceholderNameDistrictDisagree` states this.
- **Empty seat lists.** The required-field test of `createBooking` (:20) only
  tests `seats` for truthiness, and an empty array is truthy. So the
  required-field test at :20 accepts `[]`, and the model stores such a
  booking.
- **Double bookings through status changes.** The conflict probe of
  `createBooking` (:70-85) keeps a seat from being held by two non-cancelled
  bookings of one screening, and `BookingStore.Store.CreateBooking` keeps
  that invariant. The status update at :188 accepts any non-empty status and
  does not re-check seats. Suppose a booking is cancelled, someone else then
  books its seat, and the owner sets the first booking back to "active".
  Both bookings now hold the seat. `SeatAvailability.ReactivationDoubleBooks`
  and `Scenarios.RebookThenReactivate` state this.

## Model

| member | source | states |
|---|---|---|
| DocumentQueries.FindFirst | hd-futuretech-backend/src/controllers/bookingController.js:40-42 | a `findById`/`findOne` lookup returns the first matching document; it finds nothing exactly when no document matches |
| DocumentQueries.FindFirstAppend | hd-futuretech-backend/src/controllers/bookingController.js:42-59 | after a document is created, a lookup finds the earlier match if there was one, and otherwise the created document when it matches |
| MovieSchema.TrimStart | hd-futuretech-backend/src/models/Movie.js:7 | drops exactly the leading ECMAScript white space: the result is a suffix, everything dropped is white space, and the result does not start with white space |
| MovieSchema.TrimEnd | hd-futuretech-backend/src/models/Movie.js:7 | drops exactly the trailing white space: the result is a prefix, everything dropped is white space, and the result does not end with white space |
| MovieSchema.Trim | hd-futuretech-backend/src/models/Movie.js:7 | the `trim` setter yields the infix of its input left after dropping only leading and trailing white space, which neither starts nor ends with white space; an already trimmed string is unchanged |
| MovieSchema.Utf16Length | hd-futuretech-backend/src/models/Movie.js:8 | the length `maxlength` measures, in UTF-16 units, lies between the code-point count and twice it |
| MovieSchema.Showings | hd-futuretech-backend/src/models/Movie.js:65-76 | each stored showtime entry keeps its input entry's cinema, date and times |
| MovieSchema.Create | hd-futuretech-backend/src/models/Movie.js:3-77 | a movie is saved iff no path fails; the saved movie meets every schema constraint, has the title trimmed, keeps the supplied fields, and gets posterUrl "", trailerUrl "", rating 0 and isShowing true for missing ones; a rejection lists exactly the failing paths, and at least one |
| MovieSchema.CreateAcceptsValid | hd-futuretech-backend/src/models/Movie.js:3-77 | a document meeting the constraints, supplied field by field, is saved unchanged |
| MovieSchema.CreateStoresNormalised | hd-futuretech-backend/src/models/Movie.js:3-77 | an input with every required field and showtime part supplied, whose trimmed and defaulted form meets the constraints, is saved as exactly that form; an untrimmed title and omitted defaulted fields are accepted |
| MovieSchema.NormalisedValid | hd-futuretech-backend/src/models/Movie.js:3-77 | a complete input on which no one-value path fails yields a document meeting every constraint |
| MovieSchema.ErrorsExact | hd-futuretech-backend/src/models/Movie.js:3-77 | the collected error paths are exactly the paths whose validator fails |
| MovieSchema.ValidMovie | hd-futuretech-backend/src/models/Movie.js:3-77 | the constraints of a stored document: trimmed non-empty title of at most 100 units, non-empty description and director, duration at least 1, non-empty genre and cast, rating in [0, 5] |
| MovieSchema.TitleAccepted | hd-futuretech-backend/src/models/Movie.js:4-9 | the title path passes: present, non-empty after trimming, and at most 100 units long |
| MovieSchema.Fails | hd-futuretech-backend/src/models/Movie.js:3-77 | the failure condition of each path: required paths missing or empty, duration below 1, rating outside [0, 5], empty genre or cast arrays, a showtime entry without cinema or date |
| MovieSchema.Errors | hd-futuretech-backend/src/models/Movie.js:3-77 | the set of paths that fail, each showtime path carrying its entry index |
| MovieSchema.Normalised | hd-futuretech-backend/src/models/Movie.js:23-64 | the document built from a complete input: title trimmed, and posterUrl "", trailerUrl "", rating 0, isShowing true for omitted fields |
| MovieSchema.BlankTitleRejected | hd-futuretech-backend/src/models/Movie.js:4-7 | a missing or all-white-space title is rejected at the title path, because trimming happens before the required check |
| MovieSchema.LongTitleRejected | hd-futuretech-backend/src/models/Movie.js:7-8 | a title longer than 100 units after trimming is rejected at the title path |
| MovieSchema.MissingRequiredRejected | hd-futuretech-backend/src/models/Movie.js:10-76 | a missing description, director, duration or release date, an empty genre or cast array, or a showtime entry without cinema or date is rejected at that path |
| MovieSchema.BoundsRejected | hd-futuretech-backend/src/models/Movie.js:14-60 | a duration below 1 or a rating outside [0, 5] is rejected at that path |
| CinemaResolution.Placeholder | hd-futuretech-backend/src/controllers/bookingController.js:45-59 | the placeholder carries the code and the new id; it is named after district 7 iff the code is "2" and located in district 1 iff the code is "1"; the address and city are fixed |
| CinemaResolution.ResolveCode | hd-futuretech-backend/src/controllers/bookingController.js:42-60 | afterwards the code is found and maps to the returned id; an existing cinema leaves the collection unchanged, and otherwise exactly the placeholder is appended under the new id |
| CinemaResolution.ResolveForBooking | hd-futuretech-backend/src/controllers/bookingController.js:38-68 | resolution fails ("Cinema not found") iff the id is native and no cinema has it; a resolved id always names a stored cinema; a native id resolves to itself with no cinema created; a code resolves exactly as `ResolveCode` |
| CinemaResolution.ResolveForQuery | hd-futuretech-backend/src/controllers/bookingController.js:260-286 | the availability query uses a native id unchecked and resolves a code exactly as booking creation does |
| CinemaResolution.ResolveCodeIdempotent | hd-futuretech-backend/src/controllers/bookingController.js:42-60 | resolving the same code a second time creates nothing and returns the same cinema |
| CinemaResolution.ResolveCodeOtherCode | hd-futuretech-backend/src/controllers/bookingController.js:42-60 | materialising one code leaves the lookup of every other code unchanged |
| CinemaResolution.PlaceholderNameDistrictDisagree | hd-futuretech-backend/src/controllers/bookingController.js:46-56 | for a code other than "1" and "2", the placeholder is named "CineStar Quận 1" but lies in district "Quận 7" |
| CinemaResolution.CinemaById | hd-futuretech-backend/src/controllers/bookingController.js:39-40 | `Cinema.findById` returns the first cinema with the id, and nothing iff no cinema has it |
| CinemaResolution.CinemaByCode | hd-futuretech-backend/src/controllers/bookingController.js:42 | `Cinema.findOne({ identifier })` returns the first cinema carrying the code, and nothing iff none does |
| SeatAvailability.BookedSeatsMembership | hd-futuretech-backend/src/controllers/bookingController.js:289-300 | a seat is among the booked seats of a screening iff some non-cancelled booking with that movie, cinema, date and time holds it |
| SeatAvailability.BookedSeats | hd-futuretech-backend/src/controllers/bookingController.js:289-300 | the seats of the non-cancelled bookings of one screening, concatenated in store order |
| SeatAvailability.HasConflict | hd-futuretech-backend/src/controllers/bookingController.js:71-78 | some non-cancelled booking of the screening holds one of the requested seats |
| SeatAvailability.NoDoubleBooking | hd-futuretech-backend/src/controllers/bookingController.js:70-85 | no seat is held by two non-cancelled bookings of one screening, the property the conflict probe guards |
| SeatAvailability.BookedSeatsAppend | hd-futuretech-backend/src/controllers/bookingController.js:298-300 | the concatenation of booked seats distributes over the store's order, so appending bookings appends their seats |
| SeatAvailability.UnavailableSeats | hd-futuretech-backend/src/controllers/bookingController.js:305 | the filter keeps exactly the requested seats that are booked, and is no longer than the request |
| SeatAvailability.UnavailableSeatsAppend | hd-futuretech-backend/src/controllers/bookingController.js:305 | the filter keeps request order: filtering a concatenation concatenates the filtered parts |
| SeatAvailability.CheckSeats | hd-futuretech-backend/src/controllers/bookingController.js:302-312 | the answer reports all booked seats; a non-array or missing `seats` gets no unavailable seats and `available`; the unavailable seats are the requested seats that are booked, in request order and with repeats kept; `available` holds iff no requested seat is booked |
| SeatAvailability.SingleSeatAvailability | hd-futuretech-backend/src/controllers/bookingController.js:289-312 | asking about one seat answers unavailable iff a non-cancelled booking of the same screening holds it |
| SeatAvailability.ConflictIffUnavailable | hd-futuretech-backend/src/controllers/bookingController.js:71-78 | the `$in` conflict probe of `createBooking` finds a booking iff the availability query would report some requested seat unavailable |
| SeatAvailability.AppendWithoutConflict | hd-futuretech-backend/src/controllers/bookingController.js:71-96 | appending a booking that passed the conflict probe keeps every seat held by at most one non-cancelled booking per screening |
| SeatAvailability.WithStatus | hd-futuretech-backend/src/controllers/bookingController.js:187-189 | a status update changes the status of the one booking it targets and leaves every other booking unchanged |
| SeatAvailability.CancelRemovesSeats | hd-futuretech-backend/src/controllers/bookingController.js:187-189 | after a booking is cancelled, a screening's booked seats are those of the other bookings, in order |
| SeatAvailability.CancelFreesSeats | hd-futuretech-backend/src/controllers/bookingController.js:187-189 | when no seat is double-booked, cancelling a booking frees each of its seats, and asking about that seat then answers available |
| SeatAvailability.StatusChangeKeepsInvariant | hd-futuretech-backend/src/controllers/bookingController.js:187-189 | a status change keeps the no-double-booking invariant when it cancels, when the booking was already active, or when the booking's seats are still free |
| SeatAvailability.ReactivationDoubleBooks | hd-futuretech-backend/src/controllers/bookingController.js:187-189 | re-activating a cancelled booking whose seats were booked again in the meantime double-books a seat |
| SeatAvailability.PaymentChangeKeepsInvariant | hd-futuretech-backend/src/controllers/bookingController.js:232-233 | a payment-status change keeps every seat held by at most one non-cancelled booking per screening |
| Access.PaymentGuardStricter | hd-futuretech-backend/src/controllers/bookingController.js:224-230 | whoever may set a payment status may also read and update any booking, while an owner who is not an admin may not set the payment status of their own booking |
| Access.CanAccess | hd-futuretech-backend/src/controllers/bookingController.js:179-185 | the guard of reading a booking and of changing its status: the owner or an admin |
| Access.CanSetPaymentStatus | hd-futuretech-backend/src/controllers/bookingController.js:224-230 | the guard of changing a payment status: an admin only |
| Access.BookingById | hd-futuretech-backend/src/controllers/bookingController.js:169-177 | `Booking.findById` returns the first booking with the id, and nothing iff no booking has it |
| Access.CountOwned | hd-futuretech-backend/src/controllers/bookingController.js:114 | the number of the user's bookings, zero exactly when the user has none |
| Access.NewestFirst | hd-futuretech-backend/src/controllers/bookingController.js:114-117 | the listing holds only the user's own bookings, all of them from the store |
| Access.NewestFirstPositions | hd-futuretech-backend/src/controllers/bookingController.js:114-117 | the listing has one entry per booking of the user, in reverse creation order: the booking at store position k comes right after the user's bookings created later |
| BookingStore.MovieById | hd-futuretech-backend/src/controllers/bookingController.js:27-34 | the movie lookup finds nothing iff no stored movie has the id |
| BookingTypes.BookingRequestComplete | hd-futuretech-backend/src/controllers/bookingController.js:19-25 | the required-field test of `createBooking`: every field truthy, so a total of 0 fails while an empty seat array passes |
| BookingTypes.AvailabilityRequestComplete | hd-futuretech-backend/src/controllers/bookingController.js:252-258 | the required-field test of `checkSeatAvailability`: movie, cinema and showtime truthy, seats optional |
| BookingStore.Store.ResolveIdentifier | hd-futuretech-backend/src/controllers/bookingController.js:41-60 | the store's cinemas and the returned id are those of `ResolveCode`, and the store invariant is kept |
| BookingStore.Store.NonNativeFindsNothing | hd-futuretech-backend/src/controllers/bookingController.js:289-295 | in a valid store, a string that is not a native id names no stored movie and no stored booking, and the booked seats of a screening of such a movie id are empty |
| BookingStore.Store.CreateBooking | hd-futuretech-backend/src/controllers/bookingController.js:9-107 | gives 400 on a falsy field, 404 on an unknown movie or an unknown native cinema, and a conflict iff a non-cancelled booking of the screening holds a requested seat; otherwise it appends exactly one active booking owned by the caller with payment "pending"; a placeholder cinema stays even when the booking is refused; no seat becomes double-booked |
| BookingStore.Store.Insert | hd-futuretech-backend/src/controllers/bookingController.js:87-96 | inserting a booking that references stored documents and passed the conflict probe appends exactly that booking, keeps the store invariant and introduces no double booking |
| BookingStore.Store.CheckSeatAvailability | hd-futuretech-backend/src/controllers/bookingController.js:248-317 | gives 400 on a falsy movie, cinema or showtime; otherwise the answer is `CheckSeats` over the booked seats of the resolved screening, and the cinemas are those left by resolution |
| BookingStore.Store.GetBooking | hd-futuretech-backend/src/controllers/bookingController.js:128-153 | gives 404 iff no booking has the id; the booking itself only to its owner or an admin; 403 only to a non-admin who does not own it |
| BookingStore.Store.GetUserBookings | hd-futuretech-backend/src/controllers/bookingController.js:112-123 | exactly the caller's bookings, newest first |
| BookingStore.Store.UpdateBookingStatus | hd-futuretech-backend/src/controllers/bookingController.js:158-199 | checks in the source's order: 400 for a falsy status, then 404, then 403 for neither owner nor admin; otherwise only that booking's status changes, to the given value |
| BookingStore.Store.UpdatePaymentStatus | hd-futuretech-backend/src/controllers/bookingController.js:204-243 | 400 for a falsy status, then 404, then 403 for anyone not an admin; otherwise only that booking's payment status changes; no seat becomes double-booked |
| Scenarios.RebookThenReactivate | hd-futuretech-backend/src/controllers/bookingController.js:187-189 | after user A cancels seat A1 and user B books it, A's switch back to "active" goes through, and the store goes from no double booking to a double-booked seat |

## Left out

- Asynchrony and concurrency: each handler is one atomic step on the store. The race between the conflict probe and the insert in `createBooking` is therefore not represented.
- HTTP plumbing is not modelled: response bodies and messages, `console.log`, and `next(err)` for store failures. Outcomes are reduced to Ok, ValidationError (400), NotFound (404), Forbidden (403) and Conflict (400 "already booked").
- `mongoose.Types.ObjectId.isValid` is an uninterpreted predicate `isNative` on the store. The ids of created cinemas and bookings are parameters that must be fresh and native, and every stored movie has a native id.
- `findById` with a string that is not a valid ObjectId throws a cast error, which reaches `next(err)`. The model treats it as a lookup that finds nothing (404); `BookingStore.Store.NonNativeFindsNothing` states that no stored movie or booking has such an id.
- BookingStore.Store.CheckSeatAvailability: `Booking.find({ movie: movieId, ... })` (bookingController.js:289-290) throws a cast error for a movie id that is not an ObjectId, because `movie` is a reference. The error reaches `next(err)`. The model answers Ok with no booked seats for such an id, as `BookingStore.Store.NonNativeFindsNothing` states.
- The booking schema's own validation, which `Booking.create` (:88-96) and `booking.save()` (:189) run, is not modelled: Booking.js is not part of this model. The model therefore stores any seat list, `[]` included, and any non-empty booking status.
- Mongoose casting of request values is not modelled: a truthy `seats` that is not an array in `createBooking`, `new Date(showtime.date)` parsing, and NaN totals. Dates are whole numbers and seats are lists of strings.
- `populate` calls only add referenced documents to responses, so they are not modelled.
- `createdAt` is represented by creation order in the store, so `sort("-createdAt")` is reverse store order. Equal timestamps are not modelled.
- Booking.js is not part of this model. The default booking status is taken as "active", a non-cancelled value.
- Route guards are not modelled. bookingRoutes.js:18 puts `authorize("admin")` before `updatePaymentStatus`. A non-admin therefore gets 403 even for a falsy status or an unknown id. The 400, then 404, then 403 order of the handler is observable only for admins.
- The text index on title, director and cast (Movie.js:80) and the `timestamps` option only affect search and metadata, so they are not modelled.
- Movie and cinema deletion are not part of this model. "Every booking references a stored movie and cinema" therefore holds only across the modelled handlers.
- MovieSchema.Create: a `null` field is treated like a missing one. Mongoose's distinctions between `null`, `undefined` and type-cast failures are not modelled.
