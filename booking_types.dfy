/** The entities the booking controller reads and writes, the request bodies
    it accepts, and the outcomes it answers with. */
module BookingTypes {
  import opened JsValues

  const Cancelled := "cancelled"
  const Pending := "pending"
  const AdminRole := "admin"

  /** The status a new booking gets from the booking schema's default. The
      booking schema is not part of this model; all that matters here is that
      the default is not "cancelled". */
  const DefaultBookingStatus := "active"

  /** A screening: `date` is the already-normalised date the store compares,
      `time` the exact time string. */
  datatype Showtime = Showtime(date: int, time: string)

  /** A stored booking. `cinema` is always a native cinema id. */
  datatype Booking = Booking(
    id: string,
    user: string,
    movie: string,
    cinema: string,
    showtime: Showtime,
    seats: seq<string>,
    totalAmount: real,
    bookingStatus: string,
    paymentStatus: string)

  datatype Location = Location(address: string, district: string, city: string)

  /** A stored cinema: its native id and, for cinemas created from a code, that code. */
  datatype Cinema = Cinema(id: string, identifier: Option<string>, name: string, location: Location)

  /** The authenticated user attached to a request. */
  datatype Principal = Principal(id: string, role: string)

  /** One screening of one movie in one cinema: the bookings that compete for seats. */
  datatype SlotKey = SlotKey(movie: string, cinema: string, showtime: Showtime)

  /** The answer of a handler: the payload with 200/201, or the failure status
      (ValidationError 400, NotFound 404, Forbidden 403, Conflict 400). */
  datatype Outcome<+T> = Ok(value: T) | ValidationError | NotFound | Forbidden | Conflict

  /** Body of a booking request. A `seats` value that is not an array is not
      represented; a missing one is `None`. */
  datatype BookingRequest = BookingRequest(
    movieId: Option<string>,
    cinemaId: Option<string>,
    showtime: Option<Showtime>,
    seats: Option<seq<string>>,
    totalAmount: Option<real>)

  /** The `seats` field of an availability query: falsy, an array, or a truthy
      value that is not an array. */
  datatype SeatsField = Falsy | List(seats: seq<string>) | NonArray

  /** Body of an availability query. */
  datatype AvailabilityRequest = AvailabilityRequest(
    movieId: Option<string>,
    cinemaId: Option<string>,
    showtime: Option<Showtime>,
    seats: SeatsField)

  /** Payload of an availability query. */
  datatype Availability = Availability(available: bool, unavailableSeats: seq<string>, bookedSeats: seq<string>)

  function KeyOf(b: Booking): SlotKey {
    SlotKey(b.movie, b.cinema, b.showtime)
  }

  /** A booking that still holds its seats. */
  predicate Active(b: Booking) {
    b.bookingStatus != Cancelled
  }

  /** The store filter shared by the conflict check and the availability
      query: same movie, cinema, date and time, and not cancelled. */
  predicate Matches(b: Booking, k: SlotKey) {
    Active(b) && KeyOf(b) == k
  }

  /** The required-field test of a booking request: every field truthy, so a
      total of 0 fails while an empty seat array passes. */
  predicate BookingRequestComplete(req: BookingRequest) {
    && TruthyString(req.movieId)
    && TruthyString(req.cinemaId)
    && Present(req.showtime)
    && Present(req.seats)
    && TruthyNumber(req.totalAmount)
  }

  /** The required-field test of an availability query; `seats` is optional. */
  predicate AvailabilityRequestComplete(req: AvailabilityRequest) {
    TruthyString(req.movieId) && TruthyString(req.cinemaId) && Present(req.showtime)
  }
}
