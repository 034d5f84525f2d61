/** The booking controller over an in-memory document store. Each handler is
    one atomic step on the store: the requests of the web layer run one after
    the other. */
module BookingStore {
  import opened JsValues
  import opened BookingTypes
  import opened DocumentQueries
  import opened CinemaResolution
  import opened SeatAvailability
  import opened Access
  import MovieSchema

  /** Some cinema of `cs` has native id `id`. */
  predicate HasCinema(cs: seq<Cinema>, id: string) {
    exists j :: 0 <= j < |cs| && cs[j].id == id
  }

  /** Some movie of `ms` has native id `id`. */
  predicate HasMovie(ms: seq<MovieSchema.Movie>, id: string) {
    exists j :: 0 <= j < |ms| && ms[j].id == id
  }

  /** `Movie.findById(id)`: the first movie with native id `id`. */
  function MovieById(ms: seq<MovieSchema.Movie>, id: string): (r: Option<nat>)
    ensures r.None? <==> !HasMovie(ms, id)
  {
    FindFirst(ms, (m: MovieSchema.Movie) => m.id == id)
  }

  ghost predicate DistinctCinemaIds(cs: seq<Cinema>) {
    forall i, j :: 0 <= i < j < |cs| ==> cs[i].id != cs[j].id
  }

  ghost predicate DistinctBookingIds(bs: seq<Booking>) {
    forall i, j :: 0 <= i < j < |bs| ==> bs[i].id != bs[j].id
  }

  lemma HasCinemaAppend(cs: seq<Cinema>, c: Cinema, id: string)
    requires HasCinema(cs, id)
    ensures HasCinema(cs + [c], id)
  {
    var j :| 0 <= j < |cs| && cs[j].id == id;
    assert (cs + [c])[j] == cs[j];
  }

  class Store {
    /** `mongoose.Types.ObjectId.isValid`: which strings count as native ids. */
    const isNative: string -> bool
    var movies: seq<MovieSchema.Movie>
    var cinemas: seq<Cinema>
    /** The bookings in creation order. */
    var bookings: seq<Booking>

    /** Every stored movie, cinema and booking has a native id, cinema and
        booking ids are unique, and every booking references a stored movie
        and a stored cinema. */
    ghost predicate Valid()
      reads this
    {
      && (forall j :: 0 <= j < |movies| ==> isNative(movies[j].id))
      && (forall j :: 0 <= j < |cinemas| ==> isNative(cinemas[j].id))
      && (forall i :: 0 <= i < |bookings| ==> isNative(bookings[i].id))
      && DistinctCinemaIds(cinemas)
      && DistinctBookingIds(bookings)
      && (forall i :: 0 <= i < |bookings| ==> HasCinema(cinemas, bookings[i].cinema))
      && (forall i :: 0 <= i < |bookings| ==> HasMovie(movies, bookings[i].movie))
    }

    /** `id` is not the native id of any stored cinema. */
    ghost predicate FreshCinemaId(id: string)
      reads this
    {
      forall j :: 0 <= j < |cinemas| ==> cinemas[j].id != id
    }

    /** `id` is not the native id of any stored booking. */
    ghost predicate FreshBookingId(id: string)
      reads this
    {
      forall j :: 0 <= j < |bookings| ==> bookings[j].id != id
    }

    /** A store holding the given movies and cinemas and no bookings. */
    constructor (isNative: string -> bool, movies: seq<MovieSchema.Movie>, cinemas: seq<Cinema>)
      requires forall j :: 0 <= j < |movies| ==> isNative(movies[j].id)
      requires forall j :: 0 <= j < |cinemas| ==> isNative(cinemas[j].id)
      requires DistinctCinemaIds(cinemas)
      ensures Valid()
      ensures this.isNative == isNative && this.movies == movies && this.cinemas == cinemas && bookings == []
    {
      this.isNative := isNative;
      this.movies := movies;
      this.cinemas := cinemas;
      bookings := [];
    }

    /** The identifier branch of cinema resolution: find the cinema carrying
        `code`, or create the placeholder for it under `newCinemaId`. */
    method ResolveIdentifier(code: string, newCinemaId: string) returns (id: string)
      requires Valid() && isNative(newCinemaId) && FreshCinemaId(newCinemaId)
      modifies this`cinemas
      ensures Valid()
      ensures Resolution(id, cinemas) == ResolveCode(old(cinemas), code, newCinemaId)
    {
      var found := CinemaByCode(cinemas, code);
      if found.Some? {
        id := cinemas[found.value].id;
      } else {
        var c := Placeholder(code, newCinemaId);
        forall i | 0 <= i < |bookings| ensures HasCinema(cinemas + [c], bookings[i].cinema) {
          HasCinemaAppend(cinemas, c, bookings[i].cinema);
        }
        cinemas := cinemas + [c];
        id := newCinemaId;
      }
    }

    /** A string that is not a native id names no stored movie and no stored
        booking, and no booking of a movie with that id holds a seat. */
    lemma NonNativeFindsNothing(id: string, cinema: string, when: Showtime)
      requires Valid() && !isNative(id)
      ensures MovieById(movies, id).None? && BookingById(bookings, id).None?
      ensures BookedSeats(bookings, SlotKey(id, cinema, when)) == []
    {
      forall i | 0 <= i < |bookings| ensures !Matches(bookings[i], SlotKey(id, cinema, when)) {
        var j :| 0 <= j < |movies| && movies[j].id == bookings[i].movie;
      }
      BookedSeatsNoMatch(bookings, SlotKey(id, cinema, when));
    }

    /** POST /bookings. Validates the body, checks that the movie exists,
        resolves the cinema (possibly creating a placeholder, which stays even
        when the booking is then refused), refuses seats that a non-cancelled
        booking of the same screening holds, and otherwise appends one booking
        owned by the principal with payment status "pending". */
    method CreateBooking(p: Principal, req: BookingRequest, newCinemaId: string, newBookingId: string)
      returns (r: Outcome<Booking>)
      requires Valid() && isNative(newCinemaId) && FreshCinemaId(newCinemaId)
      requires isNative(newBookingId) && FreshBookingId(newBookingId)
      modifies this`cinemas, this`bookings
      ensures Valid()
      ensures !BookingRequestComplete(req) ==> r == ValidationError && unchanged(this)
      ensures BookingRequestComplete(req) && !HasMovie(movies, req.movieId.value) ==> r == NotFound && unchanged(this)
      ensures BookingRequestComplete(req) && HasMovie(movies, req.movieId.value) ==>
        var res := ResolveForBooking(old(cinemas), isNative, req.cinemaId.value, newCinemaId);
        && (res.None? ==> r == NotFound && unchanged(this))
        && (res.Some? ==>
              var key := SlotKey(req.movieId.value, res.value.cinemaId, req.showtime.value);
              && cinemas == res.value.cinemas
              && (HasConflict(old(bookings), key, req.seats.value) ==> r == Conflict && bookings == old(bookings))
              && (!HasConflict(old(bookings), key, req.seats.value) ==> r.Ok? && KeyOf(r.value) == key))
      ensures r.Ok? ==> bookings == old(bookings) + [r.value]
      ensures r.Ok? ==>
        r.value == Booking(newBookingId, p.id, req.movieId.value, r.value.cinema, req.showtime.value,
                           req.seats.value, req.totalAmount.value, DefaultBookingStatus, Pending)
      ensures r.Ok? ==> HasCinema(cinemas, r.value.cinema) && Active(r.value)
      ensures !r.Ok? ==> bookings == old(bookings)
      ensures NoDoubleBooking(old(bookings)) ==> NoDoubleBooking(bookings)
    {
      if !BookingRequestComplete(req) {
        return ValidationError;
      }
      var movieId, cinemaId, showtime := req.movieId.value, req.cinemaId.value, req.showtime.value;
      var seats, totalAmount := req.seats.value, req.totalAmount.value;
      if MovieById(movies, movieId).None? {
        return NotFound;
      }
      var resolved: string;
      if isNative(cinemaId) {
        var found := CinemaById(cinemas, cinemaId);
        if found.None? {
          return NotFound;
        }
        resolved := cinemas[found.value].id;
      } else {
        resolved := ResolveIdentifier(cinemaId, newCinemaId);
      }
      var key := SlotKey(movieId, resolved, showtime);
      if HasConflict(bookings, key, seats) {
        return Conflict;
      }
      var b := Booking(newBookingId, p.id, movieId, resolved, showtime, seats, totalAmount, DefaultBookingStatus, Pending);
      Insert(b);
      r := Ok(b);
    }

    /** `Booking.create`: appends a booking that references stored documents,
        has a fresh id and passed the conflict probe. */
    method Insert(b: Booking)
      requires Valid() && isNative(b.id) && FreshBookingId(b.id)
      requires HasCinema(cinemas, b.cinema) && HasMovie(movies, b.movie)
      requires !HasConflict(bookings, KeyOf(b), b.seats)
      modifies this`bookings
      ensures Valid() && bookings == old(bookings) + [b]
      ensures NoDoubleBooking(old(bookings)) ==> NoDoubleBooking(bookings)
    {
      if NoDoubleBooking(bookings) {
        AppendWithoutConflict(bookings, b);
      }
      bookings := bookings + [b];
    }

    /** POST /bookings/check-seats. Validates the body, resolves the cinema
        (a native id is used unchecked; a code may create a placeholder), and
        answers with the booked seats of the screening and which requested
        seats are among them. */
    method CheckSeatAvailability(req: AvailabilityRequest, newCinemaId: string) returns (r: Outcome<Availability>)
      requires Valid() && isNative(newCinemaId) && FreshCinemaId(newCinemaId)
      modifies this`cinemas
      ensures Valid()
      ensures !AvailabilityRequestComplete(req) ==> r == ValidationError && cinemas == old(cinemas)
      ensures AvailabilityRequestComplete(req) ==>
        var res := ResolveForQuery(old(cinemas), isNative, req.cinemaId.value, newCinemaId);
        && cinemas == res.cinemas
        && r == Ok(CheckSeats(req.seats, BookedSeats(bookings, SlotKey(req.movieId.value, res.cinemaId, req.showtime.value))))
    {
      if !AvailabilityRequestComplete(req) {
        return ValidationError;
      }
      var cinemaId := req.cinemaId.value;
      var resolved: string;
      if isNative(cinemaId) {
        resolved := cinemaId;
      } else {
        resolved := ResolveIdentifier(cinemaId, newCinemaId);
      }
      var booked := BookedSeats(bookings, SlotKey(req.movieId.value, resolved, req.showtime.value));
      r := Ok(CheckSeats(req.seats, booked));
    }

    /** GET /bookings/:id: the booking, to its owner or to an admin. */
    function GetBooking(p: Principal, id: string): (r: Outcome<Booking>)
      reads this
      ensures r.Ok? || r.NotFound? || r.Forbidden?
      ensures r.NotFound? <==> forall j :: 0 <= j < |bookings| ==> bookings[j].id != id
      ensures r.Ok? ==> r.value in bookings && r.value.id == id && CanAccess(p, r.value)
      ensures r.Forbidden? ==> p.role != AdminRole
      ensures r.Forbidden? ==> exists j :: 0 <= j < |bookings| && bookings[j].id == id && bookings[j].user != p.id
    {
      match BookingById(bookings, id)
      case None => NotFound
      case Some(i) => if CanAccess(p, bookings[i]) then Ok(bookings[i]) else Forbidden
    }

    /** GET /bookings: the principal's bookings, the newest first. */
    function GetUserBookings(p: Principal): (r: seq<Booking>)
      reads this
      ensures |r| == CountOwned(bookings, p.id)
      ensures forall i :: 0 <= i < |r| ==> r[i].user == p.id && r[i] in bookings
      ensures forall k :: 0 <= k < |bookings| && bookings[k].user == p.id ==>
        CountOwned(bookings[k + 1..], p.id) < |r| && r[CountOwned(bookings[k + 1..], p.id)] == bookings[k]
    {
      NewestFirstPositions(bookings, p.id);
      NewestFirst(bookings, p.id)
    }

    /** PUT /bookings/:id. A falsy status is refused before the lookup; the
        owner or an admin may then set any status, with no re-check of seats. */
    method UpdateBookingStatus(p: Principal, id: string, status: Option<string>) returns (r: Outcome<Booking>)
      requires Valid()
      modifies this`bookings
      ensures Valid()
      ensures !TruthyString(status) ==> r == ValidationError && bookings == old(bookings)
      ensures TruthyString(status) && BookingById(old(bookings), id).None? ==> r == NotFound && bookings == old(bookings)
      ensures TruthyString(status) && BookingById(old(bookings), id).Some? ==>
        var i := BookingById(old(bookings), id).value;
        if CanAccess(p, old(bookings)[i])
        then bookings == WithStatus(old(bookings), i, status.value) && r == Ok(bookings[i])
        else r == Forbidden && bookings == old(bookings)
      ensures r.Ok? ==> r.value.id == id && r.value.bookingStatus == status.value && CanAccess(p, r.value)
    {
      if !TruthyString(status) {
        return ValidationError;
      }
      var found := BookingById(bookings, id);
      if found.None? {
        return NotFound;
      }
      var i := found.value;
      if !CanAccess(p, bookings[i]) {
        return Forbidden;
      }
      bookings := WithStatus(bookings, i, status.value);
      r := Ok(bookings[i]);
    }

    /** PUT /bookings/:id/payment. In order: a falsy status is refused, an
        unknown id is not found, and anyone but an admin is forbidden, the
        owner included. Only the payment status changes. */
    method UpdatePaymentStatus(p: Principal, id: string, status: Option<string>) returns (r: Outcome<Booking>)
      requires Valid()
      modifies this`bookings
      ensures Valid()
      ensures !TruthyString(status) ==> r == ValidationError && bookings == old(bookings)
      ensures TruthyString(status) && BookingById(old(bookings), id).None? ==> r == NotFound && bookings == old(bookings)
      ensures TruthyString(status) && BookingById(old(bookings), id).Some? ==>
        var i := BookingById(old(bookings), id).value;
        if CanSetPaymentStatus(p)
        then bookings == old(bookings)[i := old(bookings)[i].(paymentStatus := status.value)] && r == Ok(bookings[i])
        else r == Forbidden && bookings == old(bookings)
      ensures r.Ok? ==> r.value.id == id && r.value.paymentStatus == status.value && p.role == AdminRole
      ensures NoDoubleBooking(old(bookings)) ==> NoDoubleBooking(bookings)
    {
      if !TruthyString(status) {
        return ValidationError;
      }
      var found := BookingById(bookings, id);
      if found.None? {
        return NotFound;
      }
      var i := found.value;
      if !CanSetPaymentStatus(p) {
        return Forbidden;
      }
      if NoDoubleBooking(bookings) {
        PaymentChangeKeepsInvariant(bookings, i, status.value);
      }
      var updated := bookings[i := bookings[i].(paymentStatus := status.value)];
      assert forall j :: 0 <= j < |updated| ==>
        updated[j].id == bookings[j].id && updated[j].cinema == bookings[j].cinema && updated[j].movie == bookings[j].movie;
      bookings := updated;
      r := Ok(bookings[i]);
    }
  }
}
