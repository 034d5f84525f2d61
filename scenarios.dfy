/** Two scenarios proved from the booking handlers' contracts alone:
    the seat check after a booking, and the double booking that a status
    update lets through. */
module Scenarios {
  import opened JsValues
  import opened BookingTypes
  import opened SeatAvailability
  import opened CinemaResolution
  import opened BookingStore
  import MovieSchema

  /** A native id is 24 characters long in these scenarios; "1" is a cinema code. */
  function NativeForScenarios(s: string): bool {
    |s| == 24
  }

  /** The native ids of the movie, and of the cinemas and bookings the
      scenarios create. */
  const MovieM := "650000000000000000000100"
  const FirstCinema := "650000000000000000000001"
  const SecondCinema := "650000000000000000000002"
  const FirstBooking := "650000000000000000000201"
  const SecondBooking := "650000000000000000000202"

  function SomeMovie(id: string): MovieSchema.Movie {
    MovieSchema.Movie(id, "M", "d", 120.0, 0, "", "", ["drama"], "dir", ["actor"], 0.0, true, [])
  }

  lemma ScenarioIds()
    ensures SecondCinema != FirstCinema && SecondBooking != FirstBooking
    ensures NativeForScenarios(FirstCinema) && NativeForScenarios(SecondCinema)
    ensures NativeForScenarios(FirstBooking) && NativeForScenarios(SecondBooking)
  {
    assert SecondCinema[23] != FirstCinema[23] && SecondBooking[23] != FirstBooking[23];
  }

  /** Resolving code "1" in a store without cinemas materialises its placeholder. */
  lemma FirstResolution()
    ensures ResolveForBooking([], NativeForScenarios, "1", FirstCinema) == Some(Resolution(FirstCinema, [Placeholder("1", FirstCinema)]))
  {
    assert !NativeForScenarios("1");
    assert CinemaByCode([], "1") == None;
    assert ResolveCode([], "1", FirstCinema) == Resolution(FirstCinema, [Placeholder("1", FirstCinema)]);
  }

  /** Once code "1" has been materialised, resolving it again creates nothing. */
  lemma ResolutionWithCodeOne(newId: string)
    ensures ResolveForBooking([Placeholder("1", FirstCinema)], NativeForScenarios, "1", newId) == Some(Resolution(FirstCinema, [Placeholder("1", FirstCinema)]))
    ensures ResolveForQuery([Placeholder("1", FirstCinema)], NativeForScenarios, "1", newId) == Resolution(FirstCinema, [Placeholder("1", FirstCinema)])
  {
    FirstResolution();
    ResolveCodeIdempotent([], "1", FirstCinema, newId);
  }

  lemma CancelledHoldsNothing(bs: seq<Booking>, k: SlotKey, seats: seq<string>)
    requires forall i :: 0 <= i < |bs| ==> !Active(bs[i])
    ensures !HasConflict(bs, k, seats)
  {
  }

  lemma AnswerForA1A3()
    ensures CheckSeats(List(["A1", "A3"]), ["A1", "A2"]) == Availability(false, ["A1"], ["A1", "A2"])
  {
    assert "A3"[1] != "A1"[1] && "A3"[1] != "A2"[1];
    assert UnavailableSeats(["A3"], ["A1", "A2"]) == [];
  }

  lemma OneBookingHolds(b: Booking, k: SlotKey)
    requires Matches(b, k)
    ensures BookedSeats([b], k) == b.seats
  {
    assert BookedSeats([b][1..], k) == [];
  }

  /** The first booking of an empty store: `p` books `seats` of movie M in
      cinema "1", which is materialised as the placeholder for code "1". */
  method BookFirst(store: Store, when: Showtime, p: Principal, seats: seq<string>)
    requires store.Valid() && store.isNative == NativeForScenarios
    requires HasMovie(store.movies, MovieM) && store.cinemas == [] && store.bookings == []
    modifies store
    ensures store.Valid() && store.movies == old(store.movies)
    ensures store.cinemas == [Placeholder("1", FirstCinema)]
    ensures store.bookings == [Booking(FirstBooking, p.id, MovieM, FirstCinema, when, seats, 75000.0, DefaultBookingStatus, Pending)]
  {
    FirstResolution();
    ScenarioIds();
    var req := BookingRequest(Some(MovieM), Some("1"), Some(when), Some(seats), Some(75000.0));
    assert BookingRequestComplete(req);
    assert !HasConflict([], SlotKey(MovieM, FirstCinema, when), seats);
    var created := store.CreateBooking(p, req, FirstCinema, FirstBooking);
    assert created.Ok?;
    assert store.bookings == [] + [created.value];
  }

  /** With A1 and A2 booked, asking about A1 and A3 reports A1 as unavailable,
      with A1 and A2 booked. */
  method AskAboutA1A3(store: Store, when: Showtime, cinemaId: string) returns (answer: Outcome<Availability>)
    requires cinemaId != FirstCinema && NativeForScenarios(cinemaId)
    requires store.Valid() && store.isNative == NativeForScenarios
    requires store.cinemas == [Placeholder("1", FirstCinema)]
    requires |store.bookings| == 1 && Matches(store.bookings[0], SlotKey(MovieM, FirstCinema, when))
    requires store.bookings[0].seats == ["A1", "A2"]
    modifies store
    ensures answer == Ok(Availability(false, ["A1"], ["A1", "A2"]))
  {
    ResolutionWithCodeOne(cinemaId);
    OneBookingHolds(store.bookings[0], SlotKey(MovieM, FirstCinema, when));
    assert store.bookings == [store.bookings[0]];
    AnswerForA1A3();
    answer := store.CheckSeatAvailability(
      AvailabilityRequest(Some(MovieM), Some("1"), Some(when), List(["A1", "A3"])), cinemaId);
  }

  /** User A books A1 and A2 of movie M in cinema "1" at 18:00; asking about
      A1 and A3 then reports A1 as unavailable. */
  method SeatCheckAfterBooking() {
    var store := new Store(NativeForScenarios, [SomeMovie(MovieM)], []);
    var when := Showtime(20240601, "18:00");
    assert HasMovie(store.movies, MovieM) by { assert store.movies[0].id == MovieM; }
    BookFirst(store, when, Principal("userA", "user"), ["A1", "A2"]);
    ScenarioIds();
    var answer := AskAboutA1A3(store, when, SecondCinema);
  }

  /** User A books seat A1 in cinema "1" and cancels the booking. */
  method BookThenCancel(store: Store, when: Showtime)
    requires store.Valid() && store.isNative == NativeForScenarios
    requires HasMovie(store.movies, MovieM) && store.cinemas == [] && store.bookings == []
    modifies store
    ensures store.Valid() && store.movies == old(store.movies)
    ensures store.cinemas == [Placeholder("1", FirstCinema)]
    ensures |store.bookings| == 1 && !Active(store.bookings[0])
    ensures store.bookings[0].id == FirstBooking && store.bookings[0].user == "userA"
    ensures store.bookings[0].seats == ["A1"] && KeyOf(store.bookings[0]) == SlotKey(MovieM, FirstCinema, when)
  {
    var alice := Principal("userA", "user");
    BookFirst(store, when, alice, ["A1"]);
    var cancelled := store.UpdateBookingStatus(alice, FirstBooking, Some(Cancelled));
    assert cancelled.Ok?;
  }

  /** User B books seat A1, which the cancelled booking no longer holds. */
  method Rebook(store: Store, when: Showtime, cinemaId: string, bookingId: string)
    requires cinemaId != FirstCinema && NativeForScenarios(cinemaId) && bookingId != FirstBooking
    requires NativeForScenarios(bookingId)
    requires store.Valid() && store.isNative == NativeForScenarios && HasMovie(store.movies, MovieM)
    requires store.cinemas == [Placeholder("1", FirstCinema)]
    requires |store.bookings| == 1 && !Active(store.bookings[0])
    requires store.bookings[0].id == FirstBooking && store.bookings[0].user == "userA"
    requires store.bookings[0].seats == ["A1"] && KeyOf(store.bookings[0]) == SlotKey(MovieM, FirstCinema, when)
    modifies store
    ensures store.Valid() && |store.bookings| == 2 && store.bookings[0] == old(store.bookings[0])
    ensures Matches(store.bookings[1], SlotKey(MovieM, FirstCinema, when)) && store.bookings[1].seats == ["A1"]
  {
    ResolutionWithCodeOne(cinemaId);
    var key := SlotKey(MovieM, FirstCinema, when);
    var req := BookingRequest(Some(MovieM), Some("1"), Some(when), Some(["A1"]), Some(75000.0));
    CancelledHoldsNothing(store.bookings, key, ["A1"]);
    assert BookingRequestComplete(req);
    var second := store.CreateBooking(Principal("userB", "user"), req, cinemaId, bookingId);
    assert second.Ok? && KeyOf(second.value) == key;
  }

  /** User A sets the cancelled booking back to "active": both bookings now hold A1. */
  method Reactivate(store: Store, when: Showtime)
    requires store.Valid() && |store.bookings| == 2
    requires store.bookings[0].id == FirstBooking && store.bookings[0].user == "userA"
    requires store.bookings[0].seats == ["A1"] && KeyOf(store.bookings[0]) == SlotKey(MovieM, FirstCinema, when)
    requires Matches(store.bookings[1], SlotKey(MovieM, FirstCinema, when)) && store.bookings[1].seats == ["A1"]
    modifies store
    ensures !NoDoubleBooking(store.bookings)
  {
    var reactivated := store.UpdateBookingStatus(Principal("userA", "user"), FirstBooking, Some("active"));
    assert reactivated.Ok?;
    var b0, b1 := store.bookings[0], store.bookings[1];
    assert Active(b0) && Matches(b1, KeyOf(b0)) && "A1" in b0.seats && "A1" in b1.seats;
  }

  /** User B then books the same seat, and user A sets the cancelled booking
      back to "active": a store without double bookings ends with one. */
  method RebookThenReactivate(store: Store, when: Showtime)
    requires store.Valid() && store.isNative == NativeForScenarios && HasMovie(store.movies, MovieM)
    requires store.cinemas == [Placeholder("1", FirstCinema)]
    requires |store.bookings| == 1 && !Active(store.bookings[0])
    requires store.bookings[0].id == FirstBooking && store.bookings[0].user == "userA"
    requires store.bookings[0].seats == ["A1"] && KeyOf(store.bookings[0]) == SlotKey(MovieM, FirstCinema, when)
    modifies store
    ensures NoDoubleBooking(old(store.bookings))
    ensures !NoDoubleBooking(store.bookings)
  {
    ScenarioIds();
    Rebook(store, when, SecondCinema, SecondBooking);
    Reactivate(store, when);
  }

  /** User A books A1 and cancels; user B then books A1; user A sets the first
      booking back to "active", and both now hold A1. */
  method ReactivationAfterRebooking() {
    var store := new Store(NativeForScenarios, [SomeMovie(MovieM)], []);
    var when := Showtime(20240601, "18:00");
    assert HasMovie(store.movies, MovieM) by { assert store.movies[0].id == MovieM; }
    BookThenCancel(store, when);
    RebookThenReactivate(store, when);
  }
}
