/** Which seats of a screening are taken, and the no-double-booking invariant.
    `BookedSeats` is the concatenation the availability query builds from the
    matching bookings; `HasConflict` is the probe `createBooking` runs before
    inserting; `NoDoubleBooking` is the invariant both are meant to
    protect. */
module SeatAvailability {
  import opened BookingTypes

  /** The `seats` of every booking matching `k`, concatenated in store order. */
  function BookedSeats(bs: seq<Booking>, k: SlotKey): seq<string> {
    if bs == [] then []
    else (if Matches(bs[0], k) then bs[0].seats else []) + BookedSeats(bs[1..], k)
  }

  /** A seat is booked exactly when some matching booking holds it. */
  lemma {:induction false} BookedSeatsMembership(bs: seq<Booking>, k: SlotKey, s: string)
    ensures s in BookedSeats(bs, k) <==> exists i :: 0 <= i < |bs| && Matches(bs[i], k) && s in bs[i].seats
  {
    if bs != [] {
      BookedSeatsMembership(bs[1..], k, s);
      if s in BookedSeats(bs[1..], k) {
        var i :| 0 <= i < |bs[1..]| && Matches(bs[1..][i], k) && s in bs[1..][i].seats;
        assert bs[i + 1] == bs[1..][i];
      }
      if exists i :: 0 <= i < |bs| && Matches(bs[i], k) && s in bs[i].seats {
        var i :| 0 <= i < |bs| && Matches(bs[i], k) && s in bs[i].seats;
        if i > 0 {
          assert bs[1..][i - 1] == bs[i];
        }
      }
    }
  }

  /** A screening that no booking matches has no booked seats. */
  lemma {:induction false} BookedSeatsNoMatch(bs: seq<Booking>, k: SlotKey)
    requires forall i :: 0 <= i < |bs| ==> !Matches(bs[i], k)
    ensures BookedSeats(bs, k) == []
  {
    if bs != [] {
      assert forall i :: 0 <= i < |bs[1..]| ==> bs[1..][i] == bs[i + 1];
      BookedSeatsNoMatch(bs[1..], k);
    }
  }

  /** The booked seats of two stretches of bookings are those of each, in order. */
  lemma {:induction false} BookedSeatsAppend(a: seq<Booking>, b: seq<Booking>, k: SlotKey)
    ensures BookedSeats(a + b, k) == BookedSeats(a, k) + BookedSeats(b, k)
  {
    if a != [] {
      var head := if Matches(a[0], k) then a[0].seats else [];
      assert (a + b)[0] == a[0];
      assert (a + b)[1..] == a[1..] + b;
      calc {
        BookedSeats(a + b, k);
        head + BookedSeats(a[1..] + b, k);
        { BookedSeatsAppend(a[1..], b, k); }
        head + (BookedSeats(a[1..], k) + BookedSeats(b, k));
        (head + BookedSeats(a[1..], k)) + BookedSeats(b, k);
      }
    } else {
      assert a + b == b;
    }
  }

  /** `requested.filter(seat => booked.includes(seat))`. */
  function UnavailableSeats(requested: seq<string>, booked: seq<string>): (r: seq<string>)
    ensures |r| <= |requested|
    ensures forall s :: s in r <==> s in requested && s in booked
  {
    if requested == [] then []
    else (if requested[0] in booked then [requested[0]] else []) + UnavailableSeats(requested[1..], booked)
  }

  /** Filtering keeps the requested order: filtering a concatenation is the
      concatenation of the filtered parts. */
  lemma {:induction false} UnavailableSeatsAppend(a: seq<string>, b: seq<string>, booked: seq<string>)
    ensures UnavailableSeats(a + b, booked) == UnavailableSeats(a, booked) + UnavailableSeats(b, booked)
  {
    if a != [] {
      var head := if a[0] in booked then [a[0]] else [];
      assert (a + b)[0] == a[0];
      assert (a + b)[1..] == a[1..] + b;
      calc {
        UnavailableSeats(a + b, booked);
        head + UnavailableSeats(a[1..] + b, booked);
        { UnavailableSeatsAppend(a[1..], b, booked); }
        head + (UnavailableSeats(a[1..], booked) + UnavailableSeats(b, booked));
        (head + UnavailableSeats(a[1..], booked)) + UnavailableSeats(b, booked);
      }
    } else {
      assert a + b == b;
    }
  }

  /** The seats an availability query asks about: those of an array, none otherwise. */
  function RequestedSeats(seats: SeatsField): seq<string> {
    if seats.List? then seats.seats else []
  }

  /** The payload of an availability query, given the booked seats. Only a
      non-empty array of seats is checked; the answer is "available" when
      `seats` is falsy or none of the requested seats is booked. */
  function CheckSeats(seats: SeatsField, booked: seq<string>): (r: Availability)
    ensures r.bookedSeats == booked
    ensures !seats.List? ==> r.unavailableSeats == [] && r.available
    ensures forall s :: s in r.unavailableSeats <==> s in RequestedSeats(seats) && s in booked
    ensures r.available <==> forall s :: s in RequestedSeats(seats) ==> s !in booked
    ensures r.unavailableSeats == UnavailableSeats(RequestedSeats(seats), booked)
  {
    var unavailable :=
      if seats.List? && |seats.seats| > 0 then UnavailableSeats(seats.seats, booked) else [];
    assert unavailable != [] ==> unavailable[0] in unavailable;
    Availability(seats.Falsy? || |unavailable| == 0, unavailable, booked)
  }

  /** A single requested seat is reported unavailable exactly when some
      non-cancelled booking for the same screening holds it. */
  lemma SingleSeatAvailability(bs: seq<Booking>, k: SlotKey, s: string)
    ensures !CheckSeats(List([s]), BookedSeats(bs, k)).available
        <==> exists i :: 0 <= i < |bs| && Matches(bs[i], k) && s in bs[i].seats
  {
    BookedSeatsMembership(bs, k, s);
  }

  /** `Booking.findOne({... seats: { $in: seats }, bookingStatus: { $ne: "cancelled" }})`
      finds something: a booking for the screening shares a requested seat. */
  predicate HasConflict(bs: seq<Booking>, k: SlotKey, seats: seq<string>) {
    exists i :: 0 <= i < |bs| && Matches(bs[i], k) && exists s :: s in seats && s in bs[i].seats
  }

  /** The conflict probe of `createBooking` agrees with the availability query: there is
      a conflict exactly when the query would report some requested seat as
      unavailable. */
  lemma ConflictIffUnavailable(bs: seq<Booking>, k: SlotKey, seats: seq<string>)
    ensures HasConflict(bs, k, seats) <==> UnavailableSeats(seats, BookedSeats(bs, k)) != []
  {
    if HasConflict(bs, k, seats) {
      var i, s :| 0 <= i < |bs| && Matches(bs[i], k) && s in seats && s in bs[i].seats;
      BookedSeatsMembership(bs, k, s);
      assert s in UnavailableSeats(seats, BookedSeats(bs, k));
    }
    if UnavailableSeats(seats, BookedSeats(bs, k)) != [] {
      var s := UnavailableSeats(seats, BookedSeats(bs, k))[0];
      assert s in UnavailableSeats(seats, BookedSeats(bs, k));
      BookedSeatsMembership(bs, k, s);
    }
  }

  predicate Disjoint(a: seq<string>, b: seq<string>) {
    forall s :: s in a ==> s !in b
  }

  /** No seat is held by two non-cancelled bookings of the same screening. */
  ghost predicate NoDoubleBooking(bs: seq<Booking>) {
    forall i, j :: 0 <= i < j < |bs| && Active(bs[i]) && Matches(bs[j], KeyOf(bs[i])) ==>
      Disjoint(bs[i].seats, bs[j].seats)
  }

  /** Appending a booking that passed the conflict test keeps the invariant. */
  lemma AppendWithoutConflict(bs: seq<Booking>, b: Booking)
    requires NoDoubleBooking(bs)
    requires !HasConflict(bs, KeyOf(b), b.seats)
    ensures NoDoubleBooking(bs + [b])
  {
    var bs' := bs + [b];
    forall i, j | 0 <= i < j < |bs'| && Active(bs'[i]) && Matches(bs'[j], KeyOf(bs'[i]))
      ensures Disjoint(bs'[i].seats, bs'[j].seats)
    {
      if j == |bs| {
        assert Matches(bs[i], KeyOf(b));
        assert bs'[j] == b;
      }
    }
  }

  /** `bs` with the status of booking `i` set to `status`. */
  function WithStatus(bs: seq<Booking>, i: nat, status: string): (r: seq<Booking>)
    requires i < |bs|
    ensures |r| == |bs| && r[i].bookingStatus == status
    ensures r[i] == bs[i].(bookingStatus := status)
    ensures forall j :: 0 <= j < |bs| && j != i ==> r[j] == bs[j]
  {
    bs[i := bs[i].(bookingStatus := status)]
  }

  /** The bookings other than booking `i`. */
  function Others(bs: seq<Booking>, i: nat): seq<Booking>
    requires i < |bs|
  {
    bs[..i] + bs[i + 1..]
  }

  lemma OthersIndex(bs: seq<Booking>, i: nat, j: nat)
    requires i < |bs| && j < |bs| && j != i
    ensures (if j < i then Others(bs, i)[j] else Others(bs, i)[j - 1]) == bs[j]
  {
  }

  /** Cancelling booking `i` removes exactly its seats from the booked seats of
      every screening. */
  lemma {:induction false} CancelRemovesSeats(bs: seq<Booking>, i: nat, k: SlotKey)
    requires i < |bs|
    ensures BookedSeats(WithStatus(bs, i, Cancelled), k) == BookedSeats(bs[..i], k) + BookedSeats(bs[i + 1..], k)
    ensures BookedSeats(bs, k)
         == BookedSeats(bs[..i], k) + (if Matches(bs[i], k) then bs[i].seats else []) + BookedSeats(bs[i + 1..], k)
  {
    var pre, post := bs[..i], bs[i + 1..];
    var c := WithStatus(bs, i, Cancelled);
    var x := c[i];
    assert bs == pre + [bs[i]] + post;
    assert c == pre + [x] + post by {
      forall j | 0 <= j < |c| ensures c[j] == (pre + [x] + post)[j] {
        if j < i { assert c[j] == pre[j]; } else if j > i { assert c[j] == post[j - i - 1]; }
      }
    }
    BookedSeatsSplit(pre, bs[i], post, k);
    BookedSeatsSplit(pre, x, post, k);
    assert !Matches(x, k);
    assert BookedSeats(pre, k) + [] == BookedSeats(pre, k);
  }

  lemma {:induction false} BookedSeatsSplit(a: seq<Booking>, x: Booking, b: seq<Booking>, k: SlotKey)
    ensures BookedSeats(a + [x] + b, k) == BookedSeats(a, k) + (if Matches(x, k) then x.seats else []) + BookedSeats(b, k)
  {
    BookedSeatsAppend(a + [x], b, k);
    BookedSeatsAppend(a, [x], k);
    assert BookedSeats([x], k) == (if Matches(x, k) then x.seats else []) + BookedSeats([], k);
  }

  /** Under the invariant, cancelling a booking frees each of its seats: the
      availability query no longer reports it booked for that screening. */
  lemma CancelFreesSeats(bs: seq<Booking>, i: nat, s: string)
    requires NoDoubleBooking(bs)
    requires i < |bs| && Active(bs[i]) && s in bs[i].seats
    ensures s !in BookedSeats(WithStatus(bs, i, Cancelled), KeyOf(bs[i]))
    ensures CheckSeats(List([s]), BookedSeats(WithStatus(bs, i, Cancelled), KeyOf(bs[i]))).available
  {
    var c := WithStatus(bs, i, Cancelled);
    var k := KeyOf(bs[i]);
    BookedSeatsMembership(c, k, s);
    forall j | 0 <= j < |c| && Matches(c[j], k) ensures s !in c[j].seats {
      if j < i {
        assert Matches(bs[i], KeyOf(bs[j]));
      }
    }
  }

  /** Changing a status keeps the invariant when the booking is cancelled by
      it, was already active, or shares no seat with the other active
      bookings of its screening. */
  lemma StatusChangeKeepsInvariant(bs: seq<Booking>, i: nat, status: string)
    requires NoDoubleBooking(bs) && i < |bs|
    requires status == Cancelled || Active(bs[i]) || !HasConflict(Others(bs, i), KeyOf(bs[i]), bs[i].seats)
    ensures NoDoubleBooking(WithStatus(bs, i, status))
  {
    var c := WithStatus(bs, i, status);
    forall a, b | 0 <= a < b < |c| && Active(c[a]) && Matches(c[b], KeyOf(c[a]))
      ensures Disjoint(c[a].seats, c[b].seats)
    {
      if a != i && b != i {
        assert Matches(bs[b], KeyOf(bs[a]));
      } else if Active(bs[i]) {
        assert Matches(bs[b], KeyOf(bs[a]));
      } else {
        // booking i is re-activated and shares no seat with the others
        var o := if a == i then b else a;
        OthersIndex(bs, i, o);
        var oi := if o < i then o else o - 1;
        assert Matches(Others(bs, i)[oi], KeyOf(bs[i]));
      }
    }
  }

  /** The status update re-checks no seats: giving a cancelled booking any
      other status while another active booking of the same screening holds
      one of its seats breaks the invariant. */
  lemma ReactivationDoubleBooks(bs: seq<Booking>, i: nat, status: string)
    requires i < |bs| && !Active(bs[i]) && status != Cancelled
    requires HasConflict(Others(bs, i), KeyOf(bs[i]), bs[i].seats)
    ensures !NoDoubleBooking(WithStatus(bs, i, status))
  {
    var c := WithStatus(bs, i, status);
    var oi, s :| 0 <= oi < |Others(bs, i)| && Matches(Others(bs, i)[oi], KeyOf(bs[i]))
              && s in bs[i].seats && s in Others(bs, i)[oi].seats;
    var o := if oi < i then oi else oi + 1;
    OthersIndex(bs, i, o);
    assert c[o] == bs[o] && c[i].seats == bs[i].seats;
    if o < i {
      assert Active(c[o]) && Matches(c[i], KeyOf(c[o]));
      assert !Disjoint(c[o].seats, c[i].seats);
    } else {
      assert Active(c[i]) && Matches(c[o], KeyOf(c[i]));
      assert !Disjoint(c[i].seats, c[o].seats);
    }
  }

  /** A payment-status change leaves every booking's seats, key and status as
      they were, so it keeps the no-double-booking invariant. */
  lemma PaymentChangeKeepsInvariant(bs: seq<Booking>, i: nat, paymentStatus: string)
    requires NoDoubleBooking(bs) && i < |bs|
    ensures NoDoubleBooking(bs[i := bs[i].(paymentStatus := paymentStatus)])
  {
    var c := bs[i := bs[i].(paymentStatus := paymentStatus)];
    assert forall j :: 0 <= j < |c| ==> Active(c[j]) == Active(bs[j]) && KeyOf(c[j]) == KeyOf(bs[j]) && c[j].seats == bs[j].seats;
  }
}
