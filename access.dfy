/** Who may see and change a booking, and the order in which a user's
    bookings are listed. */
module Access {
  import opened JsValues
  import opened BookingTypes
  import opened DocumentQueries

  /** The guard of reading a booking and of changing its status: the owner or an admin. */
  predicate CanAccess(p: Principal, b: Booking) {
    b.user == p.id || p.role == AdminRole
  }

  /** The guard of changing a payment status: an admin only. */
  predicate CanSetPaymentStatus(p: Principal) {
    p.role == AdminRole
  }

  /** Every principal allowed to set a payment status may also read and update
      every booking, while an owner who is not an admin may not set the
      payment status of the booking the owner holds. */
  lemma PaymentGuardStricter(p: Principal, b: Booking)
    ensures CanSetPaymentStatus(p) ==> CanAccess(p, b)
    ensures b.user == p.id && p.role != AdminRole ==> CanAccess(p, b) && !CanSetPaymentStatus(p)
  {
  }

  /** `Booking.findById(id)`: the first booking with native id `id`. */
  function BookingById(bs: seq<Booking>, id: string): (r: Option<nat>)
    ensures r.Some? ==> r.value < |bs| && bs[r.value].id == id && forall j :: 0 <= j < r.value ==> bs[j].id != id
    ensures r.None? <==> forall j :: 0 <= j < |bs| ==> bs[j].id != id
  {
    FindFirst(bs, (b: Booking) => b.id == id)
  }

  /** Number of bookings of user `u`. */
  function CountOwned(bs: seq<Booking>, u: string): (n: nat)
    ensures n <= |bs|
    ensures n == 0 <==> forall i :: 0 <= i < |bs| ==> bs[i].user != u
  {
    if bs == [] then 0 else (if bs[0].user == u then 1 else 0) + CountOwned(bs[1..], u)
  }

  /** `Booking.find({ user: u }).sort("-createdAt")`, with bookings stored in
      creation order: the user's bookings, the newest first. */
  function NewestFirst(bs: seq<Booking>, u: string): (r: seq<Booking>)
    ensures forall i :: 0 <= i < |r| ==> r[i].user == u && r[i] in bs
  {
    if bs == [] then []
    else NewestFirst(bs[1..], u) + (if bs[0].user == u then [bs[0]] else [])
  }

  /** The listing holds exactly the user's bookings, in reverse store order:
      the booking at store position `k` is listed after exactly those of the
      user's bookings stored after it. */
  lemma {:induction false} NewestFirstPositions(bs: seq<Booking>, u: string)
    ensures |NewestFirst(bs, u)| == CountOwned(bs, u)
    ensures forall k :: 0 <= k < |bs| && bs[k].user == u ==>
      CountOwned(bs[k + 1..], u) < |NewestFirst(bs, u)| && NewestFirst(bs, u)[CountOwned(bs[k + 1..], u)] == bs[k]
  {
    if bs != [] {
      NewestFirstPositions(bs[1..], u);
      var rest := NewestFirst(bs[1..], u);
      var r := NewestFirst(bs, u);
      forall k | 0 <= k < |bs| && bs[k].user == u
        ensures CountOwned(bs[k + 1..], u) < |r| && r[CountOwned(bs[k + 1..], u)] == bs[k]
      {
        if k == 0 {
          assert bs[1..] == bs[k + 1..];
        } else {
          assert bs[1..][k - 1] == bs[k];
          assert bs[1..][k - 1 + 1..] == bs[k + 1..];
          assert r[CountOwned(bs[k + 1..], u)] == rest[CountOwned(bs[k + 1..], u)];
        }
      }
    }
  }
}
