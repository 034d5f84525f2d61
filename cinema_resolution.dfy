/** Turning the `cinemaId` of a request into the native id of a stored cinema.
    A native id is looked up when a booking is created, and fails when no
    cinema has it, while the availability query uses it unchecked. Any other
    string is an identifier code, looked up among the cinemas and, when no
    cinema carries it, materialised as a placeholder cinema built from a
    fixed table. */
module CinemaResolution {
  import opened JsValues
  import opened BookingTypes
  import opened DocumentQueries

  const PlaceholderAddress := "123 Example Street"
  const PlaceholderCity := "Hồ Chí Minh"
  const NameDistrict1 := "CineStar Quận 1"
  const NameDistrict7 := "CineStar Quận 7"
  const District1 := "Quận 1"
  const District7 := "Quận 7"

  /** `Cinema.findById(id)`: the first cinema whose native id is `id`. */
  function CinemaById(cs: seq<Cinema>, id: string): (r: Option<nat>)
    ensures r.Some? ==> r.value < |cs| && cs[r.value].id == id && forall j :: 0 <= j < r.value ==> cs[j].id != id
    ensures r.None? <==> forall j :: 0 <= j < |cs| ==> cs[j].id != id
  {
    FindFirst(cs, (c: Cinema) => c.id == id)
  }

  /** `Cinema.findOne({ identifier: code })`: the first cinema carrying the code. */
  function CinemaByCode(cs: seq<Cinema>, code: string): (r: Option<nat>)
    ensures r.Some? ==> r.value < |cs| && cs[r.value].identifier == Some(code)
    ensures r.Some? ==> forall j :: 0 <= j < r.value ==> cs[j].identifier != Some(code)
    ensures r.None? <==> forall j :: 0 <= j < |cs| ==> cs[j].identifier != Some(code)
  {
    FindFirst(cs, (c: Cinema) => c.identifier == Some(code))
  }

  /** The placeholder cinema created for an unknown code: named after
      district 7 exactly for code "2", located in district 1 exactly for code
      "1", always at the fixed address and city. */
  function Placeholder(code: string, id: string): (c: Cinema)
    ensures c.id == id && c.identifier == Some(code)
    ensures c.name == NameDistrict7 <==> code == "2"
    ensures c.name == NameDistrict1 <==> code != "2"
    ensures c.location.district == District1 <==> code == "1"
    ensures c.location.district == District7 <==> code != "1"
    ensures c.location.address == PlaceholderAddress && c.location.city == PlaceholderCity
  {
    var name := if code == "2" then NameDistrict7 else NameDistrict1;
    assert NameDistrict7[|NameDistrict7| - 1] != NameDistrict1[|NameDistrict1| - 1];
    assert District7[|District7| - 1] != District1[|District1| - 1];
    Cinema(id, Some(code), name,
           Location(PlaceholderAddress, if code == "1" then District1 else District7, PlaceholderCity))
  }

  /** The result of resolving a cinema: its native id and the cinemas afterwards. */
  datatype Resolution = Resolution(cinemaId: string, cinemas: seq<Cinema>)

  /** Resolving an identifier code, with `newId` the id a created cinema gets.
      The resolved cinema is afterwards the first carrying the code; nothing
      is created when one already existed, and exactly the placeholder is
      appended otherwise. */
  function ResolveCode(cs: seq<Cinema>, code: string, newId: string): (r: Resolution)
    ensures CinemaByCode(r.cinemas, code).Some?
    ensures r.cinemas[CinemaByCode(r.cinemas, code).value].id == r.cinemaId
    ensures CinemaByCode(cs, code).Some? ==> r.cinemas == cs
    ensures CinemaByCode(cs, code).None? ==> r.cinemas == cs + [Placeholder(code, newId)] && r.cinemaId == newId
  {
    match CinemaByCode(cs, code)
    case Some(i) => Resolution(cs[i].id, cs)
    case None =>
      var cs' := cs + [Placeholder(code, newId)];
      FindFirstAppend(cs, Placeholder(code, newId), (c: Cinema) => c.identifier == Some(code));
      Resolution(newId, cs')
  }

  /** The resolution done when creating a booking: a native id must name a
      stored cinema (None stands for "Cinema not found"); a code always
      resolves. The resolved id always names a stored cinema. */
  function ResolveForBooking(cs: seq<Cinema>, isNative: string -> bool, cinemaId: string, newId: string): (r: Option<Resolution>)
    ensures r.None? <==> isNative(cinemaId) && forall j :: 0 <= j < |cs| ==> cs[j].id != cinemaId
    ensures r.Some? ==> exists j :: 0 <= j < |r.value.cinemas| && r.value.cinemas[j].id == r.value.cinemaId
    ensures r.Some? && isNative(cinemaId) ==> r.value == Resolution(cinemaId, cs)
    ensures !isNative(cinemaId) ==> r == Some(ResolveCode(cs, cinemaId, newId))
  {
    if isNative(cinemaId) then
      match CinemaById(cs, cinemaId)
      case Some(i) => Some(Resolution(cs[i].id, cs))
      case None => None
    else
      Some(ResolveCode(cs, cinemaId, newId))
  }

  /** The resolution done by the availability query: a native id is used as
      it is, without checking that such a cinema exists; a code resolves as
      for a booking. */
  function ResolveForQuery(cs: seq<Cinema>, isNative: string -> bool, cinemaId: string, newId: string): (r: Resolution)
    ensures isNative(cinemaId) ==> r == Resolution(cinemaId, cs)
    ensures !isNative(cinemaId) ==> Some(r) == ResolveForBooking(cs, isNative, cinemaId, newId)
  {
    if isNative(cinemaId) then Resolution(cinemaId, cs) else ResolveCode(cs, cinemaId, newId)
  }

  /** Resolving the same code twice creates at most one cinema: the second
      resolution finds the cinema the first one returned and changes nothing. */
  lemma {:induction false} ResolveCodeIdempotent(cs: seq<Cinema>, code: string, id1: string, id2: string)
    ensures ResolveCode(ResolveCode(cs, code, id1).cinemas, code, id2) == ResolveCode(cs, code, id1)
  {
    var r1 := ResolveCode(cs, code, id1);
    var r2 := ResolveCode(r1.cinemas, code, id2);
    assert r2.cinemas == r1.cinemas;
  }

  /** Materialising one code leaves the resolution of every other code as it was. */
  lemma {:induction false} ResolveCodeOtherCode(cs: seq<Cinema>, code: string, other: string, id: string)
    requires other != code
    ensures CinemaByCode(ResolveCode(cs, code, id).cinemas, other) == CinemaByCode(cs, other)
  {
    if CinemaByCode(cs, code).None? {
      FindFirstAppend(cs, Placeholder(code, id), (c: Cinema) => c.identifier == Some(other));
    }
  }

  /** For a code other than "1" and "2" the placeholder's name and district
      disagree: it is named after district 1 but located in district 7. */
  lemma PlaceholderNameDistrictDisagree(code: string, id: string)
    requires code != "1" && code != "2"
    ensures Placeholder(code, id).name == NameDistrict1
    ensures Placeholder(code, id).location.district == District7
  {
  }
}
