/** The declarative constraints of the movie schema: which fields are required,
    the trimming and length bound on the title, the numeric bounds, the two
    non-empty list validators, the defaults and the shape of a showtime entry.
    `Create` is what saving a new movie document does: apply the setters and
    defaults, run every validator, and either store the document or report the
    set of paths that failed. */
module MovieSchema {
  import opened JsValues

  /** Longest title accepted, counted in UTF-16 code units after trimming. */
  const MaxTitleLength := 100

  /** Characters removed by `String.prototype.trim`: the ECMAScript WhiteSpace
      and LineTerminator code points. */
  predicate IsJsWhitespace(c: char) {
    var n := c as int;
    n == 0x09 || n == 0x0A || n == 0x0B || n == 0x0C || n == 0x0D || n == 0x20 ||
    n == 0xA0 || n == 0x1680 || (0x2000 <= n <= 0x200A) || n == 0x2028 || n == 0x2029 ||
    n == 0x202F || n == 0x205F || n == 0x3000 || n == 0xFEFF
  }

  /** A string that neither starts nor ends with whitespace. */
  predicate Trimmed(s: string) {
    s == [] || (!IsJsWhitespace(s[0]) && !IsJsWhitespace(s[|s| - 1]))
  }

  /** Leading whitespace removed: the result is the suffix of `s` left after
      dropping only whitespace, and it does not itself start with whitespace. */
  function TrimStart(s: string): (r: string)
    ensures |r| <= |s| && r == s[|s| - |r|..]
    ensures forall i :: 0 <= i < |s| - |r| ==> IsJsWhitespace(s[i])
    ensures r == [] || !IsJsWhitespace(r[0])
  {
    if s != [] && IsJsWhitespace(s[0]) then TrimStart(s[1..]) else s
  }

  /** Trailing whitespace removed: the result is the prefix of `s` left after
      dropping only whitespace, and it does not itself end with whitespace. */
  function TrimEnd(s: string): (r: string)
    ensures |r| <= |s| && r == s[..|r|]
    ensures forall i :: |r| <= i < |s| ==> IsJsWhitespace(s[i])
    ensures r == [] || !IsJsWhitespace(r[|r| - 1])
  {
    if s != [] && IsJsWhitespace(s[|s| - 1]) then TrimEnd(s[..|s| - 1]) else s
  }

  /** `r` is what is left of `s` after dropping the first `a` characters and
      everything after the next `|r|`, all of them whitespace. */
  predicate StripsTo(s: string, a: nat, r: string) {
    && a + |r| <= |s| && r == s[a..a + |r|]
    && (forall i :: 0 <= i < a ==> IsJsWhitespace(s[i]))
    && (forall i :: a + |r| <= i < |s| ==> IsJsWhitespace(s[i]))
  }

  /** `s.trim()`: the result is the infix of `s` left after dropping only
      leading and trailing whitespace, it starts and ends with no whitespace,
      and a string that is already trimmed is left as it is. */
  function Trim(s: string): (r: string)
    ensures Trimmed(r)
    ensures |r| <= |s|
    ensures exists a :: StripsTo(s, a, r)
    ensures Trimmed(s) ==> r == s
  {
    var t := TrimStart(s);
    var r := TrimEnd(t);
    TrimBothEnds(s, t, r);
    assert r != [] ==> r[0] == t[0];
    assert Trimmed(s) ==> t == s && r == t;
    r
  }

  /** Dropping whitespace from the start and then from the end strips `s` to an infix. */
  lemma TrimBothEnds(s: string, t: string, r: string)
    requires |t| <= |s| && t == s[|s| - |t|..] && forall i :: 0 <= i < |s| - |t| ==> IsJsWhitespace(s[i])
    requires |r| <= |t| && r == t[..|r|] && forall i :: |r| <= i < |t| ==> IsJsWhitespace(t[i])
    ensures StripsTo(s, |s| - |t|, r)
  {
    var a := |s| - |t|;
    assert r == s[a..][..|r|] == s[a..a + |r|];
    forall i | a + |r| <= i < |s| ensures IsJsWhitespace(s[i]) {
      assert s[i] == t[i - a];
    }
  }

  /** `s.length` in JavaScript: code points outside the Basic Multilingual
      Plane take two UTF-16 code units. */
  function Utf16Length(s: string): (n: nat)
    ensures |s| <= n <= 2 * |s|
  {
    if s == [] then 0
    else (if s[0] as int >= 0x10000 then 2 else 1) + Utf16Length(s[1..])
  }

  /** One entry of `showtimes` as supplied: each part may be missing. A missing
      `times` array is the empty array. */
  datatype ShowtimeInput = ShowtimeInput(cinema: Option<string>, date: Option<int>, times: seq<string>)

  /** One stored entry of `showtimes`: a cinema reference and a date are present. */
  datatype Showing = Showing(cinema: string, date: int, times: seq<string>)

  /** The fields supplied for a new movie. Dates are already-normalised
      timestamps; a missing array field is the empty array (the default the
      document layer gives every array path). */
  datatype MovieInput = MovieInput(
    title: Option<string>,
    description: Option<string>,
    duration: Option<real>,
    releaseDate: Option<int>,
    posterUrl: Option<string>,
    trailerUrl: Option<string>,
    genre: seq<string>,
    director: Option<string>,
    cast: seq<string>,
    rating: Option<real>,
    isShowing: Option<bool>,
    showtimes: seq<ShowtimeInput>)

  /** A stored movie document. */
  datatype Movie = Movie(
    id: string,
    title: string,
    description: string,
    duration: real,
    releaseDate: int,
    posterUrl: string,
    trailerUrl: string,
    genre: seq<string>,
    director: string,
    cast: seq<string>,
    rating: real,
    isShowing: bool,
    showtimes: seq<Showing>)

  /** A path that failed validation; a showtime path carries its index. */
  datatype Path =
    | Title | Description | Duration | ReleaseDate | Genre | Director | Cast | Rating
    | ShowtimeCinema(index: nat) | ShowtimeDate(index: nat)

  /** The schema's constraints on a stored document. */
  predicate ValidMovie(m: Movie) {
    && Trimmed(m.title) && m.title != [] && Utf16Length(m.title) <= MaxTitleLength
    && m.description != ""
    && m.duration >= 1.0
    && |m.genre| > 0
    && m.director != ""
    && |m.cast| > 0
    && 0.0 <= m.rating <= 5.0
  }

  /** A required string path: missing and "" both fail the required validator. */
  predicate RequiredString(f: Option<string>) {
    f.Some? && f.value != ""
  }

  /** The title path after the trim setter: required, and at most 100 units long. */
  predicate TitleAccepted(f: Option<string>) {
    f.Some? && Trim(f.value) != [] && Utf16Length(Trim(f.value)) <= MaxTitleLength
  }

  /** The constraint at path `p` fails on `input`. */
  predicate Fails(input: MovieInput, p: Path) {
    match p
    case Title => !TitleAccepted(input.title)
    case Description => !RequiredString(input.description)
    case Duration => input.duration.None? || input.duration.value < 1.0
    case ReleaseDate => input.releaseDate.None?
    case Genre => input.genre == []
    case Director => !RequiredString(input.director)
    case Cast => input.cast == []
    case Rating => input.rating.Some? && !(0.0 <= input.rating.value <= 5.0)
    case ShowtimeCinema(i) => i < |input.showtimes| && input.showtimes[i].cinema.None?
    case ShowtimeDate(i) => i < |input.showtimes| && input.showtimes[i].date.None?
  }

  /** The paths that hold one value each. */
  const ScalarPaths: set<Path> := {Title, Description, Duration, ReleaseDate, Genre, Director, Cast, Rating}

  /** Every path whose validator fails on `input`. */
  function Errors(input: MovieInput): set<Path> {
    (set p | p in ScalarPaths && Fails(input, p))
    + (set i: nat | i < |input.showtimes| && input.showtimes[i].cinema.None? :: ShowtimeCinema(i))
    + (set i: nat | i < |input.showtimes| && input.showtimes[i].date.None? :: ShowtimeDate(i))
  }

  /** The stored form of the showtime entries, once each carries its cinema and date. */
  function Showings(sts: seq<ShowtimeInput>): (r: seq<Showing>)
    requires forall i :: 0 <= i < |sts| ==> sts[i].cinema.Some? && sts[i].date.Some?
    ensures |r| == |sts|
    ensures forall i :: 0 <= i < |sts| ==>
      r[i].cinema == sts[i].cinema.value && r[i].date == sts[i].date.value && r[i].times == sts[i].times
  {
    seq(|sts|, i requires 0 <= i < |sts| => Showing(sts[i].cinema.value, sts[i].date.value, sts[i].times))
  }

  /** Saving a new movie under the freshly assigned `id`: a document that meets
      every constraint, with the title trimmed, the supplied values kept and
      the defaults (posterUrl "", trailerUrl "", rating 0, isShowing true)
      filled in; or the non-empty set of failing paths. */
  function Create(input: MovieInput, id: string): (r: Result)
    ensures r.Stored? ==> ValidMovie(r.movie) && r.movie.id == id
    ensures r.Stored? ==> input.title.Some? && r.movie.title == Trim(input.title.value)
    ensures r.Stored? ==> input.description == Some(r.movie.description) && input.director == Some(r.movie.director)
    ensures r.Stored? ==> input.duration == Some(r.movie.duration) && input.releaseDate == Some(r.movie.releaseDate)
    ensures r.Stored? ==> r.movie.genre == input.genre && r.movie.cast == input.cast
    ensures r.Stored? ==> r.movie.posterUrl == (if input.posterUrl.None? then "" else input.posterUrl.value)
    ensures r.Stored? ==> r.movie.trailerUrl == (if input.trailerUrl.None? then "" else input.trailerUrl.value)
    ensures r.Stored? ==> r.movie.rating == (if input.rating.None? then 0.0 else input.rating.value)
    ensures r.Stored? ==> r.movie.isShowing == (input.isShowing.None? || input.isShowing.value)
    ensures r.Stored? ==> |r.movie.showtimes| == |input.showtimes|
    ensures r.Stored? ==> forall i :: 0 <= i < |input.showtimes| ==>
      && input.showtimes[i].cinema == Some(r.movie.showtimes[i].cinema)
      && input.showtimes[i].date == Some(r.movie.showtimes[i].date)
      && input.showtimes[i].times == r.movie.showtimes[i].times
    ensures r.Stored? <==> forall p :: !Fails(input, p)
    ensures r.Rejected? ==> r.paths != {} && forall p :: p in r.paths <==> Fails(input, p)
  {
    var errors := Errors(input);
    ErrorsExact(input);
    if errors != {} then Rejected(errors)
    else
      assert !Fails(input, Title) && !Fails(input, Description) && !Fails(input, Duration)
        && !Fails(input, ReleaseDate) && !Fails(input, Genre) && !Fails(input, Director)
        && !Fails(input, Cast) && !Fails(input, Rating);
      assert forall i :: 0 <= i < |input.showtimes| ==> !Fails(input, ShowtimeCinema(i)) && !Fails(input, ShowtimeDate(i));
      NormalisedValid(input, id);
      Stored(Normalised(input, id))
  }

  /** A complete input on which no one-value path fails normalises to a valid document. */
  lemma NormalisedValid(input: MovieInput, id: string)
    requires Complete(input)
    requires !Fails(input, Title) && !Fails(input, Description) && !Fails(input, Duration)
    requires !Fails(input, Genre) && !Fails(input, Director) && !Fails(input, Cast) && !Fails(input, Rating)
    ensures ValidMovie(Normalised(input, id))
  {
  }

  /** The paths `Errors` collects are exactly the failing ones. */
  lemma ErrorsExact(input: MovieInput)
    ensures forall p :: p in Errors(input) <==> Fails(input, p)
  {
    forall p ensures p in Errors(input) <==> Fails(input, p) {
      match p
      case ShowtimeCinema(i) =>
      case ShowtimeDate(i) =>
      case _ =>
    }
  }

  /** Every field a stored document needs is supplied. */
  predicate Complete(input: MovieInput) {
    && input.title.Some? && input.description.Some? && input.duration.Some?
    && input.releaseDate.Some? && input.director.Some?
    && forall i :: 0 <= i < |input.showtimes| ==> input.showtimes[i].cinema.Some? && input.showtimes[i].date.Some?
  }

  /** The document built from a complete input: the title trimmed by its
      setter and each missing optional field set to its default. */
  function Normalised(input: MovieInput, id: string): Movie
    requires Complete(input)
  {
    Movie(id, Trim(input.title.value), input.description.value, input.duration.value,
          input.releaseDate.value, input.posterUrl.GetOr(""), input.trailerUrl.GetOr(""),
          input.genre, input.director.value, input.cast, input.rating.GetOr(0.0),
          input.isShowing.GetOr(true), Showings(input.showtimes))
  }

  /** The outcome of saving: the stored document, or the failing paths. */
  datatype Result = Stored(movie: Movie) | Rejected(paths: set<Path>)

  /** The input that supplies every field of `m` explicitly. */
  function AsInput(m: Movie): MovieInput {
    MovieInput(Some(m.title), Some(m.description), Some(m.duration), Some(m.releaseDate),
               Some(m.posterUrl), Some(m.trailerUrl), m.genre, Some(m.director), m.cast,
               Some(m.rating), Some(m.isShowing),
               seq(|m.showtimes|, i requires 0 <= i < |m.showtimes| =>
                 ShowtimeInput(Some(m.showtimes[i].cinema), Some(m.showtimes[i].date), m.showtimes[i].times)))
  }

  /** Every document that meets the constraints can be saved as it is: the
      constraints `Create` checks are exactly those of `ValidMovie`, and the
      trim setter leaves a valid title unchanged. */
  lemma CreateAcceptsValid(m: Movie)
    requires ValidMovie(m)
    ensures Create(AsInput(m), m.id) == Stored(m)
  {
    var input := AsInput(m);
    assert Trim(m.title) == m.title;
    assert Errors(input) == {};
    assert Showings(input.showtimes) == m.showtimes;
  }

  /** Every complete input whose normalised document meets the constraints is
      saved as that document: an untrimmed title is stored trimmed, and an
      omitted poster, trailer, rating or showing flag takes its default. */
  lemma CreateStoresNormalised(input: MovieInput, id: string)
    requires Complete(input) && ValidMovie(Normalised(input, id))
    ensures Create(input, id) == Stored(Normalised(input, id))
  {
    assert Errors(input) == {};
  }

  /** A missing or all-whitespace title is rejected at the title path. */
  lemma BlankTitleRejected(input: MovieInput, id: string)
    requires input.title.None? || forall i :: 0 <= i < |input.title.value| ==> IsJsWhitespace(input.title.value[i])
    ensures Create(input, id).Rejected? && Title in Create(input, id).paths
  {
    if input.title.Some? {
      var s := input.title.value;
      assert TrimStart(s) == [];
    }
  }

  /** A title longer than 100 UTF-16 units after trimming is rejected. */
  lemma LongTitleRejected(input: MovieInput, id: string)
    requires input.title.Some? && Utf16Length(Trim(input.title.value)) > MaxTitleLength
    ensures Create(input, id).Rejected? && Title in Create(input, id).paths
  {
  }

  /** Each required path reports an error when its value is missing; an empty
      `genre` or `cast` array fails its validator; a showtime entry without a
      cinema or a date fails at that entry's path. */
  lemma MissingRequiredRejected(input: MovieInput, id: string, i: nat)
    requires input.description.None? || input.director.None? || input.duration.None?
          || input.releaseDate.None? || input.genre == [] || input.cast == []
          || (i < |input.showtimes| && (input.showtimes[i].cinema.None? || input.showtimes[i].date.None?))
    ensures Create(input, id).Rejected?
    ensures input.description.None? ==> Description in Create(input, id).paths
    ensures input.director.None? ==> Director in Create(input, id).paths
    ensures input.duration.None? ==> Duration in Create(input, id).paths
    ensures input.releaseDate.None? ==> ReleaseDate in Create(input, id).paths
    ensures input.genre == [] ==> Genre in Create(input, id).paths
    ensures input.cast == [] ==> Cast in Create(input, id).paths
    ensures i < |input.showtimes| && input.showtimes[i].cinema.None? ==> ShowtimeCinema(i) in Create(input, id).paths
    ensures i < |input.showtimes| && input.showtimes[i].date.None? ==> ShowtimeDate(i) in Create(input, id).paths
  {
    var e := Errors(input);
    if i < |input.showtimes| && input.showtimes[i].cinema.None? {
      assert ShowtimeCinema(i) in e;
    }
    if i < |input.showtimes| && input.showtimes[i].date.None? {
      assert ShowtimeDate(i) in e;
    }
  }

  /** Out-of-range numbers are rejected: a duration below 1, a rating outside [0, 5]. */
  lemma BoundsRejected(input: MovieInput, id: string)
    requires (input.duration.Some? && input.duration.value < 1.0)
          || (input.rating.Some? && (input.rating.value < 0.0 || input.rating.value > 5.0))
    ensures Create(input, id).Rejected?
    ensures input.duration.Some? && input.duration.value < 1.0 ==> Duration in Create(input, id).paths
    ensures input.rating.Some? && !(0.0 <= input.rating.value <= 5.0) ==> Rating in Create(input, id).paths
  {
  }
}
