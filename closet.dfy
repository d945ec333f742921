/**
 * The closet service's value types: the colours of garments, the preference
 * rows read for a shirt, the rating a user submits, the rendered combo and
 * the error enumeration of the request handlers.
 */
module Closet {

  /** A value of Rust's `i32`: garment colours and the cooldown window in days. */
  newtype I32 = x: int | -0x8000_0000 <= x < 0x8000_0000

  /** A 128-bit UUID, kept as its numeric value; the model only compares it. */
  newtype UserId = x: int | 0 <= x < 0x1_0000_0000_0000_0000_0000_0000_0000_0000

  datatype Option<+T> = None | Some(value: T)

  datatype Result<+T, +E> = Ok(value: T) | Err(error: E)

  /** A shirt or a pair of shorts, as the eligibility queries return it. */
  datatype ClotheColor = ClotheColor(color: I32)

  /**
   * One preference row for the chosen shirt: a shorts colour and its weight.
   * The weight is an `f32` in the database; here it is a real number.
   */
  datatype WeightedShort = WeightedShort(shortColor: I32, weight: real)

  /** The verdict a user gives on a delivered combo. */
  datatype Rating = Good | TooSoon | Bad

  /** The form body of a rating request. */
  datatype RatedCombo = RatedCombo(rating: Rating, shirtColor: I32, shortColor: I32)

  /** The pair of colours handed to the page template. */
  datatype ComboView = ComboView(shirtColor: I32, shortColor: I32)

  /** Errors raised by foreign crates; only their display text is kept. */
  datatype SqlxError = SqlxError(message: string)
  datatype RenderError = RenderError(message: string)
  datatype JoinError = JoinError(message: string)
  datatype UuidError = UuidError(message: string)

  /** The handler error enumeration, one constructor per variant. */
  datatype Error =
    | Render(render: RenderError)
    | Sqlx(sqlx: SqlxError)
    | UserIdAndDays
    | EmptyClothes(what: string)
    | Join(join: JoinError)
    | Uuid(uuid: UuidError)

  /** The text `Display` prints for a rating: the variant name, as `Debug` writes it. */
  function RatingName(r: Rating): (s: string)
    ensures r.Good? ==> s == "Good"
    ensures r.TooSoon? ==> s == "TooSoon"
    ensures r.Bad? ==> s == "Bad"
  {
    match r
    case Good => "Good"
    case TooSoon => "TooSoon"
    case Bad => "Bad"
  }

  /** The derived deserializer of a unit-variant enum: a variant is read from its name. */
  function ParseRating(s: string): (r: Option<Rating>)
    ensures r.None? <==> s !in {"Good", "TooSoon", "Bad"}
  {
    if s == "Good" then Some(Good)
    else if s == "TooSoon" then Some(TooSoon)
    else if s == "Bad" then Some(Bad)
    else None
  }

  /** Printing a rating and reading it back gives the same rating. */
  lemma RatingNameParses(r: Rating)
    ensures ParseRating(RatingName(r)) == Some(r)
  {
  }

  /** Every text that reads as a rating is exactly the name that rating prints. */
  lemma ParsedRatingPrints(s: string, r: Rating)
    requires ParseRating(s) == Some(r)
    ensures RatingName(r) == s
  {
  }

  /** Distinct ratings print distinctly. */
  lemma RatingNameInjective(a: Rating, b: Rating)
    ensures RatingName(a) == RatingName(b) ==> a == b
  {
  }

  /**
   * The error's `Display` text: the wrapped error's own text for the
   * transparent variants, a fixed sentence for the other two.
   */
  function Message(e: Error): (s: string)
    ensures e.Render? ==> s == e.render.message
    ensures e.Sqlx? ==> s == e.sqlx.message
    ensures e.Join? ==> s == e.join.message
    ensures e.Uuid? ==> s == e.uuid.message
    ensures e.UserIdAndDays? ==> s == "failed to get user id and days"
    ensures e.EmptyClothes? ==> s == "failed to find any " + e.what
  {
    match e
    case Render(re) => re.message
    case Sqlx(se) => se.message
    case UserIdAndDays => "failed to get user id and days"
    case EmptyClothes(what) => "failed to find any " + what
    case Join(je) => je.message
    case Uuid(ue) => ue.message
  }
}
