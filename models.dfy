/**
 * The data the core works on: the rating enumeration, a bank's credit
 * bounds, banks and groups as the configuration backend serves them, and the
 * errors the services raise.
 */
module Models {
  import opened Wrappers

  /** Kotlin `Int`: the width of the usage counters in a group's `stats`. */
  newtype int32 = x: int | -0x8000_0000 <= x < 0x8000_0000

  const INT32_MAX: int32 := 0x7fff_ffff
  const INT32_MIN: int32 := -0x8000_0000

  /** `n + 1` on a Kotlin `Int`: wraps around at the top of the range. */
  function Inc(n: int32): (r: int32)
    ensures n < INT32_MAX ==> r as int == n as int + 1
    ensures (r as int - n as int - 1) % 0x1_0000_0000 == 0
  {
    if n == INT32_MAX then INT32_MIN else n + 1
  }

  /**
   * The external rating enumeration, in declaration order.  There is no `M`:
   * the enumeration runs A..L, then N, O, P.
   */
  datatype RatingLevel = A | B | C | D | E | F | G | H | I | J | K | L | N | O | P

  const RATING_LEVELS: seq<RatingLevel> := [A, B, C, D, E, F, G, H, I, J, K, L, N, O, P]

  /** The enum's ordinal; `<=` on rating levels compares these. */
  function Ordinal(level: RatingLevel): (k: nat)
    ensures k < |RATING_LEVELS|
  {
    match level
    case A => 0  case B => 1  case C => 2  case D => 3  case E => 4
    case F => 5  case G => 6  case H => 7  case I => 8  case J => 9
    case K => 10 case L => 11 case N => 12 case O => 13 case P => 14
  }

  /** The ordinal indexes the level in the enumeration's order. */
  lemma LevelAtOrdinal(level: RatingLevel)
    ensures RATING_LEVELS[Ordinal(level)] == level
  {
  }

  /** The letter that names a level: A..L, then N..P (the alphabet without M). */
  function Letter(level: RatingLevel): (c: char)
    ensures 'A' <= c <= 'Z' && c != 'M'
  {
    var k := Ordinal(level);
    ('A' as int + k + (if k < 12 then 0 else 1)) as char
  }

  /** The enum constant's `name`: one upper-case letter. */
  function Name(level: RatingLevel): (s: string)
    ensures |s| == 1 && 'A' <= s[0] <= 'Z'
  {
    [Letter(level)]
  }

  /** Distinct levels have distinct names. */
  lemma NameInjective(a: RatingLevel, b: RatingLevel)
    requires Name(a) == Name(b)
    ensures a == b
  {
    assert Name(a)[0] == Name(b)[0];
    assert Ordinal(a) == Ordinal(b);
    LevelAtOrdinal(a);
    LevelAtOrdinal(b);
  }

  /** CreditConfiguration: the bounds a bank accepts for a credit request. */
  datatype CreditConfiguration = CreditConfiguration(
    minAmountInEuros: int,
    maxAmountInEuros: int,
    minTermInMonths: int,
    maxTermInMonths: int,
    minSchufaRating: RatingLevel,
    maxSchufaRating: RatingLevel
  )

  /** A client team, as stored by the configuration backend. */
  datatype Group = Group(
    id: string,
    username: string,
    password: string,
    jmsQueue: string,
    students: seq<string>,
    stats: map<string, int32>,
    hasPassed: bool
  )

  /** A bank record; its credit configuration may be absent. */
  datatype Bank = Bank(
    jmsQueue: string,
    name: string,
    thumbnailUrl: string,
    isAsync: bool,
    isActive: bool,
    creditConfiguration: Option<CreditConfiguration>,
    groups: seq<Group>
  )

  /** The exceptions the core raises or lets through. */
  datatype Error =
    | ClientRequestError(status: int)   // a 4xx reply (ClientRequestException)
    | ServerResponseError(status: int)  // a 5xx reply once retries are spent (ServerResponseException)
    | ResponseError(status: int)        // any other non-success reply
    | NotFound(message: string)         // NotFoundException
    | IllegalState(message: string)     // IllegalStateException
    | NoSuchElement                     // `first()` of an empty string
    | NumberFormat                      // `toDouble()` of a string that is no number
    | Invalid(reasons: seq<string>)     // a rule set's reasons (RequestValidationException, ValidationException)
}
