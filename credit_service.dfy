/**
 * CreditService: the lending rate offered for a credit request.  The rate is
 * the sum of three floor-modular contributions (term, amount, rating) plus a
 * random part in [0, 3), taken modulo 10.
 *
 * The random draw is a parameter `random` in [0, 1) (`Math.random()`); the
 * waiting before the calculation is recorded, not performed.
 */
module Credit {
  import opened Wrappers
  import opened Models
  import opened Text
  import BankCall

  const ZERO_DELAY := 0
  const DIVISOR_TERM_IN_MONTHS := 12
  const DIVISOR_AMOUNT_IN_EUROS := 1_000
  const DIVISOR_RATING_LEVEL := 10
  const MULTIPLIER_LENDING_RATE := 3
  const DIVISOR_LENDING_RATE := 10.0

  /** The offer returned to the client. */
  datatype CreditOffer = CreditOffer(lendingRateInPercent: real)

  /**
   * One wait of `calculateCredit`: how long it lasted and how many bounds
   * fetches the bank client had made when it began.
   */
  datatype Wait = Wait(millis: nat, fetchesBefore: nat)

  /** How long `delay(timeMillis)` suspends: a duration of zero or less returns at once. */
  function WaitedFor(timeMillis: int): (w: nat)
    ensures timeMillis > 0 ==> w == timeMillis
    ensures timeMillis <= 0 ==> w == 0
  {
    if timeMillis > 0 then timeMillis else 0
  }

  /** Kotlin's `%` on `Int`: the remainder takes the sign of the dividend. */
  function Rem(a: int, d: int): (r: int)
    requires d > 0
    ensures a >= 0 ==> 0 <= r < d
    ensures a < 0 ==> -d < r <= 0
    ensures (a - r) % d == 0
  {
    if a >= 0 then
      UniqueRemainder(a - a % d, d, a / d, 0);
      a % d
    else
      UniqueRemainder(a + (-a) % d, d, -((-a) / d), 0);
      -((-a) % d)
  }

  /** Kotlin's `Int.mod(other)`: the remainder moved into [0, other) for a positive divisor. */
  function FloorMod(a: int, d: int): (r: int)
    requires d > 0
    ensures 0 <= r < d
  {
    var rem := Rem(a, d);
    if rem < 0 then rem + d else rem
  }

  lemma MultipleAtLeast(k: int, d: int)
    requires k >= 1 && d > 0
    ensures k * d >= d
  {
    assert k * d == (k - 1) * d + d;
    assert (k - 1) * d >= 0;
  }

  /** A remainder in [0, d) is determined by the dividend. */
  lemma UniqueRemainder(a: int, d: int, q: int, r: int)
    requires d > 0 && 0 <= r < d && a == q * d + r
    ensures a % d == r
  {
    var q', r' := a / d, a % d;
    assert a == q' * d + r';
    assert (q - q') * d == r' - r;
    if q > q' {
      MultipleAtLeast(q - q', d);
    } else if q < q' {
      MultipleAtLeast(q' - q, d);
    }
  }

  /** For a positive divisor `mod` is the Euclidean remainder: a multiple of d away from a. */
  lemma FloorModIsEuclidean(a: int, d: int)
    requires d > 0
    ensures FloorMod(a, d) == a % d
  {
    if a < 0 {
      var q, m := (-a) / d, (-a) % d;
      assert -a == q * d + m;
      if m == 0 {
        UniqueRemainder(a, d, -q, 0);
      } else {
        assert a == (-q - 1) * d + (d - m);
        UniqueRemainder(a, d, -q - 1, d - m);
      }
    }
  }

  /**
   * `Double.mod(10.0)`: x minus the largest multiple of 10 not above it, so
   * the rest lies in [0, 10) and differs from x by a whole multiple of 10.
   */
  function ModLendingRate(x: real): (r: real)
    ensures 0.0 <= r < DIVISOR_LENDING_RATE
    ensures ((x - r) / DIVISOR_LENDING_RATE).Floor as real == (x - r) / DIVISOR_LENDING_RATE
  {
    var q := (x / 10.0).Floor;
    assert q as real <= x / 10.0 < q as real + 1.0;
    assert (x - (x - q as real * 10.0)) / 10.0 == q as real;
    x - q as real * 10.0
  }

  /**
   * `ratingLevel.uppercase().first() - minSchufaRating.name.first()`: the
   * distance of the rating's initial from the lowest rating accepted;
   * `first()` of an empty string throws.
   */
  function RatingOffset(ratingLevel: string, minSchufaRating: RatingLevel): (r: Result<int, Error>)
    ensures r.Failure? <==> ratingLevel == []
    ensures r.Failure? ==> r.error == NoSuchElement
    ensures r.Success? ==> r.value == UpperChar(ratingLevel[0]) as int - Letter(minSchufaRating) as int
  {
    if ratingLevel == [] then Failure(NoSuchElement)
    else Success(Uppercase(ratingLevel)[0] as int - Name(minSchufaRating)[0] as int)
  }

  /** The three integer contributions, each already reduced by its divisor. */
  function Contributions(config: CreditConfiguration, amountInEuros: int, termInMonths: int, ratingLevel: string): (r: Result<int, Error>)
    ensures r.Failure? <==> ratingLevel == []
    ensures r.Success? ==> 0 <= r.value <= 11 + 999 + 9
  {
    match RatingOffset(ratingLevel, config.minSchufaRating)
    case Failure(e) => Failure(e)
    case Success(offset) =>
      Success(FloorMod(termInMonths, DIVISOR_TERM_IN_MONTHS) + FloorMod(amountInEuros, DIVISOR_AMOUNT_IN_EUROS)
        + FloorMod(offset, DIVISOR_RATING_LEVEL))
  }

  /**
   * The lending rate for the given bounds and draw: in [0, 10), and the sum of
   * the contributions and the random part minus a multiple of 10.
   */
  function LendingRate(config: CreditConfiguration, amountInEuros: int, termInMonths: int, ratingLevel: string, random: real): (r: Result<real, Error>)
    requires 0.0 <= random < 1.0
    ensures r.Failure? <==> ratingLevel == []
    ensures r.Failure? ==> r.error == NoSuchElement
    ensures r.Success? ==> 0.0 <= r.value < DIVISOR_LENDING_RATE
    ensures r.Success? ==>
      var sum := Contributions(config, amountInEuros, termInMonths, ratingLevel).value as real
        + random * MULTIPLIER_LENDING_RATE as real;
      ((sum - r.value) / DIVISOR_LENDING_RATE).Floor as real == (sum - r.value) / DIVISOR_LENDING_RATE
  {
    match Contributions(config, amountInEuros, termInMonths, ratingLevel)
    case Failure(e) => Failure(e)
    case Success(c) => Success(ModLendingRate(c as real + random * MULTIPLIER_LENDING_RATE as real))
  }

  /** Upper- and lower-casing a rating leave its offset unchanged. */
  lemma RatingOffsetIgnoresCase(ratingLevel: string, minSchufaRating: RatingLevel)
    ensures RatingOffset(Lowercase(ratingLevel), minSchufaRating) == RatingOffset(ratingLevel, minSchufaRating)
    ensures RatingOffset(Uppercase(ratingLevel), minSchufaRating) == RatingOffset(ratingLevel, minSchufaRating)
  {
    if ratingLevel != [] {
      var c := ratingLevel[0];
      assert UpperChar(LowerChar(c)) == UpperChar(c);
      assert UpperChar(UpperChar(c)) == UpperChar(c);
    }
  }

  /** Both spellings of a rating give the same lending rate. */
  lemma LendingRateIgnoresCase(config: CreditConfiguration, amountInEuros: int, termInMonths: int, ratingLevel: string, random: real)
    requires 0.0 <= random < 1.0
    ensures LendingRate(config, amountInEuros, termInMonths, Lowercase(ratingLevel), random)
         == LendingRate(config, amountInEuros, termInMonths, ratingLevel, random)
    ensures LendingRate(config, amountInEuros, termInMonths, Uppercase(ratingLevel), random)
         == LendingRate(config, amountInEuros, termInMonths, ratingLevel, random)
  {
    RatingOffsetIgnoresCase(ratingLevel, config.minSchufaRating);
  }

  /**
   * For a rating that names a level, the offset is the distance between the
   * two letters; the missing M makes it one more than the distance between
   * positions once the rating is N or later and the minimum L or earlier.
   */
  lemma RatingOffsetOfLevel(level: RatingLevel, minSchufaRating: RatingLevel)
    ensures RatingOffset(Name(level), minSchufaRating)
         == Success(Ordinal(level) - Ordinal(minSchufaRating)
                    + (if Ordinal(level) >= 12 && Ordinal(minSchufaRating) < 12 then 1 else 0)
                    - (if Ordinal(level) < 12 && Ordinal(minSchufaRating) >= 12 then 1 else 0))
  {
    assert UpperChar(Letter(level)) == Letter(level);
  }

  class CreditService {
    const bankCall: BankCall.BankCallService
    /** The waits of each calculation, stamped with the bounds fetches made before them. */
    var waits: seq<Wait>

    constructor(bankCall: BankCall.BankCallService)
      ensures this.bankCall == bankCall && waits == []
    {
      this.bankCall := bankCall;
      waits := [];
    }

    /** `ratingLevel.getMinSchufaRating()`: fetches the bounds, then measures the offset. */
    method GetMinSchufaRating(ratingLevel: string) returns (result: Result<int, Error>)
      modifies bankCall
      ensures bankCall.fetched == old(bankCall.fetched) + [bankCall.defaultBankId]
      ensures bankCall.requests == old(bankCall.requests)
        + BankCall.Repeat(BankCall.BankUrl(bankCall.config, bankCall.defaultBankId), old(bankCall.NextExchange(bankCall.defaultBankId)).attempts)
      ensures result == match old(bankCall.NextCreditConfig())
        case Failure(e) => Failure(e)
        case Success(config) => RatingOffset(ratingLevel, config.minSchufaRating)
    {
      var config := bankCall.GetCreditConfigByBankId(None);
      if config.Failure? {
        return Failure(config.error);
      }
      result := RatingOffset(ratingLevel, config.value.minSchufaRating);
    }

    /** `calculateLendingRate`: one bounds fetch, the contributions added up in turn, then `mod 10.0`. */
    method CalculateLendingRate(amountInEuros: int, termInMonths: int, ratingLevel: string, random: real)
      returns (result: Result<real, Error>)
      requires 0.0 <= random < 1.0
      modifies bankCall
      ensures bankCall.fetched == old(bankCall.fetched) + [bankCall.defaultBankId]
      ensures bankCall.requests == old(bankCall.requests)
        + BankCall.Repeat(BankCall.BankUrl(bankCall.config, bankCall.defaultBankId), old(bankCall.NextExchange(bankCall.defaultBankId)).attempts)
      ensures result == match old(bankCall.NextCreditConfig())
        case Failure(e) => Failure(e)
        case Success(config) => LendingRate(config, amountInEuros, termInMonths, ratingLevel, random)
    {
      var creditRate := FloorMod(termInMonths, DIVISOR_TERM_IN_MONTHS) as real;
      creditRate := creditRate + FloorMod(amountInEuros, DIVISOR_AMOUNT_IN_EUROS) as real;
      var offset := GetMinSchufaRating(ratingLevel);
      if offset.Failure? {
        return Failure(offset.error);
      }
      creditRate := creditRate + FloorMod(offset.value, DIVISOR_RATING_LEVEL) as real;
      creditRate := creditRate + random * MULTIPLIER_LENDING_RATE as real;
      result := Success(ModLendingRate(creditRate));
    }

    /** `calculateCredit`: wait `delayInMilliseconds ?: 0`, then compute the rate. */
    method CalculateCredit(amountInEuros: int, termInMonths: int, ratingLevel: string, delayInMilliseconds: Option<int>, random: real)
      returns (result: Result<CreditOffer, Error>)
      requires 0.0 <= random < 1.0
      modifies this, bankCall
      ensures waits == old(waits) + [Wait(WaitedFor(delayInMilliseconds.GetOr(ZERO_DELAY)), |old(bankCall.fetched)|)]
      ensures bankCall.fetched == old(bankCall.fetched) + [bankCall.defaultBankId]
      ensures bankCall.requests == old(bankCall.requests)
        + BankCall.Repeat(BankCall.BankUrl(bankCall.config, bankCall.defaultBankId), old(bankCall.NextExchange(bankCall.defaultBankId)).attempts)
      ensures result == match old(bankCall.NextCreditConfig())
        case Failure(e) => Failure(e)
        case Success(config) =>
          match LendingRate(config, amountInEuros, termInMonths, ratingLevel, random)
          case Failure(e) => Failure(e)
          case Success(rate) => Success(CreditOffer(rate))
    {
      waits := waits + [Wait(WaitedFor(delayInMilliseconds.GetOr(ZERO_DELAY)), |bankCall.fetched|)];
      var rate := CalculateLendingRate(amountInEuros, termInMonths, ratingLevel, random);
      if rate.Failure? {
        return Failure(rate.error);
      }
      result := Success(CreditOffer(rate.value));
    }
  }
}
