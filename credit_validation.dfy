/**
 * CreditValidationService: the rule set checked against the six raw query
 * parameters of a credit request, built from the bank's credit bounds.
 */
module CreditValidation {
  import opened Wrappers
  import opened Models
  import opened Text
  import Rules
  import BankCall

  const AMOUNT_IN_EUROS := "amountInEuros"
  const TERM_IN_MONTHS := "termInMonths"
  const RATING_LEVEL := "ratingLevel"
  const DELAY_IN_MILLISECONDS := "delayInMilliseconds"
  const USERNAME := "username"
  const PASSWORD := "password"

  const USERNAME_MIN_LENGTH: nat := 6
  const USERNAME_MAX_LENGTH: nat := 50
  const PASSWORD_MIN_LENGTH: nat := 8
  const PASSWORD_MAX_LENGTH: nat := 50

  const WHOLE_NUMBER_MESSAGE := "must be a whole number"

  /** The request's query parameters, each possibly absent. */
  datatype CreditResource = CreditResource(
    amountInEuros: Option<string>,
    termInMonths: Option<string>,
    ratingLevel: Option<string>,
    delayInMilliseconds: Option<string>,
    username: Option<string>,
    password: Option<string>
  )

  /** `numberType()`: every character is a digit. */
  function NumberType(text: string): (c: Rules.Check)
    ensures c == Rules.Pass <==> IsNumber(text)
    ensures c != Rules.Pass ==> c == Rules.Fail(WHOLE_NUMBER_MESSAGE)
  {
    if IsNumber(text) then Rules.Pass else Rules.Fail(WHOLE_NUMBER_MESSAGE)
  }

  /** `toDouble()` reads a string of digits exactly when it is non-empty and all ASCII. */
  predicate Converts(text: string) {
    text != "" && IsAsciiDigits(text)
  }

  /**
   * The text passes `isNumber` but `toDouble()` throws on it: the empty
   * string, or digits from another script such as "١٢" or full-width "１２".
   */
  predicate Unconvertible(text: string) {
    IsNumber(text) && !Converts(text)
  }

  /**
   * `minimum(minimumInclusive)` on text: a non-number passes (numberType
   * reports it); a number is converted and compared with the bound, and the
   * conversion throws on an unconvertible one.
   */
  function Minimum(text: string, bound: int): (c: Rules.Check)
    ensures !IsNumber(text) ==> c == Rules.Pass
    ensures c == Rules.Crash <==> Unconvertible(text)
    ensures Converts(text) ==> (c == Rules.Pass <==> bound <= NumberValue(text))
    ensures c.Fail? ==> c == Rules.Fail(Rules.AtLeastMessage(bound))
  {
    if !IsNumber(text) then Rules.Pass
    else if !Converts(text) then Rules.Crash
    else Rules.Minimum(NumberValue(text), bound)
  }

  /** `maximum(maximumInclusive)` on text, the mirror image of `Minimum`. */
  function Maximum(text: string, bound: int): (c: Rules.Check)
    ensures !IsNumber(text) ==> c == Rules.Pass
    ensures c == Rules.Crash <==> Unconvertible(text)
    ensures Converts(text) ==> (c == Rules.Pass <==> NumberValue(text) <= bound)
    ensures c.Fail? ==> c == Rules.Fail(Rules.AtMostMessage(bound))
  {
    if !IsNumber(text) then Rules.Pass
    else if !Converts(text) then Rules.Crash
    else Rules.Maximum(NumberValue(text), bound)
  }

  /** A non-empty string of ASCII digits whose value lies in [min, max]. */
  predicate IsWholeNumberBetween(text: string, min: int, max: int) {
    Converts(text) && min <= NumberValue(text) <= max
  }

  /** `field required { numberType(); minimum(min); maximum(max) }`. */
  function WholeNumberBetween(field: string, value: Option<string>, min: int, max: int): (o: Rules.Outcome)
    ensures value == None ==> o == Rules.Missing(field)
    ensures value.Some? && !IsNumber(value.value) ==> o == Rules.Reasons([field + " " + WHOLE_NUMBER_MESSAGE])
    ensures o.Crashed? <==> value.Some? && Unconvertible(value.value)
    ensures o == Rules.Reasons([]) <==> value.Some? && IsWholeNumberBetween(value.value, min, max)
  {
    match value
    case None => Rules.Missing(field)
    case Some(text) =>
      Rules.ThenPasses(Rules.Report(field, NumberType(text)), Rules.Report(field, Minimum(text, min)));
      Rules.ThenPasses(Rules.Report(field, NumberType(text)).Then(Rules.Report(field, Minimum(text, min))),
                       Rules.Report(field, Maximum(text, max)));
      Rules.Report(field, NumberType(text))
        .Then(Rules.Report(field, Minimum(text, min)))
        .Then(Rules.Report(field, Maximum(text, max)))
  }

  /**
   * A number below the range gets the "at least" reason, one above it the
   * "at most" reason (both, should the bounds cross), one inside it none.
   */
  lemma RangeReasons(field: string, text: string, min: int, max: int)
    requires Converts(text)
    ensures WholeNumberBetween(field, Some(text), min, max) == Rules.Reasons(
      (if NumberValue(text) < min then [field + " " + Rules.AtLeastMessage(min)] else []) +
      (if NumberValue(text) > max then [field + " " + Rules.AtMostMessage(max)] else []))
  {
    var n := NumberValue(text);
    assert Minimum(text, min) == Rules.Minimum(n, min) && Maximum(text, max) == Rules.Maximum(n, max);
    assert Rules.Report(field, NumberType(text)) == Rules.Reasons([]);
    Rules.BoundsReasons(field, n, min, max);
    Rules.PassThen(Rules.Report(field, Rules.Minimum(n, min)), Rules.Report(field, Rules.Maximum(n, max)));
  }

  /**
   * Both the empty string and digits of another script pass `numberType()`,
   * and converting them throws: "" and full-width "１２" end the run.
   */
  lemma EmptyAndForeignDigitsThrow(field: string, min: int, max: int)
    ensures WholeNumberBetween(field, Some(""), min, max) == Rules.Crashed
    ensures WholeNumberBetween(field, Some("\U{FF11}\U{FF12}"), min, max) == Rules.Crashed
  {
    var wide := "\U{FF11}\U{FF12}";
    assert IsNumber(wide) by {
      assert IsOtherDecimalDigit(wide[0]) && IsOtherDecimalDigit(wide[1]);
    }
    assert !IsAsciiDigit(wide[0]);
  }

  /**
   * A printed integer passes exactly when it is non-negative and in range:
   * a leading `-` is not a digit, so negative numbers are never whole numbers.
   */
  lemma PrintedNumberBetween(field: string, n: int, min: int, max: int)
    ensures WholeNumberBetween(field, Some(IntToString(n)), min, max) == Rules.Reasons([])
        <==> 0 <= n && min <= n <= max
    ensures n < 0 ==>
      WholeNumberBetween(field, Some(IntToString(n)), min, max) == Rules.Reasons([field + " " + WHOLE_NUMBER_MESSAGE])
  {
    if n >= 0 {
      IntToStringRoundTrip(n);
    }
  }

  /** `minimum - 1` (when still non-negative) yields exactly the "at least" reason. */
  lemma {:induction false} BelowMinimumReason(field: string, n: int, min: int, max: int)
    requires 0 <= n < min <= max
    ensures WholeNumberBetween(field, Some(IntToString(n)), min, max)
        == Rules.Reasons([field + " " + Rules.AtLeastMessage(min)])
  {
    IntToStringRoundTrip(n);
    RangeReasons(field, IntToString(n), min, max);
  }

  /** `maximum + 1` yields exactly the "at most" reason. */
  lemma {:induction false} AboveMaximumReason(field: string, n: int, min: int, max: int)
    requires 0 <= n && min <= max < n
    ensures WholeNumberBetween(field, Some(IntToString(n)), min, max)
        == Rules.Reasons([field + " " + Rules.AtMostMessage(max)])
  {
    IntToStringRoundTrip(n);
    RangeReasons(field, IntToString(n), min, max);
  }

  /** `field required { numberType() }`: any string of digits, the empty one included; no range. */
  function WholeNumberField(field: string, value: Option<string>): (o: Rules.Outcome)
    ensures value == None ==> o == Rules.Missing(field)
    ensures o == Rules.Reasons([]) <==> value.Some? && IsNumber(value.value)
    ensures value.Some? && !IsNumber(value.value) ==> o == Rules.Reasons([field + " " + WHOLE_NUMBER_MESSAGE])
    ensures o.Reasons?
  {
    match value
    case None => Rules.Missing(field)
    case Some(text) => Rules.Report(field, NumberType(text))
  }

  /** `field required { minLength(minLength); maxLength(maxLength) }`. */
  function LengthBetween(field: string, value: Option<string>, minLength: nat, maxLength: nat): (o: Rules.Outcome)
    ensures value == None ==> o == Rules.Missing(field)
    ensures o == Rules.Reasons([]) <==> value.Some? && minLength <= |value.value| <= maxLength
    ensures value.Some? ==> o == Rules.Reasons(
      (if |value.value| < minLength then [field + " " + Rules.MinLengthMessage(minLength)] else []) +
      (if |value.value| > maxLength then [field + " " + Rules.MaxLengthMessage(maxLength)] else []))
  {
    match value
    case None => Rules.Missing(field)
    case Some(text) =>
      Rules.Report(field, Rules.MinLength(text, minLength)).Then(Rules.Report(field, Rules.MaxLength(text, maxLength)))
  }

  /** A present value that passes `isNumber` and that `toDouble()` then rejects. */
  predicate ThrowsOnConversion(value: Option<string>) {
    value.Some? && Unconvertible(value.value)
  }

  /**
   * `urlValidation`: the six rules in declaration order, bounds taken from
   * `config`.  The only exception it can end in is the conversion of an
   * amount or a term that is a number by `isNumber` but not by `toDouble()`.
   */
  function UrlValidation(config: CreditConfiguration, resource: CreditResource): (o: Rules.Outcome)
    ensures o.Crashed? <==> ThrowsOnConversion(resource.amountInEuros) || ThrowsOnConversion(resource.termInMonths)
  {
    WholeNumberBetween(AMOUNT_IN_EUROS, resource.amountInEuros, config.minAmountInEuros, config.maxAmountInEuros)
      .Then(WholeNumberBetween(TERM_IN_MONTHS, resource.termInMonths, config.minTermInMonths, config.maxTermInMonths))
      .Then(Rules.RatingLevelField(RATING_LEVEL, resource.ratingLevel, config.minSchufaRating, config.maxSchufaRating))
      .Then(WholeNumberField(DELAY_IN_MILLISECONDS, resource.delayInMilliseconds))
      .Then(LengthBetween(USERNAME, resource.username, USERNAME_MIN_LENGTH, USERNAME_MAX_LENGTH))
      .Then(LengthBetween(PASSWORD, resource.password, PASSWORD_MIN_LENGTH, PASSWORD_MAX_LENGTH))
  }

  predicate AmountConforms(config: CreditConfiguration, text: string) {
    IsWholeNumberBetween(text, config.minAmountInEuros, config.maxAmountInEuros)
  }

  predicate TermConforms(config: CreditConfiguration, text: string) {
    IsWholeNumberBetween(text, config.minTermInMonths, config.maxTermInMonths)
  }

  predicate RatingConforms(config: CreditConfiguration, text: string) {
    exists l :: Rules.Between(l, config.minSchufaRating, config.maxSchufaRating) && Rules.Spells(text, l)
  }

  predicate UsernameConforms(text: string) {
    USERNAME_MIN_LENGTH <= |text| <= USERNAME_MAX_LENGTH
  }

  predicate PasswordConforms(text: string) {
    PASSWORD_MIN_LENGTH <= |text| <= PASSWORD_MAX_LENGTH
  }

  /** Every parameter that is present meets its rule (absent ones are not judged here). */
  predicate PresentFieldsConform(config: CreditConfiguration, r: CreditResource) {
    && (r.amountInEuros.Some? ==> AmountConforms(config, r.amountInEuros.value))
    && (r.termInMonths.Some? ==> TermConforms(config, r.termInMonths.value))
    && (r.ratingLevel.Some? ==> RatingConforms(config, r.ratingLevel.value))
    && (r.delayInMilliseconds.Some? ==> IsNumber(r.delayInMilliseconds.value))
    && (r.username.Some? ==> UsernameConforms(r.username.value))
    && (r.password.Some? ==> PasswordConforms(r.password.value))
  }

  predicate AllPresent(r: CreditResource) {
    && r.amountInEuros.Some? && r.termInMonths.Some? && r.ratingLevel.Some?
    && r.delayInMilliseconds.Some? && r.username.Some? && r.password.Some?
  }

  /** A request is accepted exactly when every parameter is present and meets its rule. */
  lemma {:induction false} UrlValidationAcceptsExactlyConforming(config: CreditConfiguration, r: CreditResource)
    ensures UrlValidation(config, r) == Rules.Reasons([]) <==> AllPresent(r) && PresentFieldsConform(config, r)
  {
    var a := WholeNumberBetween(AMOUNT_IN_EUROS, r.amountInEuros, config.minAmountInEuros, config.maxAmountInEuros);
    var t := WholeNumberBetween(TERM_IN_MONTHS, r.termInMonths, config.minTermInMonths, config.maxTermInMonths);
    var g := Rules.RatingLevelField(RATING_LEVEL, r.ratingLevel, config.minSchufaRating, config.maxSchufaRating);
    var d := WholeNumberField(DELAY_IN_MILLISECONDS, r.delayInMilliseconds);
    var u := LengthBetween(USERNAME, r.username, USERNAME_MIN_LENGTH, USERNAME_MAX_LENGTH);
    var p := LengthBetween(PASSWORD, r.password, PASSWORD_MIN_LENGTH, PASSWORD_MAX_LENGTH);
    Rules.ThenPasses(a, t);
    Rules.ThenPasses(a.Then(t), g);
    Rules.ThenPasses(a.Then(t).Then(g), d);
    Rules.ThenPasses(a.Then(t).Then(g).Then(d), u);
    Rules.ThenPasses(a.Then(t).Then(g).Then(d).Then(u), p);
  }

  function IfMissing<T>(value: Option<T>, field: string): seq<string> {
    if value.None? then [field + " " + Rules.REQUIRED_MESSAGE] else []
  }

  /** "<field> is required" for each absent parameter, in declaration order. */
  function MissingReasons(r: CreditResource): (reasons: seq<string>)
    ensures |reasons| <= 6
    ensures AllPresent(r) <==> reasons == []
  {
    IfMissing(r.amountInEuros, AMOUNT_IN_EUROS) + IfMissing(r.termInMonths, TERM_IN_MONTHS)
      + IfMissing(r.ratingLevel, RATING_LEVEL) + IfMissing(r.delayInMilliseconds, DELAY_IN_MILLISECONDS)
      + IfMissing(r.username, USERNAME) + IfMissing(r.password, PASSWORD)
  }

  /**
   * When every present parameter is valid, the reasons are exactly one
   * "<field> is required" per absent parameter, in declaration order: N
   * missing parameters give N reasons.
   */
  lemma {:induction false} OnlyMissingFieldsReported(config: CreditConfiguration, r: CreditResource)
    requires PresentFieldsConform(config, r)
    ensures UrlValidation(config, r) == Rules.Reasons(MissingReasons(r))
  {
    assert r.delayInMilliseconds.Some? ==> IsNumber(r.delayInMilliseconds.value);
    var a := WholeNumberBetween(AMOUNT_IN_EUROS, r.amountInEuros, config.minAmountInEuros, config.maxAmountInEuros);
    assert a == Rules.Reasons(IfMissing(r.amountInEuros, AMOUNT_IN_EUROS));
    var t := WholeNumberBetween(TERM_IN_MONTHS, r.termInMonths, config.minTermInMonths, config.maxTermInMonths);
    assert t == Rules.Reasons(IfMissing(r.termInMonths, TERM_IN_MONTHS));
    var g := Rules.RatingLevelField(RATING_LEVEL, r.ratingLevel, config.minSchufaRating, config.maxSchufaRating);
    assert g == Rules.Reasons(IfMissing(r.ratingLevel, RATING_LEVEL));
    var d := WholeNumberField(DELAY_IN_MILLISECONDS, r.delayInMilliseconds);
    assert d == Rules.Reasons(IfMissing(r.delayInMilliseconds, DELAY_IN_MILLISECONDS));
    var u := LengthBetween(USERNAME, r.username, USERNAME_MIN_LENGTH, USERNAME_MAX_LENGTH);
    assert u == Rules.Reasons(IfMissing(r.username, USERNAME));
    var p := LengthBetween(PASSWORD, r.password, PASSWORD_MIN_LENGTH, PASSWORD_MAX_LENGTH);
    assert p == Rules.Reasons(IfMissing(r.password, PASSWORD));
  }

  /** Replacing an upper-case rating by its lower-case spelling changes nothing in the verdict. */
  lemma {:induction false} UrlValidationIgnoresRatingCase(config: CreditConfiguration, r: CreditResource, level: RatingLevel)
    ensures UrlValidation(config, r.(ratingLevel := Some(Name(level))))
         == UrlValidation(config, r.(ratingLevel := Some(Lowercase(Name(level)))))
  {
    Rules.RatingIgnoresCase(level, config.minSchufaRating, config.maxSchufaRating);
  }

  /**
   * `validateUrl(resource)`: fetch the default bank's bounds once, then run
   * the rule set; a failed fetch is passed on, reasons become a
   * RequestValidationException.
   */
  method ValidateUrl(bankCall: BankCall.BankCallService, resource: CreditResource) returns (failure: Option<Error>)
    modifies bankCall
    ensures bankCall.fetched == old(bankCall.fetched) + [bankCall.defaultBankId]
    ensures bankCall.requests == old(bankCall.requests)
      + BankCall.Repeat(BankCall.BankUrl(bankCall.config, bankCall.defaultBankId), old(bankCall.NextExchange(bankCall.defaultBankId)).attempts)
    ensures failure == match old(bankCall.NextCreditConfig())
      case Failure(e) => Some(e)
      case Success(config) => Rules.Verdict(UrlValidation(config, resource))
  {
    var config := bankCall.GetCreditConfigByBankId(None);
    if config.Failure? {
      return Some(config.error);
    }
    failure := Rules.Verdict(UrlValidation(config.value, resource));
  }
}
