/**
 * CreditResourceService: the rule set checked against a credit request whose
 * parameters were already parsed into numbers, built from the bank's credit
 * bounds.  Numbers are compared as they are; the credentials only have to be
 * non-empty.
 */
module CreditResourceValidation {
  import opened Wrappers
  import opened Models
  import opened Text
  import Rules
  import BankCall

  const AMOUNT_IN_EUROS := "amountInEuros"
  const TERM_IN_MONTHS := "termInMonths"
  const RATING_LEVEL := "ratingLevel"
  const DELAY_IN_MILLISECONDS := "delayInMilliseconds"
  const USERNAME := "username"
  const PASSWORD := "password"

  const USERNAME_MIN_LENGTH: nat := 1
  const PASSWORD_MIN_LENGTH: nat := 1

  /** The parsed request; every parameter may be absent. */
  datatype CreditResource = CreditResource(
    amountInEuros: Option<int>,
    termInMonths: Option<int>,
    ratingLevel: Option<string>,
    delayInMilliseconds: Option<int>,
    username: Option<string>,
    password: Option<string>
  )

  /** `field required { minimum(min); maximum(max) }`. */
  function NumberBetween(field: string, value: Option<int>, min: int, max: int): (o: Rules.Outcome)
    ensures value == None ==> o == Rules.Missing(field)
    ensures o == Rules.Reasons([]) <==> value.Some? && min <= value.value <= max
    ensures value.Some? ==> o == Rules.Reasons(
      (if value.value < min then [field + " " + Rules.AtLeastMessage(min)] else []) +
      (if value.value > max then [field + " " + Rules.AtMostMessage(max)] else []))
  {
    match value
    case None => Rules.Missing(field)
    case Some(n) =>
      Rules.Report(field, Rules.Minimum(n, min)).Then(Rules.Report(field, Rules.Maximum(n, max)))
  }

  /** `field required {}`: any value passes, only absence is reported. */
  function Present<T>(field: string, value: Option<T>): (o: Rules.Outcome)
    ensures value == None ==> o == Rules.Missing(field)
    ensures o == Rules.Reasons([]) <==> value.Some?
  {
    if value.None? then Rules.Missing(field) else Rules.Reasons([])
  }

  /** `field required { minLength(length) }`. */
  function NonEmpty(field: string, value: Option<string>, minLength: nat): (o: Rules.Outcome)
    ensures value == None ==> o == Rules.Missing(field)
    ensures o == Rules.Reasons([]) <==> value.Some? && minLength <= |value.value|
    ensures value.Some? && |value.value| < minLength ==> o == Rules.Reasons([field + " " + Rules.MinLengthMessage(minLength)])
  {
    match value
    case None => Rules.Missing(field)
    case Some(text) => Rules.Report(field, Rules.MinLength(text, minLength))
  }

  /** `resourceValidation`: the six rules in declaration order, bounds taken from `config`. */
  function ResourceValidation(config: CreditConfiguration, r: CreditResource): (o: Rules.Outcome)
    ensures o.Reasons?
  {
    NumberBetween(AMOUNT_IN_EUROS, r.amountInEuros, config.minAmountInEuros, config.maxAmountInEuros)
      .Then(NumberBetween(TERM_IN_MONTHS, r.termInMonths, config.minTermInMonths, config.maxTermInMonths))
      .Then(Rules.RatingLevelField(RATING_LEVEL, r.ratingLevel, config.minSchufaRating, config.maxSchufaRating))
      .Then(Present(DELAY_IN_MILLISECONDS, r.delayInMilliseconds))
      .Then(NonEmpty(USERNAME, r.username, USERNAME_MIN_LENGTH))
      .Then(NonEmpty(PASSWORD, r.password, PASSWORD_MIN_LENGTH))
  }

  /** Every parameter is present and within its rule; the delay may be any number, negative ones included. */
  predicate Conforms(config: CreditConfiguration, r: CreditResource) {
    && r.amountInEuros.Some? && config.minAmountInEuros <= r.amountInEuros.value <= config.maxAmountInEuros
    && r.termInMonths.Some? && config.minTermInMonths <= r.termInMonths.value <= config.maxTermInMonths
    && r.ratingLevel.Some?
    && (exists l :: Rules.Between(l, config.minSchufaRating, config.maxSchufaRating) && Rules.Spells(r.ratingLevel.value, l))
    && r.delayInMilliseconds.Some?
    && r.username.Some? && r.username.value != []
    && r.password.Some? && r.password.value != []
  }

  /** A resource yields no reasons exactly when it conforms. */
  lemma {:induction false} ResourceValidationAcceptsExactlyConforming(config: CreditConfiguration, r: CreditResource)
    ensures ResourceValidation(config, r) == Rules.Reasons([]) <==> Conforms(config, r)
  {
    var a := NumberBetween(AMOUNT_IN_EUROS, r.amountInEuros, config.minAmountInEuros, config.maxAmountInEuros);
    var t := NumberBetween(TERM_IN_MONTHS, r.termInMonths, config.minTermInMonths, config.maxTermInMonths);
    var g := Rules.RatingLevelField(RATING_LEVEL, r.ratingLevel, config.minSchufaRating, config.maxSchufaRating);
    var d := Present(DELAY_IN_MILLISECONDS, r.delayInMilliseconds);
    var u := NonEmpty(USERNAME, r.username, USERNAME_MIN_LENGTH);
    var p := NonEmpty(PASSWORD, r.password, PASSWORD_MIN_LENGTH);
    Rules.ThenPasses(a, t);
    Rules.ThenPasses(a.Then(t), g);
    Rules.ThenPasses(a.Then(t).Then(g), d);
    Rules.ThenPasses(a.Then(t).Then(g).Then(d), u);
    Rules.ThenPasses(a.Then(t).Then(g).Then(d).Then(u), p);
  }

  /** An otherwise valid resource with an empty username gets exactly the one "at least 1 characters" reason. */
  lemma {:induction false} EmptyUsernameReason(config: CreditConfiguration, r: CreditResource)
    requires Conforms(config, r)
    ensures ResourceValidation(config, r.(username := Some("")))
         == Rules.Reasons([USERNAME + " " + Rules.MinLengthMessage(USERNAME_MIN_LENGTH)])
  {
    var r' := r.(username := Some(""));
    ResourceValidationAcceptsExactlyConforming(config, r);
    var a := NumberBetween(AMOUNT_IN_EUROS, r'.amountInEuros, config.minAmountInEuros, config.maxAmountInEuros);
    var t := NumberBetween(TERM_IN_MONTHS, r'.termInMonths, config.minTermInMonths, config.maxTermInMonths);
    var g := Rules.RatingLevelField(RATING_LEVEL, r'.ratingLevel, config.minSchufaRating, config.maxSchufaRating);
    assert a == Rules.Reasons([]) && t == Rules.Reasons([]) && g == Rules.Reasons([]);
  }

  /** The minimum length 1 is printed as "must have at least 1 characters". */
  lemma MinLengthOneMessage()
    ensures Rules.MinLengthMessage(1) == "must have at least 1 characters"
  {
    assert NatToString(1) == "1";
  }

  /** What `validate` yields for fetched bounds: the resource itself when it conforms, else the exception. */
  function Validated(config: Result<CreditConfiguration, Error>, r: CreditResource): (v: Result<CreditResource, Error>)
    ensures v.Success? ==> v.value == r
    ensures config.Failure? ==> v == Failure(config.error)
    ensures config.Success? ==> (v.Success? <==> Conforms(config.value, r))
    ensures config.Success? && !Conforms(config.value, r) ==>
      v == Failure(Invalid(ResourceValidation(config.value, r).reasons)) && ResourceValidation(config.value, r).reasons != []
  {
    match config
    case Failure(e) => Failure(e)
    case Success(c) =>
      ResourceValidationAcceptsExactlyConforming(c, r);
      match Rules.Verdict(ResourceValidation(c, r))
      case None => Success(r)
      case Some(e) => Failure(e)
  }

  /** `validate(resource)`: one fetch of the default bank's bounds, then the rule set. */
  method Validate(bankCall: BankCall.BankCallService, resource: CreditResource) returns (result: Result<CreditResource, Error>)
    modifies bankCall
    ensures bankCall.fetched == old(bankCall.fetched) + [bankCall.defaultBankId]
    ensures bankCall.requests == old(bankCall.requests)
      + BankCall.Repeat(BankCall.BankUrl(bankCall.config, bankCall.defaultBankId), old(bankCall.NextExchange(bankCall.defaultBankId)).attempts)
    ensures result == Validated(old(bankCall.NextCreditConfig()), resource)
  {
    var config := bankCall.GetCreditConfigByBankId(None);
    result := Validated(config, resource);
  }
}
