# Credit quote service: validation, rate calculation, bank fetch and usage tracking

A Dafny model of the request-handling core of a simulated bank's credit-quote
endpoint (a Kotlin/Ktor service).  A client asks for a lending rate by giving
an amount, a term, a SCHUFA rating level, an artificial delay and the
username and password of its group.  The service does four things:

* **Bounds fetch** (`BankCallService`).  It fetches the bank record from the
  configuration backend over HTTP.  A 4xx reply fails at once; a 5xx reply is
  retried up to `maxRetries` times.  A bank without a credit configuration
  fails with NotFound `"[creditConfiguration not found]"`.
* **Validation** of a request against the bank's credit bounds.  There are two
  variants:
  * `CreditValidationService.urlValidation` works on the raw query strings;
  * `CreditResourceService.resourceValidation` works on already-typed values.

  Each builds a konform rule set from the fetched bounds.  Its result is the
  ordered list of `"<field> <message>"` reasons.
* **Rate calculation** (`CreditService`).  The rate adds three floor-modular
  contributions to a random part in [0, 3), then takes the sum modulo 10:
  * the term mod 12;
  * the amount mod 1000;
  * the rating letter's distance from the minimum rating, mod 10.
* **Usage tracking** (`TrackingService.trackRequest`).  It reads all groups
  and finds the one whose username and password match.  It raises that
  group's counter for this bank by one and writes the group back.  The
  implementation file of this service is not part of this model: its
  behaviour is taken from its unit tests.

Modules, one per file:

| file | module | contents |
|---|---|---|
| wrappers.dfy | `Wrappers` | `Option` (Kotlin nullables, `?:`) and `Result` (values or exceptions) |
| models.dfy | `Models` | the rating enumeration A..L, N, O, P (no M); `CreditConfiguration`, `Bank`, `Group`; Kotlin `Int` counters; the error kinds |
| text.dfy | `Text` | `isDigit`, `toString` of numbers, ASCII case mapping, `joinToString` |
| rules.dfy | `Rules` | one constraint's verdict, the reason list of a rule set, the message templates, and the shared length, bound and rating checks |
| credit_validation.dfy | `CreditValidation` | the rule set over the raw query strings |
| credit_resource.dfy | `CreditResourceValidation` | the rule set over the typed resource |
| bank_call.dfy | `BankCall` | the retrying HTTP call as a loop; `BankCallService` as a class that logs requests |
| credit_service.dfy | `Credit` | Kotlin `mod`, the lending rate, and `CreditService` as a class |
| tracking.dfy | `Tracking` | the group store as a class with a call log, and `TrackingService.trackRequest` |

Modelling choices:

* **The backend is a parameter.**  `server(k, url)` is its reply to the k-th
  request the service sends.  `BankCallService` records every request sent
  (`requests`) and every bank id fetched (`fetched`).  So "one attempt",
  "three attempts" and "one bounds fetch per calculation" are statements
  about those logs.
* **Exceptions are values.**  An exception the source throws is a `Failure`
  of the `Error` datatype.  The kinds are:
  * `ClientRequestError` and `ServerResponseError`;
  * `NotFound` and `IllegalState`;
  * `NoSuchElement`, for `first()` of an empty string;
  * `NumberFormat`, for `toDouble()` of a digit string it cannot read;
  * `Invalid(reasons)`, the validation exception.
* **Validation does not stop at the first reason.**  A rule set runs every
  field's constraints and collects one reason per failed constraint, in
  declaration order.  An absent required field contributes only
  `"<field> is required"`.  An exception thrown while checking ends the run
  (`Outcome.Crashed`).
* **The random draw is a parameter.**  `Math.random()` becomes a parameter
  `random` in [0, 1).  The delay is recorded in `CreditService.waits` but not
  performed.

The code and the system's specification differ in four places.
The model follows the code:

* **Negative delays.**  The specification accepts a negative
  `delayInMilliseconds` in the URL validator.  The code checks it with the
  digit-only `numberType()`, and `-` is not a digit, so negative delays are
  rejected (`CreditValidation.WholeNumberField`, together with
  `Text.IntToString`: a printed integer is all digits exactly when it is
  non-negative).
* **Numbers that do not convert.**  The specification demands that amount and
  term parse as whole numbers.  In the code `isNumber` accepts the empty string
  and digits of any script (`Char.isDigit`), while the following `toDouble()`
  reads only non-empty ASCII digits and throws on the rest.  The model keeps
  that exception (`CreditValidation.Minimum`,
  `CreditValidation.WholeNumberBetween`,
  `CreditValidation.EmptyAndForeignDigitsThrow`).
* **Missing bank counter.**  The specification is inconsistent with itself
  here.  Its tracking algorithm fails with InvalidState ("bank not found in
  stats") when the matched group has no counter for this bank, and so does its
  acceptance scenario.  Its list of error kinds, however, also counts a
  missing bank stats key under NotFound.  The tests expect an
  `IllegalStateException`, and the model follows them and the InvalidState
  reading (`Tracking.MissingCounterIsIllegalState`).
* **Tracking message texts.**  The tests refer to `GROUP_NOT_FOUND_MESSAGE`
  and `BANK_NOT_FOUND_MESSAGE` only by name.  Their texts, "group not found"
  and "bank not found in stats", come from the specification.

## Model

| member | source | states |
|---|---|---|
| Models.Inc | src/test/kotlin/de/hennihaus/services/TrackingServiceTest.kt:61-64 | `stats[bankName]!! + 1` on a Kotlin `Int`: one more below `Int.MAX_VALUE`, and always equal to n + 1 modulo 2^32 (wraps at the top) |
| Models.Letter | src/test/kotlin/de/hennihaus/services/validationservices/CreditValidationServiceTest.kt:252-269 | a level's name is a capital letter and never M: the enumeration runs A..L, N, O, P |
| Models.NameInjective | src/main/kotlin/de/hennihaus/services/validationservices/CreditValidationService.kt:79 | distinct rating levels have distinct names |
| Text.NatToStringRoundTrip | src/main/kotlin/de/hennihaus/services/validationservices/CreditValidationService.kt:57 | reading back the decimal digits `toString()` prints for a non-negative bound gives the bound |
| Text.IntToString | src/main/kotlin/de/hennihaus/services/validationservices/CreditValidationService.kt:54-58 | a printed integer starts with `-` exactly when it is negative, and consists of digits only exactly when it is non-negative |
| Text.IntToStringRoundTrip | src/main/kotlin/de/hennihaus/services/validationservices/CreditValidationService.kt:57 | a printed non-negative integer is a non-empty digit string whose value is the integer |
| Text.Uppercase | src/main/kotlin/de/hennihaus/services/validationservices/CreditValidationService.kt:79 | `uppercase()` keeps the length and maps each character on its own |
| Text.Lowercase | src/main/kotlin/de/hennihaus/services/validationservices/CreditValidationService.kt:80 | `lowercase()` keeps the length and maps each character on its own |
| Text.CaseRoundTrip | src/main/kotlin/de/hennihaus/services/validationservices/CreditValidationService.kt:79-80 | for a word of capitals, upper-casing its lower-case form restores it, upper-casing changes nothing, and the lower-case form differs from it |
| Text.IsDigit | src/main/kotlin/de/hennihaus/services/validationservices/CreditValidationService.kt:96 | `Char.isDigit()`: the ASCII digits and the other decimal digits of the Basic Multilingual Plane, ten per script |
| Text.IsNumber | src/main/kotlin/de/hennihaus/services/validationservices/CreditValidationService.kt:96 | `isNumber`: every character is a digit of some script, so the empty string counts as a number; `CreditValidation.NumberType`, `Minimum` and `Maximum` build on it |
| Text.NumberValue | src/main/kotlin/de/hennihaus/services/validationservices/CreditValidationService.kt:60 | the value `toDouble()` reads from a non-empty string of ASCII digits; `Text.NatToStringRoundTrip` shows it inverts `toString()` on non-negative numbers |
| Text.JoinToString | src/main/kotlin/de/hennihaus/services/validationservices/CreditValidationService.kt:85-89 | `joinToString(separator, prefix, postfix)`: the prefix, the elements with the separator between neighbours, the postfix; `Text.JoinQuotesEveryElement` pins its use in the rating message |
| Text.JoinQuotesEveryElement | src/main/kotlin/de/hennihaus/services/validationservices/CreditValidationService.kt:85-89 | `joinToString("', '", "'", "'")` puts every element in single quotes, separated by ", "; with no elements it yields `''` |
| Rules.Missing | src/main/kotlin/de/hennihaus/services/validationservices/CreditValidationService.kt:18 | `required` on an absent field: exactly the one reason "<field> is required"; the field's own constraints add nothing (`CreditValidation.OnlyMissingFieldsReported`) |
| Rules.Outcome.Then | src/main/kotlin/de/hennihaus/services/validationservices/CreditValidationService.kt:17-45 | the reasons of a rule set are those of the earlier rules followed by those of the later ones; an exception in either ends the run |
| Rules.Verdict | src/test/kotlin/de/hennihaus/services/validationservices/CreditValidationServiceTest.kt:279-289 | no exception exactly when there are no reasons; reasons become a validation exception carrying them; an exception while checking is `NumberFormat` |
| Rules.SingleReasonMessage | src/test/kotlin/de/hennihaus/services/resourceservices/CreditResourceServiceTest.kt:241-250 | the message of a validation exception with one reason is that reason in brackets |
| Rules.Report | src/main/kotlin/de/hennihaus/services/validationservices/CreditValidationService.kt:48-52 | a passing constraint contributes no reason, a failing one exactly `"<field> <message>"`, a throwing one ends the run |
| Rules.ThenPasses | src/main/kotlin/de/hennihaus/services/validationservices/CreditValidationService.kt:17-45 | two parts of a rule set pass together exactly when each passes on its own |
| Rules.Minimum | src/main/kotlin/de/hennihaus/services/resourceservices/CreditResourceService.kt:20 | `minimum(min)` passes exactly when min <= n, and otherwise fails with "must be at least '<min>'" |
| Rules.Maximum | src/main/kotlin/de/hennihaus/services/resourceservices/CreditResourceService.kt:21 | `maximum(max)` passes exactly when n <= max, and otherwise fails with "must be at most '<max>'" |
| Rules.BoundsReasons | src/main/kotlin/de/hennihaus/services/resourceservices/CreditResourceService.kt:20-21 | `minimum(min)` then `maximum(max)` on one number: the "at least" reason exactly when it is below min, the "at most" reason exactly when it is above max, in that order |
| Rules.MinLength | src/main/kotlin/de/hennihaus/services/validationservices/CreditValidationService.kt:38 | `minLength(n)` passes exactly when the text has at least n characters, and otherwise fails with "must have at least n characters" |
| Rules.MaxLength | src/main/kotlin/de/hennihaus/services/validationservices/CreditValidationService.kt:39 | `maxLength(n)` passes exactly when the text has at most n characters, and otherwise fails with "must have at most n characters" |
| Rules.FilterBetween | src/main/kotlin/de/hennihaus/services/validationservices/CreditValidationService.kt:76-78 | the filter keeps exactly the levels of the list that lie in [min, max] |
| Rules.FilterKeepsAscending | src/main/kotlin/de/hennihaus/services/validationservices/CreditValidationService.kt:76-78 | filtering keeps the enumeration order |
| Rules.EnumerationAscending | src/main/kotlin/de/hennihaus/services/validationservices/CreditValidationService.kt:76 | `enumValues<RatingLevel>()` lists the levels in strictly ascending order |
| Rules.LevelsBetween | src/main/kotlin/de/hennihaus/services/validationservices/CreditValidationService.kt:76-78 | the filtered enumeration holds exactly the levels in [min, max], in ascending order |
| Rules.AscendingUnique | src/main/kotlin/de/hennihaus/services/validationservices/CreditValidationService.kt:76-78 | two strictly ascending lists with the same elements are equal, so the filtered list is fixed by the range |
| Rules.UpperNames | src/main/kotlin/de/hennihaus/services/validationservices/CreditValidationService.kt:79 | element i of the upper-case list is the upper-cased name of level i |
| Rules.LowerNames | src/main/kotlin/de/hennihaus/services/validationservices/CreditValidationService.kt:80 | element i of the lower-case list is the lower-cased name of level i |
| Rules.AllowedNames | src/main/kotlin/de/hennihaus/services/validationservices/CreditValidationService.kt:79-80 | the upper-case names of the levels in range followed by their lower-case names; `Rules.RatingAccepted` shows a string is among them exactly when it spells a level in range, in either case |
| Rules.OneOfMessage | src/main/kotlin/de/hennihaus/services/validationservices/CreditValidationService.kt:82-91 | "must be one of: " followed by the allowed names, each in single quotes and separated by ", " (`Rules.RatingMessageQuotesEachName`) |
| Rules.RatingLevelIgnoreCase | src/main/kotlin/de/hennihaus/services/validationservices/CreditValidationService.kt:82-93 | the rating constraint never throws, and its failure message lists the allowed names: upper case first, then lower case |
| Rules.AllowedSpells | src/main/kotlin/de/hennihaus/services/validationservices/CreditValidationService.kt:92 | every allowed string spells, in upper or lower case, a level of the list |
| Rules.SpellingAllowed | src/main/kotlin/de/hennihaus/services/validationservices/CreditValidationService.kt:92 | both spellings of every level of the list are allowed |
| Rules.AcceptedSpellsLevelInRange | src/main/kotlin/de/hennihaus/services/validationservices/CreditValidationService.kt:76-92 | an accepted rating spells a level in [min, max] |
| Rules.LevelInRangeAccepted | src/main/kotlin/de/hennihaus/services/validationservices/CreditValidationService.kt:76-92 | either spelling of a level in [min, max] is accepted |
| Rules.RatingAccepted | src/main/kotlin/de/hennihaus/services/validationservices/CreditValidationService.kt:72-94 | a rating passes exactly when it is the upper- or lower-case name of a level whose position lies in [min, max] |
| Rules.AcceptedIsOneLetter | src/main/kotlin/de/hennihaus/services/validationservices/CreditValidationService.kt:92 | every accepted rating is a single character, so strings such as "Aa" fail |
| Rules.NoLevelM | src/test/kotlin/de/hennihaus/services/validationservices/CreditValidationServiceTest.kt:252-269 | "M" and "m" are refused whatever the bounds |
| Rules.SpellsOnlyItsLevel | src/main/kotlin/de/hennihaus/services/validationservices/CreditValidationService.kt:79-80 | either spelling of a level's name spells that level and no other |
| Rules.RatingIgnoresCase | src/main/kotlin/de/hennihaus/services/validationservices/CreditValidationService.kt:79-92 | the upper- and lower-case name of a level get the same verdict, message included, and pass exactly when the level is in [min, max] |
| Rules.LowercaseInjective | src/main/kotlin/de/hennihaus/services/validationservices/CreditValidationService.kt:80 | distinct words of capitals have distinct lower-case forms |
| Rules.RatingMessageQuotesEachName | src/main/kotlin/de/hennihaus/services/validationservices/CreditValidationService.kt:82-91 | the failure message is "must be one of: " followed by the allowed names, each in single quotes, separated by ", " |
| Rules.LevelsNP | src/test/kotlin/de/hennihaus/services/validationservices/CreditValidationServiceTest.kt:271-290 | the levels from N to P are N, O, P |
| Rules.AllowedNamesNP | src/test/kotlin/de/hennihaus/services/validationservices/CreditValidationServiceTest.kt:271-290 | with bounds N..P the allowed names are N, O, P, n, o, p, in that order |
| Rules.LevelsAC | src/test/kotlin/de/hennihaus/services/validationservices/CreditValidationServiceTest.kt:293-312 | the levels from A to C are A, B, C |
| Rules.AllowedNamesAC | src/test/kotlin/de/hennihaus/services/validationservices/CreditValidationServiceTest.kt:293-312 | with bounds A..C the allowed names are A, B, C, a, b, c, in that order |
| CreditValidation.NumberType | src/main/kotlin/de/hennihaus/services/validationservices/CreditValidationService.kt:48-52 | `numberType()` passes exactly when every character is a digit (the empty text included), and otherwise fails with "must be a whole number" |
| CreditValidation.Minimum | src/main/kotlin/de/hennihaus/services/validationservices/CreditValidationService.kt:54-61 | a non-number passes; a number that is empty or has a non-ASCII digit throws in `toDouble()`, and nothing else throws; a converted number passes exactly when it is at least the bound, and fails with "must be at least '<min>'" |
| CreditValidation.Maximum | src/main/kotlin/de/hennihaus/services/validationservices/CreditValidationService.kt:63-70 | the mirror image of `Minimum`, with "must be at most '<max>'" |
| CreditValidation.WholeNumberBetween | src/main/kotlin/de/hennihaus/services/validationservices/CreditValidationService.kt:18-22 | absent gives "<field> is required"; a non-number gives exactly one "must be a whole number" reason; the run throws exactly on a number `toDouble()` cannot read; no reasons exactly when the text is non-empty ASCII digits with a value in [min, max] |
| CreditValidation.EmptyAndForeignDigitsThrow | src/main/kotlin/de/hennihaus/services/validationservices/CreditValidationService.kt:51-60 | the empty string and full-width digits both pass `isNumber` and then make `toDouble()` throw |
| CreditValidation.RangeReasons | src/main/kotlin/de/hennihaus/services/validationservices/CreditValidationService.kt:54-70 | a number below the range gets exactly the "at least" reason, one above it exactly the "at most" reason, one inside none |
| CreditValidation.PrintedNumberBetween | src/main/kotlin/de/hennihaus/services/validationservices/CreditValidationService.kt:54-70 | a printed integer passes exactly when it is non-negative and in range; a negative one fails as not a whole number |
| CreditValidation.BelowMinimumReason | src/test/kotlin/de/hennihaus/services/validationservices/CreditValidationServiceTest.kt:119-136 | an amount below the minimum yields exactly the one "must be at least '<min>'" reason |
| CreditValidation.AboveMaximumReason | src/test/kotlin/de/hennihaus/services/validationservices/CreditValidationServiceTest.kt:138-155 | an amount above the maximum yields exactly the one "must be at most '<max>'" reason |
| Rules.RatingLevelField | src/main/kotlin/de/hennihaus/services/validationservices/CreditValidationService.kt:28-33 | in both validators, absent gives "is required"; otherwise no reasons exactly when the rating spells a level in range, else exactly the one "must be one of: ..." reason |
| CreditValidation.WholeNumberField | src/main/kotlin/de/hennihaus/services/validationservices/CreditValidationService.kt:34-36 | the delay only has to be present and all digits, with no range |
| CreditValidation.LengthBetween | src/main/kotlin/de/hennihaus/services/validationservices/CreditValidationService.kt:37-44 | absent gives "is required"; otherwise the "at least" and "at most" reasons appear exactly when the length is below or above its bounds |
| CreditValidation.UrlValidation | src/main/kotlin/de/hennihaus/services/validationservices/CreditValidationService.kt:16-46 | the six rules run in declaration order; the run ends in an exception exactly when the amount or the term passes `isNumber` but not `toDouble()`: the empty string, or digits outside ASCII |
| CreditValidation.UrlValidationAcceptsExactlyConforming | src/main/kotlin/de/hennihaus/services/validationservices/CreditValidationService.kt:16-46 | the rule set yields no reasons exactly when all six parameters are present and each meets its rule (bounds from the configuration, lengths 6..50 and 8..50) |
| CreditValidation.MissingReasons | src/main/kotlin/de/hennihaus/services/validationservices/CreditValidationService.kt:18-44 | the "is required" reasons are empty exactly when every parameter is present |
| CreditValidation.OnlyMissingFieldsReported | src/main/kotlin/de/hennihaus/services/validationservices/CreditValidationService.kt:17-45 | when every present parameter is valid, the reasons are one "<field> is required" per absent parameter, in declaration order |
| CreditValidation.UrlValidationIgnoresRatingCase | src/test/kotlin/de/hennihaus/services/validationservices/CreditValidationServiceTest.kt:55-79 | an upper-case and a lower-case rating give the same outcome |
| CreditValidation.ValidateUrl | src/main/kotlin/de/hennihaus/services/validationservices/CreditValidationService.kt:16 | one fetch of the default bank's bounds, with the requests it sends; a failed fetch is passed on, otherwise the rule set's verdict |
| CreditResourceValidation.NumberBetween | src/main/kotlin/de/hennihaus/services/resourceservices/CreditResourceService.kt:19-26 | absent gives "is required"; otherwise no reasons exactly when min <= n <= max, else the "at least" or "at most" reason |
| CreditResourceValidation.Present | src/main/kotlin/de/hennihaus/services/resourceservices/CreditResourceService.kt:33 | the delay only has to be present: every value passes, negatives included |
| CreditResourceValidation.NonEmpty | src/main/kotlin/de/hennihaus/services/resourceservices/CreditResourceService.kt:34-39 | the credentials need at least 1 character and have no maximum |
| CreditResourceValidation.ResourceValidation | src/main/kotlin/de/hennihaus/services/resourceservices/CreditResourceService.kt:17-41 | the typed rule set never throws: it always ends with a list of reasons |
| CreditResourceValidation.ResourceValidationAcceptsExactlyConforming | src/main/kotlin/de/hennihaus/services/resourceservices/CreditResourceService.kt:17-41 | no reasons exactly when every parameter is present, amount and term are in range, the rating spells a level in range, and the credentials are non-empty |
| CreditResourceValidation.EmptyUsernameReason | src/test/kotlin/de/hennihaus/services/resourceservices/CreditResourceServiceTest.kt:241-250 | an otherwise valid resource with an empty username gets exactly the one reason "username must have at least 1 characters" |
| CreditResourceValidation.MinLengthOneMessage | src/main/kotlin/de/hennihaus/services/resourceservices/CreditResourceService.kt:67-70 | the minimum length 1 prints as "must have at least 1 characters" |
| CreditResourceValidation.Validated | src/test/kotlin/de/hennihaus/services/resourceservices/CreditResourceServiceTest.kt:55-75 | a conforming resource is returned unchanged; otherwise the validation exception with the non-empty reasons; a failed fetch is passed on |
| CreditResourceValidation.Validate | src/main/kotlin/de/hennihaus/services/resourceservices/CreditResourceService.kt:17 | exactly one fetch of the default bank's bounds per validation, with the requests it sends, whether it passes or fails |
| BankCall.Retryable | src/main/kotlin/de/hennihaus/services/callservices/BankCallService.kt:32-34 | the retry behaviour repeats a request exactly on a 5xx reply; `BankCall.ExchangedRetriesOnlyServerErrors` and `BankCall.ClientErrorIsNotRetried` state its effect on a call |
| BankCall.StatusError | src/main/kotlin/de/hennihaus/services/callservices/BankCallService.kt:29 | with `expectSuccess`, of the statuses of 300 and more a 4xx raises a client-request error, a 5xx a server-response error, and any other (3xx, 600 and up) a response error |
| BankCall.Decode | src/main/kotlin/de/hennihaus/services/callservices/BankCallService.kt:49 | a body is returned as the decoded bank; a status raises its exception |
| BankCall.ExchangedFrom | src/main/kotlin/de/hennihaus/services/callservices/BankCallService.kt:32-34 | the rest of a call takes between 1 and `maxRetries + 1` attempts in all, and its result is the reply to the last request sent |
| BankCall.Exchanged | src/main/kotlin/de/hennihaus/services/callservices/BankCallService.kt:32-34 | a call takes between 1 and `maxRetries + 1` attempts, and its result is the reply to its last request |
| BankCall.RetriesOnlyServerErrorsFrom | src/main/kotlin/de/hennihaus/services/callservices/BankCallService.kt:32-34 | every repeated request of the remaining call got a 5xx, and the call stops early only on a reply that is not a 5xx |
| BankCall.ExchangedRetriesOnlyServerErrors | src/main/kotlin/de/hennihaus/services/callservices/BankCallService.kt:32-34 | every request of a call but the last got a 5xx, and a call stops before its retries run out only on a reply that is not a 5xx |
| BankCall.ClientErrorIsNotRetried | src/test/kotlin/de/hennihaus/services/callservices/BankCallServiceTest.kt:74-92 | a 4xx reply ends the call after one attempt, with a client-request error |
| BankCall.PersistentServerErrorFrom | src/test/kotlin/de/hennihaus/services/callservices/BankCallServiceTest.kt:95-115 | against a backend that keeps answering 5xx, the rest of a call runs until `maxRetries + 1` attempts in all |
| BankCall.PersistentServerErrorExhaustsRetries | src/test/kotlin/de/hennihaus/services/callservices/BankCallServiceTest.kt:95-115 | a backend that keeps answering 5xx is asked `maxRetries + 1` times (3 for `maxRetries = 2`), and the call raises a server-response error |
| BankCall.RetryRecoversFromServerError | src/main/kotlin/de/hennihaus/services/callservices/BankCallService.kt:32-34 | a 5xx followed by a bank yields the bank after two attempts |
| BankCall.BankUrl | src/test/kotlin/de/hennihaus/services/callservices/BankCallServiceTest.kt:44-58 | the request target `protocol://host:port/apiVersion/banks/<id>` ends with the bank id |
| BankCall.BankUrlInjective | src/test/kotlin/de/hennihaus/services/callservices/BankCallServiceTest.kt:44-58 | distinct bank ids are sent to distinct targets |
| BankCall.CreditConfigOf | src/main/kotlin/de/hennihaus/services/callservices/BankCallService.kt:58-60 | a fetch failure is passed on; a bank's credit configuration is returned unchanged; a bank without one raises NotFound "[creditConfiguration not found]" |
| BankCall.BankCallService.constructor | src/main/kotlin/de/hennihaus/services/callservices/BankCallService.kt:22-26 | a new service with the default bank id, the backend configuration and no requests sent |
| BankCall.BankCallService.Get | src/main/kotlin/de/hennihaus/services/callservices/BankCallService.kt:28-41 | the retry loop returns `Exchanged`'s final reply and logs one request per attempt |
| BankCall.BankCallService.GetBankById | src/main/kotlin/de/hennihaus/services/callservices/BankCallService.kt:43-50 | the id defaults to `defaultBankId`; the result is the decoded last reply; one fetch is logged |
| BankCall.BankCallService.GetCreditConfigByBankId | src/main/kotlin/de/hennihaus/services/callservices/BankCallService.kt:52-61 | the bank's credit configuration, or NotFound when it has none; the call's exceptions are passed on; one fetch is logged |
| Credit.Rem | src/main/kotlin/de/hennihaus/services/CreditService.kt:29 | Kotlin's `%` keeps the dividend's sign, stays below the divisor in size, and differs from the dividend by a multiple of the divisor |
| Credit.FloorMod | src/main/kotlin/de/hennihaus/services/CreditService.kt:29 | `Int.mod(d)` lies in [0, d) for a positive divisor, negative dividends included |
| Credit.FloorModIsEuclidean | src/main/kotlin/de/hennihaus/services/CreditService.kt:29-32 | `Int.mod(d)` equals the Euclidean remainder, so it differs from the dividend by a multiple of d |
| Credit.ModLendingRate | src/main/kotlin/de/hennihaus/services/CreditService.kt:35 | `Double.mod(10.0)` lies in [0, 10) and differs from its argument by a whole multiple of 10 |
| Credit.RatingOffset | src/main/kotlin/de/hennihaus/services/CreditService.kt:38-42 | the upper-cased first letter of the rating minus the minimum rating's letter; an empty rating raises NoSuchElement |
| Credit.Contributions | src/main/kotlin/de/hennihaus/services/CreditService.kt:29-32 | the three integer contributions add up to a value in [0, 11 + 999 + 9]; they fail exactly when the rating is empty |
| Credit.LendingRate | src/main/kotlin/de/hennihaus/services/CreditService.kt:28-36 | the rate lies in [0, 10) and is the contributions plus 3 times the draw, minus a whole multiple of 10; it fails only for an empty rating |
| Credit.RatingOffsetIgnoresCase | src/main/kotlin/de/hennihaus/services/CreditService.kt:39 | upper- and lower-casing the rating leave its offset unchanged |
| Credit.LendingRateIgnoresCase | src/test/kotlin/de/hennihaus/services/CreditServiceTest.kt:78-126 | both spellings of a rating give the same lending rate |
| Credit.RatingOffsetOfLevel | src/main/kotlin/de/hennihaus/services/CreditService.kt:38-42 | for a rating that names a level, the offset is the distance between positions, plus one across the missing M |
| Credit.CreditService.constructor | src/main/kotlin/de/hennihaus/services/CreditService.kt:9 | a new service over a bank call, with no waits yet |
| Credit.CreditService.GetMinSchufaRating | src/main/kotlin/de/hennihaus/services/CreditService.kt:38-42 | one bounds fetch, whose HTTP attempts are appended to the request log; a failed fetch is passed on, otherwise the rating's offset from the fetched minimum |
| Credit.CreditService.CalculateLendingRate | src/main/kotlin/de/hennihaus/services/CreditService.kt:28-36 | the `+=` steps compute `LendingRate` for the fetched bounds, with exactly one bounds fetch, whose HTTP attempts are appended to the request log |
| Credit.CreditService.CalculateCredit | src/main/kotlin/de/hennihaus/services/CreditService.kt:11-26 | one wait of `delayInMilliseconds ?: 0` milliseconds (none for zero or less), begun while the bank client had made no more fetches than before the call, so before the one bounds fetch, whose HTTP attempts are appended to the request log; the offer carries `LendingRate` |
| Tracking.ReplaceById | src/test/kotlin/de/hennihaus/services/TrackingServiceTest.kt:58-66 | an update replaces the groups with the given id and keeps every other group |
| Tracking.GroupCallService.constructor | src/test/kotlin/de/hennihaus/services/TrackingServiceTest.kt:41-47 | a store holding the given groups, with an empty call log |
| Tracking.GroupCallService.GetAllGroups | src/test/kotlin/de/hennihaus/services/TrackingServiceTest.kt:42-46 | a read logs one call, changes nothing, and returns the stored groups or the store's failure |
| Tracking.GroupCallService.UpdateGroup | src/test/kotlin/de/hennihaus/services/TrackingServiceTest.kt:145 | an update logs one call and either replaces the group or fails with the store's failure, changing nothing |
| Tracking.Matches | src/test/kotlin/de/hennihaus/services/TrackingServiceTest.kt:87-119 | a group is addressed only when both its username and its password equal the given ones (`Tracking.BothCredentialsNeeded`) |
| Tracking.FirstMatch | src/test/kotlin/de/hennihaus/services/TrackingServiceTest.kt:87-119 | the position of the first group whose username and password both match, and none exactly when no group matches |
| Tracking.Raised | src/test/kotlin/de/hennihaus/services/TrackingServiceTest.kt:60-65 | the group written back: `stats[bankName]` raised by one; `Tracking.RaisedChangesOnlyTheCounter` shows nothing else changes |
| Tracking.RaisedChangesOnlyTheCounter | src/test/kotlin/de/hennihaus/services/TrackingServiceTest.kt:60-65 | the written group equals the matched one except that `stats[bankName]` is one higher; every other field and counter is unchanged |
| Tracking.Tracked | src/test/kotlin/de/hennihaus/services/TrackingServiceTest.kt:50-140 | NotFound exactly when no group matches the credentials; a success is a matching group with its counter raised |
| Tracking.NoGroupsNoTracking | src/test/kotlin/de/hennihaus/services/TrackingServiceTest.kt:70-85 | with no groups, the request fails with NotFound |
| Tracking.BothCredentialsNeeded | src/test/kotlin/de/hennihaus/services/TrackingServiceTest.kt:87-119 | a right username with a wrong password (or the reverse) fails with NotFound, like unknown credentials |
| Tracking.TrackedWritesMatchedGroup | src/test/kotlin/de/hennihaus/services/TrackingServiceTest.kt:50-68 | the written group keeps the first matching group's id and credentials |
| Tracking.MissingCounterIsIllegalState | src/test/kotlin/de/hennihaus/services/TrackingServiceTest.kt:121-140 | a matched group without a counter for this bank fails with IllegalState |
| Tracking.CounterPresentIsRaised | src/test/kotlin/de/hennihaus/services/TrackingServiceTest.kt:50-68 | when the first matching group has a counter for this bank, tracking succeeds with exactly that group, its counter raised |
| Tracking.TrackingService.constructor | src/test/kotlin/de/hennihaus/services/TrackingServiceTest.kt:36-39 | a tracking service over a group store and this bank's name |
| Tracking.TrackingService.TrackRequest | src/test/kotlin/de/hennihaus/services/TrackingServiceTest.kt:50-159 | exactly one read; on a failure before the update, no update and an unchanged store; on a match, exactly one update, of the raised group under its id; an update failure is passed on |

## Left out

- HTTP routing, query-parameter extraction, the Ktor plugins and dependency injection (`CreditRoutes.kt`, `Validation.kt`, `Application.kt`).  They are plumbing around the core.
- The HTTP client's engine, JSON (de)serialisation, monitoring, and connection failures.  A reply is a decoded bank or a status code of 300 or more; the retry plugin's own code is not part of this model, and it is modelled as repeating only 5xx replies, with no backoff.
- `BankCall.ConfigBackendConfiguration`: `maxRetries` is a `nat`.  A negative Kotlin value is not modelled.  The shown configuration class has no `apiVersion`, which the client and its test use; it is kept here as a field.
- `BankCall.BankCallService.GetBankById`: the id is a string.  The parsing of the default id with `UUID.fromString` and its failure are not modelled.
- Interfaces that appear only in the tests: `getCreditConfigByJmsQueue`, `RequestValidationException` and the `validate`/`validateUrl` wrappers.  They are not part of the shown main code.  `CreditValidation.ValidateUrl` and `CreditResourceValidation.Validate` model the wrappers from the rule sets and the main code's fetch.
- `Text.Uppercase`, `Text.Lowercase`: ASCII only.  Unicode case mappings are not modelled.
- `Text.IsDigit`: the decimal digits of the Basic Multilingual Plane as Unicode 7 and later list them.  The table of the JVM the service runs on is not modelled.
- Floating point.  `toDouble()` comparisons, the sums in `calculateLendingRate` and `Double.mod` are exact reals and integers, with no IEEE rounding.  `Math.random()` is a parameter in [0, 1).
- `Credit.CreditService.CalculateCredit`: the wait is recorded in `waits`, not performed.  Wall-clock timing is not modelled.  The order of the wait and the bounds fetch is stated through the fetch count stamped on the wait, not through one shared event log.
- `CreditValidation.LengthBetween`, `Rules.MinLength`, `Rules.MaxLength`, `CreditResourceValidation.NonEmpty`, `Credit.RatingOffset`: Kotlin's `String.length` and `first()` count UTF-16 code units, while the model counts characters.  A character outside the Basic Multilingual Plane, such as an emoji, counts as two in Kotlin and as one here, and `first()` of such a string yields half a surrogate pair.
- Amounts and terms are unbounded integers: the Kotlin `Int`/`Long` widths of the typed resource and of `toInt()` are not modelled.  Only the usage counters wrap at 32 bits (`Models.Inc`).
- Concurrency between requests, including the read-then-write race on the group store.
- `Rules.AllowedNamesNP`, `Rules.AllowedNamesAC`: the concrete rating messages of the tests are stated as the ordered lists of allowed names.  The full message strings follow by `Rules.RatingMessageQuotesEachName`, but are not spelled out as literals.  The 30-name message for an unrestricted range is not stated as a literal.
- `Tracking.TrackingService.TrackRequest`: the implementation file is not part of this model, and the behaviour follows its tests.  Where several groups match, the first one in store order is written.  The texts of the two messages come from the system's specification.
