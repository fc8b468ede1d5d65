/**
 * The pieces both credit validators are built from: a rule's verdict on one
 * value, the ordered list of "<field> <message>" reasons a rule set yields,
 * the message templates, and the checks the two validators share (length
 * bounds, typed numeric bounds, and the case-insensitive rating range).
 */
module Rules {
  import opened Wrappers
  import opened Models
  import opened Text

  /** The verdict of one constraint on one value; `Crash` is an exception thrown while checking. */
  datatype Check = Pass | Fail(message: string) | Crash

  /** What running a rule set yields: the reasons in rule order, or the exception that ended it. */
  datatype Outcome = Reasons(reasons: seq<string>) | Crashed {
    /** The reasons of this part followed by those of `next`; an exception in either ends the run. */
    function Then(next: Outcome): (o: Outcome)
      ensures o.Crashed? <==> Crashed? || next.Crashed?
      ensures o.Reasons? ==> o.reasons == reasons + next.reasons
    {
      if Crashed? || next.Crashed? then Crashed else Reasons(reasons + next.reasons)
    }
  }

  /**
   * How a service acts on a finished run: no reasons, no exception; reasons,
   * a validation exception carrying them; an exception while checking, that
   * exception.
   */
  function Verdict(o: Outcome): (e: Option<Error>)
    ensures e.None? <==> o == Reasons([])
    ensures o.Crashed? <==> e == Some(NumberFormat)
    ensures o.Reasons? && o.reasons != [] ==> e == Some(Invalid(o.reasons))
  {
    match o
    case Crashed => Some(NumberFormat)
    case Reasons(rs) => if rs == [] then None else Some(Invalid(rs))
  }

  /** A validation exception's message: its reasons as a Kotlin list prints them. */
  function ValidationMessage(reasons: seq<string>): string {
    "[" + Joined(reasons, ", ") + "]"
  }

  /** A single reason is printed inside brackets and nothing else. */
  lemma SingleReasonMessage(reason: string)
    ensures ValidationMessage([reason]) == "[" + reason + "]"
  {
  }

  const REQUIRED_MESSAGE := "is required"

  /** A required field that is absent yields this one reason and nothing else. */
  function Missing(field: string): Outcome {
    Reasons([field + " " + REQUIRED_MESSAGE])
  }

  /** The reason a failed constraint contributes, prefixed with its field. */
  function Report(field: string, check: Check): (o: Outcome)
    ensures check == Pass <==> o == Reasons([])
    ensures check.Fail? ==> o == Reasons([field + " " + check.message])
    ensures check == Crash <==> o == Crashed
  {
    match check
    case Pass => Reasons([])
    case Fail(message) => Reasons([field + " " + message])
    case Crash => Crashed
  }

  /** Two parts of a run pass together exactly when each passes on its own. */
  lemma ThenPasses(a: Outcome, b: Outcome)
    ensures a.Then(b) == Reasons([]) <==> a == Reasons([]) && b == Reasons([])
  {
    if a.Then(b) == Reasons([]) {
      assert |a.reasons + b.reasons| == 0;
    }
  }

  function AtLeastMessage(bound: int): string {
    "must be at least '" + IntToString(bound) + "'"
  }

  function AtMostMessage(bound: int): string {
    "must be at most '" + IntToString(bound) + "'"
  }

  /** `minimum(minimumInclusive)` on a typed number. */
  function Minimum(n: int, bound: int): (c: Check)
    ensures c == Pass <==> bound <= n
    ensures c != Pass ==> c == Fail(AtLeastMessage(bound))
  {
    if n >= bound then Pass else Fail(AtLeastMessage(bound))
  }

  /** `maximum(maximumInclusive)` on a typed number. */
  function Maximum(n: int, bound: int): (c: Check)
    ensures c == Pass <==> n <= bound
    ensures c != Pass ==> c == Fail(AtMostMessage(bound))
  {
    if n <= bound then Pass else Fail(AtMostMessage(bound))
  }

  /** A number below the range gets the "at least" reason, one above it the "at most" reason, one inside none. */
  lemma BoundsReasons(field: string, n: int, min: int, max: int)
    ensures Report(field, Minimum(n, min)).Then(Report(field, Maximum(n, max))) == Reasons(
      (if n < min then [field + " " + AtLeastMessage(min)] else []) +
      (if n > max then [field + " " + AtMostMessage(max)] else []))
  {
  }

  /** A part without reasons in front changes nothing. */
  lemma PassThen(a: Outcome, b: Outcome)
    ensures Reasons([]).Then(a).Then(b) == a.Then(b)
  {
    if a.Reasons? {
      assert [] + a.reasons == a.reasons;
    }
  }

  function MinLengthMessage(length: nat): string {
    "must have at least " + NatToString(length) + " characters"
  }

  function MaxLengthMessage(length: nat): string {
    "must have at most " + NatToString(length) + " characters"
  }

  /** `minLength(length)`. */
  function MinLength(s: string, length: nat): (c: Check)
    ensures c == Pass <==> length <= |s|
    ensures c != Pass ==> c == Fail(MinLengthMessage(length))
  {
    if |s| >= length then Pass else Fail(MinLengthMessage(length))
  }

  /** `maxLength(length)`. */
  function MaxLength(s: string, length: nat): (c: Check)
    ensures c == Pass <==> |s| <= length
    ensures c != Pass ==> c == Fail(MaxLengthMessage(length))
  {
    if |s| <= length then Pass else Fail(MaxLengthMessage(length))
  }

  // ---------------------------------------------------------------------------
  // ratingLevelIgnoreCase

  predicate Between(level: RatingLevel, min: RatingLevel, max: RatingLevel) {
    Ordinal(min) <= Ordinal(level) <= Ordinal(max)
  }

  predicate StrictlyAscending(levels: seq<RatingLevel>) {
    forall i, j :: 0 <= i < j < |levels| ==> Ordinal(levels[i]) < Ordinal(levels[j])
  }

  /** `levels.filter { (it >= min) and (it <= max) }`. */
  function FilterBetween(levels: seq<RatingLevel>, min: RatingLevel, max: RatingLevel): (r: seq<RatingLevel>)
    ensures forall l :: l in r <==> l in levels && Between(l, min, max)
    decreases |levels|
  {
    if levels == [] then []
    else if Between(levels[0], min, max) then [levels[0]] + FilterBetween(levels[1..], min, max)
    else FilterBetween(levels[1..], min, max)
  }

  /** Filtering keeps the order: an ascending list stays ascending. */
  lemma {:induction false} FilterKeepsAscending(levels: seq<RatingLevel>, min: RatingLevel, max: RatingLevel)
    requires StrictlyAscending(levels)
    ensures StrictlyAscending(FilterBetween(levels, min, max))
    decreases |levels|
  {
    if levels != [] {
      TailAscending(levels);
      FilterKeepsAscending(levels[1..], min, max);
      if Between(levels[0], min, max) {
        AscendingHead(levels);
        ConsAscending(levels[0], FilterBetween(levels[1..], min, max));
      }
    }
  }

  lemma TailAscending(levels: seq<RatingLevel>)
    requires levels != [] && StrictlyAscending(levels)
    ensures StrictlyAscending(levels[1..])
  {
    forall i, j | 0 <= i < j < |levels| - 1 ensures Ordinal(levels[1..][i]) < Ordinal(levels[1..][j]) {
      assert levels[1..][i] == levels[i + 1] && levels[1..][j] == levels[j + 1];
    }
  }

  lemma ConsAscending(head: RatingLevel, rest: seq<RatingLevel>)
    requires StrictlyAscending(rest)
    requires forall l :: l in rest ==> Ordinal(head) < Ordinal(l)
    ensures StrictlyAscending([head] + rest)
  {
    forall i, j | 0 <= i < j < |rest| + 1 ensures Ordinal(([head] + rest)[i]) < Ordinal(([head] + rest)[j]) {
      assert ([head] + rest)[j] == rest[j - 1];
      if i == 0 {
        assert rest[j - 1] in rest;
      } else {
        assert ([head] + rest)[i] == rest[i - 1];
      }
    }
  }

  lemma AscendingHead(levels: seq<RatingLevel>)
    requires levels != []
    ensures StrictlyAscending(levels) ==> forall l :: l in levels[1..] ==> Ordinal(levels[0]) < Ordinal(l)
  {
    forall l | StrictlyAscending(levels) && l in levels[1..] ensures Ordinal(levels[0]) < Ordinal(l) {
      var m :| 0 <= m < |levels| - 1 && levels[1..][m] == l;
      assert levels[m + 1] == l;
    }
  }

  lemma EnumerationAscending()
    ensures StrictlyAscending(RATING_LEVELS)
  {
    forall i, j | 0 <= i < j < |RATING_LEVELS|
      ensures Ordinal(RATING_LEVELS[i]) < Ordinal(RATING_LEVELS[j])
    {
      OrdinalAt(i);
      OrdinalAt(j);
    }
  }

  lemma OrdinalAt(i: nat)
    requires i < |RATING_LEVELS|
    ensures Ordinal(RATING_LEVELS[i]) == i
  {
    if i < 8 {
      if i < 4 {
        if i < 2 { if i == 0 {} else {} } else { if i == 2 {} else {} }
      } else {
        if i < 6 { if i == 4 {} else {} } else { if i == 6 {} else {} }
      }
    } else {
      if i < 12 {
        if i < 10 { if i == 8 {} else {} } else { if i == 10 {} else {} }
      } else {
        if i < 14 { if i == 12 {} else {} } else {}
      }
    }
  }

  /**
   * `enumValues<RatingLevel>()` filtered to [min, max]: exactly the levels in
   * range, in enumeration order.
   */
  function LevelsBetween(min: RatingLevel, max: RatingLevel): (ls: seq<RatingLevel>)
    ensures forall l :: l in ls <==> Between(l, min, max)
    ensures StrictlyAscending(ls)
  {
    EnumerationAscending();
    forall l ensures l in RATING_LEVELS { LevelAtOrdinal(l); }
    FilterKeepsAscending(RATING_LEVELS, min, max);
    FilterBetween(RATING_LEVELS, min, max)
  }

  /** Strictly ascending lists with the same elements start alike. */
  lemma AscendingHeadsAgree(a: seq<RatingLevel>, b: seq<RatingLevel>)
    requires StrictlyAscending(a) && StrictlyAscending(b)
    requires a != [] && b != []
    requires forall l :: l in a <==> l in b
    ensures a[0] == b[0]
  {
    assert a[0] in b && b[0] in a;
    var i :| 0 <= i < |b| && b[i] == a[0];
    var j :| 0 <= j < |a| && a[j] == b[0];
    assert Ordinal(b[0]) <= Ordinal(b[i]);
    assert Ordinal(a[0]) <= Ordinal(a[j]);
  }

  /** Past an equal head, the remaining elements agree too. */
  lemma AscendingTailsAgree(a: seq<RatingLevel>, b: seq<RatingLevel>)
    requires StrictlyAscending(a) && StrictlyAscending(b)
    requires a != [] && b != [] && a[0] == b[0]
    requires forall l :: l in a <==> l in b
    ensures forall l :: l in a[1..] <==> l in b[1..]
  {
    forall l ensures l in a[1..] ==> l in b[1..] {
      if l in a[1..] {
        var m :| 0 <= m < |a| - 1 && a[1..][m] == l;
        assert a[m + 1] == l && l != a[0];
        assert l in b;
      }
    }
    forall l ensures l in b[1..] ==> l in a[1..] {
      if l in b[1..] {
        var m :| 0 <= m < |b| - 1 && b[1..][m] == l;
        assert b[m + 1] == l && l != b[0];
        assert l in a;
      }
    }
  }

  /** Two strictly ascending lists with the same elements are the same list. */
  lemma {:induction false} AscendingUnique(a: seq<RatingLevel>, b: seq<RatingLevel>)
    requires StrictlyAscending(a) && StrictlyAscending(b)
    requires forall l :: l in a <==> l in b
    ensures a == b
    decreases |a|
  {
    if b != [] {
      assert b[0] in a;
    }
    if a != [] {
      assert a[0] in b;
      AscendingHeadsAgree(a, b);
      AscendingTailsAgree(a, b);
      AscendingUnique(a[1..], b[1..]);
      assert a == [a[0]] + a[1..];
      assert b == [b[0]] + b[1..];
    }
  }

  function UpperNames(levels: seq<RatingLevel>): (names: seq<string>)
    ensures |names| == |levels|
    ensures forall i :: 0 <= i < |levels| ==> names[i] == Uppercase(Name(levels[i]))
  {
    seq(|levels|, i requires 0 <= i < |levels| => Uppercase(Name(levels[i])))
  }

  function LowerNames(levels: seq<RatingLevel>): (names: seq<string>)
    ensures |names| == |levels|
    ensures forall i :: 0 <= i < |levels| ==> names[i] == Lowercase(Name(levels[i]))
  {
    seq(|levels|, i requires 0 <= i < |levels| => Lowercase(Name(levels[i])))
  }

  /** The accepted spellings: every upper-case name in range, then every lower-case one. */
  function AllowedNames(min: RatingLevel, max: RatingLevel): seq<string> {
    UpperNames(LevelsBetween(min, max)) + LowerNames(LevelsBetween(min, max))
  }

  function OneOfMessage(names: seq<string>): string {
    "must be one of: " + JoinToString(names, "', '", "'", "'")
  }

  /** `ratingLevelIgnoreCase(min, max)`: membership in the allowed spellings. */
  function RatingLevelIgnoreCase(s: string, min: RatingLevel, max: RatingLevel): (c: Check)
    ensures c != Crash
    ensures c != Pass ==> c == Fail(OneOfMessage(AllowedNames(min, max)))
  {
    var names := AllowedNames(min, max);
    if s in names then Pass else Fail(OneOfMessage(names))
  }

  /** `s` is the upper-case or the lower-case name of `level`. */
  predicate Spells(s: string, level: RatingLevel) {
    s == Name(level) || s == Lowercase(Name(level))
  }

  /** An allowed spelling spells some level of the list it was built from. */
  lemma AllowedSpells(levels: seq<RatingLevel>, s: string) returns (level: RatingLevel)
    requires s in UpperNames(levels) + LowerNames(levels)
    ensures level in levels && Spells(s, level)
  {
    var ups, lows := UpperNames(levels), LowerNames(levels);
    if s in ups {
      var i :| 0 <= i < |ups| && ups[i] == s;
      level := levels[i];
      CaseRoundTrip(Name(level));
    } else {
      var i :| 0 <= i < |lows| && lows[i] == s;
      level := levels[i];
    }
  }

  /** Both spellings of every level in the list are allowed. */
  lemma SpellingAllowed(levels: seq<RatingLevel>, level: RatingLevel, s: string)
    requires level in levels && Spells(s, level)
    ensures s in UpperNames(levels) + LowerNames(levels)
  {
    var i :| 0 <= i < |levels| && levels[i] == level;
    CaseRoundTrip(Name(level));
    if s == Name(level) {
      assert UpperNames(levels)[i] == s;
    } else {
      assert LowerNames(levels)[i] == s;
    }
  }

  lemma AcceptedSpellsLevelInRange(s: string, min: RatingLevel, max: RatingLevel) returns (l: RatingLevel)
    requires s in AllowedNames(min, max)
    ensures Between(l, min, max) && Spells(s, l)
  {
    l := AllowedSpells(LevelsBetween(min, max), s);
  }

  lemma LevelInRangeAccepted(s: string, min: RatingLevel, max: RatingLevel, l: RatingLevel)
    requires Between(l, min, max) && Spells(s, l)
    ensures s in AllowedNames(min, max)
  {
    SpellingAllowed(LevelsBetween(min, max), l, s);
  }

  /**
   * A rating passes exactly when it spells, in upper or lower case, a level
   * whose position lies in [min, max].
   */
  lemma RatingAccepted(s: string, min: RatingLevel, max: RatingLevel)
    ensures RatingLevelIgnoreCase(s, min, max) == Pass <==> exists l :: Between(l, min, max) && Spells(s, l)
  {
    if s in AllowedNames(min, max) {
      var l := AcceptedSpellsLevelInRange(s, min, max);
    }
    if l :| Between(l, min, max) && Spells(s, l) {
      LevelInRangeAccepted(s, min, max, l);
    }
  }

  /** `field required { ratingLevelIgnoreCase(min, max) }`, the same in both validators. */
  function RatingLevelField(field: string, value: Option<string>, min: RatingLevel, max: RatingLevel): (o: Outcome)
    ensures value == None ==> o == Missing(field)
    ensures o == Reasons([]) <==> value.Some? && exists l :: Between(l, min, max) && Spells(value.value, l)
    ensures value.Some? && o != Reasons([]) ==>
      o == Reasons([field + " " + OneOfMessage(AllowedNames(min, max))])
    ensures o.Reasons?
  {
    match value
    case None => Missing(field)
    case Some(text) =>
      RatingAccepted(text, min, max);
      Report(field, RatingLevelIgnoreCase(text, min, max))
  }

  /** Every accepted spelling is a single letter, so strings such as "Aa" never pass. */
  lemma AcceptedIsOneLetter(s: string, min: RatingLevel, max: RatingLevel)
    requires RatingLevelIgnoreCase(s, min, max) == Pass
    ensures |s| == 1
  {
    RatingAccepted(s, min, max);
  }

  /** The enumeration has no M, so neither "M" nor "m" is ever accepted, whatever the bounds. */
  lemma NoLevelM(min: RatingLevel, max: RatingLevel)
    ensures RatingLevelIgnoreCase("M", min, max) != Pass
    ensures RatingLevelIgnoreCase("m", min, max) != Pass
  {
    var ls := LevelsBetween(min, max);
    var names := AllowedNames(min, max);
    forall k | 0 <= k < |names| ensures names[k] != "M" && names[k] != "m" {
      if k < |ls| {
        assert names[k] == Uppercase(Name(ls[k]));
        assert names[k][0] == UpperChar(Letter(ls[k]));
      } else {
        assert names[k] == Lowercase(Name(ls[k - |ls|]));
        assert names[k][0] == LowerChar(Letter(ls[k - |ls|]));
      }
    }
  }

  /** Either spelling of a level's name spells that level and no other. */
  lemma SpellsOnlyItsLevel(level: RatingLevel, other: RatingLevel)
    ensures Spells(Name(level), other) ==> other == level
    ensures Spells(Lowercase(Name(level)), other) ==> other == level
  {
    if Lowercase(Name(level)) == Lowercase(Name(other)) {
      LowercaseInjective(Name(level), Name(other));
    }
    if Name(level) == Name(other) || Name(level) == Lowercase(Name(other))
      || Lowercase(Name(level)) == Name(other) || Lowercase(Name(level)) == Lowercase(Name(other)) {
      NameInjective(level, other);
    }
  }

  /**
   * The upper-case and the lower-case name of a level get the same verdict,
   * message included: both pass exactly when the level lies in [min, max].
   */
  lemma {:induction false} RatingIgnoresCase(level: RatingLevel, min: RatingLevel, max: RatingLevel)
    ensures RatingLevelIgnoreCase(Name(level), min, max) == RatingLevelIgnoreCase(Lowercase(Name(level)), min, max)
    ensures RatingLevelIgnoreCase(Name(level), min, max) == Pass <==> Between(level, min, max)
  {
    RatingAccepted(Name(level), min, max);
    RatingAccepted(Lowercase(Name(level)), min, max);
    forall l ensures Spells(Name(level), l) ==> l == level
      ensures Spells(Lowercase(Name(level)), l) ==> l == level
    {
      SpellsOnlyItsLevel(level, l);
    }
    assert Spells(Name(level), level) && Spells(Lowercase(Name(level)), level);
  }

  lemma LowercaseInjective(s: string, t: string)
    requires IsUpperLetters(s) && IsUpperLetters(t)
    requires Lowercase(s) == Lowercase(t)
    ensures s == t
  {
    CaseRoundTrip(s);
    CaseRoundTrip(t);
  }

  /** The failure message lists the allowed names one by one, each in single quotes. */
  lemma {:induction false} RatingMessageQuotesEachName(min: RatingLevel, max: RatingLevel)
    requires Ordinal(min) <= Ordinal(max)
    ensures OneOfMessage(AllowedNames(min, max)) == "must be one of: " + QuotedList(AllowedNames(min, max))
  {
    assert min in LevelsBetween(min, max);
    JoinQuotesEveryElement(AllowedNames(min, max));
  }

  // Two concrete name lists: the ranges N..P and A..C.

  lemma HighLevels(l: RatingLevel)
    ensures Ordinal(l) >= 12 <==> l in [N, O, P]
  {
    match l
    case N =>
    case O =>
    case P =>
    case _ =>
  }

  lemma LowLevels(l: RatingLevel)
    ensures Ordinal(l) <= 2 <==> l in [A, B, C]
  {
    match l
    case A =>
    case B =>
    case C =>
    case _ =>
  }

  lemma AscendingNP()
    ensures StrictlyAscending([N, O, P])
  {
    assert Ordinal(N) == 12 && Ordinal(O) == 13 && Ordinal(P) == 14;
  }

  lemma AscendingAC()
    ensures StrictlyAscending([A, B, C])
  {
    assert Ordinal(A) == 0 && Ordinal(B) == 1 && Ordinal(C) == 2;
  }

  lemma LevelsNP(min: RatingLevel, max: RatingLevel)
    requires min == N && max == P
    ensures LevelsBetween(min, max) == [N, O, P]
  {
    var ls := LevelsBetween(min, max);
    forall l ensures l in ls <==> l in [N, O, P] {
      HighLevels(l);
    }
    AscendingNP();
    AscendingUnique(ls, [N, O, P]);
  }

  lemma LevelsAC(min: RatingLevel, max: RatingLevel)
    requires min == A && max == C
    ensures LevelsBetween(min, max) == [A, B, C]
  {
    var ls := LevelsBetween(min, max);
    forall l ensures l in ls <==> l in [A, B, C] {
      LowLevels(l);
    }
    AscendingAC();
    AscendingUnique(ls, [A, B, C]);
  }

  lemma NamesNP()
    ensures var ups := UpperNames([N, O, P]); ups[0] == "N" && ups[1] == "O" && ups[2] == "P"
    ensures var lows := LowerNames([N, O, P]); lows[0] == "n" && lows[1] == "o" && lows[2] == "p"
  {
    assert Name(N) == "N" && Name(O) == "O" && Name(P) == "P";
    assert Uppercase("N") == "N" && Uppercase("O") == "O" && Uppercase("P") == "P";
    assert Lowercase("N") == "n" && Lowercase("O") == "o" && Lowercase("P") == "p";
  }

  lemma NamesAC()
    ensures var ups := UpperNames([A, B, C]); ups[0] == "A" && ups[1] == "B" && ups[2] == "C"
    ensures var lows := LowerNames([A, B, C]); lows[0] == "a" && lows[1] == "b" && lows[2] == "c"
  {
    assert Name(A) == "A" && Name(B) == "B" && Name(C) == "C";
    assert Uppercase("A") == "A" && Uppercase("B") == "B" && Uppercase("C") == "C";
    assert Lowercase("A") == "a" && Lowercase("B") == "b" && Lowercase("C") == "c";
  }

  /** Ratings limited to N..P are refused with the names N, O, P, n, o, p. */
  lemma AllowedNamesNP(min: RatingLevel, max: RatingLevel)
    requires min == N && max == P
    ensures var names := AllowedNames(min, max);
      |names| == 6 && names[0] == "N" && names[1] == "O" && names[2] == "P" && names[3] == "n" && names[4] == "o" && names[5] == "p"
  {
    LevelsNP(min, max);
    NamesNP();
  }

  /** Ratings limited to A..C are refused with the names A, B, C, a, b, c. */
  lemma AllowedNamesAC(min: RatingLevel, max: RatingLevel)
    requires min == A && max == C
    ensures var names := AllowedNames(min, max);
      |names| == 6 && names[0] == "A" && names[1] == "B" && names[2] == "C" && names[3] == "a" && names[4] == "b" && names[5] == "c"
  {
    LevelsAC(min, max);
    NamesAC();
  }
}
