/**
 * The eligibility check of the application wizard (client/src/App.jsx,
 * `handleCheckEligibility`): four input validations in a fixed order, then
 * five business rules whose limits come from the rule table, the first
 * failure winning; on success the applicant is placed in a size tier.
 */
module Eligibility {
  import opened Wrappers
  import Text

  /**
   * A numeric form field as the wizard holds it: empty, a string the user
   * typed (holding the integer it parses to), or a number copied from the
   * latest stored profile.
   */
  datatype Field = Blank | Typed(n: int) | Stored(n: int)

  /** JavaScript truthiness: "" and the number 0 are falsy, every non-empty string is truthy. */
  predicate Truthy(f: Field) {
    f.Typed? || (f.Stored? && f.n != 0)
  }

  /** `formData`: what the applicant entered on the first wizard step. */
  datatype FormData = FormData(
    companyName: string,
    turnover: Field,
    amountRequested: Field,
    yearsTrading: Field,
    sector: Option<string>,
    entityType: string)

  /** The `eligibility` block of the rule table. */
  datatype Rules = Rules(minTurnover: int, maxTurnover: int, minYearsTrading: int, bannedSectors: seq<string>)

  /** Why a check failed; each carries what its message interpolates. */
  datatype Reason =
    | CompanyNameRequired
    | TurnoverNotPositive
    | AmountNotPositive
    | YearsNegative
    | BelowMinimumTurnover(turnover: int)
    | ExceedsMaximumTurnover
    | InsufficientYears(years: int)
    | AmountExceedsTurnover
    | RestrictedSector(sector: string)

  datatype Tier = MicroEnterprise | SmallEnterprise | MediumEnterprise

  const MicroLimit := 100000000
  const SmallLimit := 1000000000

  /** The size tier for an annual turnover. */
  function TierOf(turnover: int): (t: Tier)
    ensures t == MicroEnterprise <==> turnover <= MicroLimit
    ensures t == SmallEnterprise <==> MicroLimit < turnover <= SmallLimit
    ensures t == MediumEnterprise <==> SmallLimit < turnover
  {
    if turnover <= MicroLimit then MicroEnterprise
    else if turnover <= SmallLimit then SmallEnterprise
    else MediumEnterprise
  }

  predicate Banned(sector: Option<string>, rules: Rules) {
    sector.Some? && sector.value in rules.bannedSectors
  }

  /** The check as the handler runs it: each `if` returns with its reason. */
  function Evaluate(f: FormData, rules: Rules): Result<Tier, Reason> {
    if Text.Trim(f.companyName) == [] then Failure(CompanyNameRequired)
    else if !Truthy(f.turnover) || f.turnover.n <= 0 then Failure(TurnoverNotPositive)
    else if !Truthy(f.amountRequested) || f.amountRequested.n <= 0 then Failure(AmountNotPositive)
    else if !Truthy(f.yearsTrading) || f.yearsTrading.n < 0 then Failure(YearsNegative)
    else
      var turnover, years, amount := f.turnover.n, f.yearsTrading.n, f.amountRequested.n;
      if turnover < rules.minTurnover then Failure(BelowMinimumTurnover(turnover))
      else if turnover > rules.maxTurnover then Failure(ExceedsMaximumTurnover)
      else if years < rules.minYearsTrading then Failure(InsufficientYears(years))
      else if amount > turnover then Failure(AmountExceedsTurnover)
      else if Banned(f.sector, rules) then Failure(RestrictedSector(f.sector.value))
      else Success(TierOf(turnover))
  }

  // ---------------------------------------------------------------------
  // A reference statement of the same check: an ordered list of named
  // checks, each stated on its own, and "report the first that fails".
  // ---------------------------------------------------------------------

  datatype Check =
    | NameGiven | TurnoverPositive | AmountPositive | YearsNonNegative
    | MinTurnover | MaxTurnover | MinYears | AmountWithinTurnover | SectorAllowed

  const CheckOrder: seq<Check> := [
    NameGiven, TurnoverPositive, AmountPositive, YearsNonNegative,
    MinTurnover, MaxTurnover, MinYears, AmountWithinTurnover, SectorAllowed
  ]

  /** The integer a field holds, 0 when empty. */
  function Value(f: Field): int {
    if f.Blank? then 0 else f.n
  }

  /** Whether check `c` is violated by `f`, stated without reference to the other checks. */
  predicate Violates(c: Check, f: FormData, rules: Rules) {
    match c
    case NameGiven => forall i :: 0 <= i < |f.companyName| ==> Text.IsSpace(f.companyName[i])
    case TurnoverPositive => !(Truthy(f.turnover) && Value(f.turnover) > 0)
    case AmountPositive => !(Truthy(f.amountRequested) && Value(f.amountRequested) > 0)
    case YearsNonNegative => !(Truthy(f.yearsTrading) && Value(f.yearsTrading) >= 0)
    case MinTurnover => Value(f.turnover) < rules.minTurnover
    case MaxTurnover => Value(f.turnover) > rules.maxTurnover
    case MinYears => Value(f.yearsTrading) < rules.minYearsTrading
    case AmountWithinTurnover => Value(f.amountRequested) > Value(f.turnover)
    case SectorAllowed => Banned(f.sector, rules)
  }

  function ReasonFor(c: Check, f: FormData): Reason {
    match c
    case NameGiven => CompanyNameRequired
    case TurnoverPositive => TurnoverNotPositive
    case AmountPositive => AmountNotPositive
    case YearsNonNegative => YearsNegative
    case MinTurnover => BelowMinimumTurnover(Value(f.turnover))
    case MaxTurnover => ExceedsMaximumTurnover
    case MinYears => InsufficientYears(Value(f.yearsTrading))
    case AmountWithinTurnover => AmountExceedsTurnover
    case SectorAllowed => RestrictedSector(if f.sector.Some? then f.sector.value else "")
  }

  /** The reason of the first violated check of `checks`, if any. */
  function FirstViolation(checks: seq<Check>, f: FormData, rules: Rules): Option<Reason> {
    if checks == [] then None
    else if Violates(checks[0], f, rules) then Some(ReasonFor(checks[0], f))
    else FirstViolation(checks[1..], f, rules)
  }

  /** No reason means no check of the list is violated, and a reason is that of the first violated one. */
  lemma {:induction false} FirstViolationSpec(checks: seq<Check>, f: FormData, rules: Rules)
    ensures FirstViolation(checks, f, rules) == None <==> forall k :: 0 <= k < |checks| ==> !Violates(checks[k], f, rules)
    ensures FirstViolation(checks, f, rules) != None ==>
      exists k :: && 0 <= k < |checks| && Violates(checks[k], f, rules)
                  && FirstViolation(checks, f, rules) == Some(ReasonFor(checks[k], f))
                  && forall j :: 0 <= j < k ==> !Violates(checks[j], f, rules)
  {
    if checks != [] && !Violates(checks[0], f, rules) {
      FirstViolationSpec(checks[1..], f, rules);
      assert forall k :: 1 <= k < |checks| ==> checks[k] == checks[1..][k - 1];
      if FirstViolation(checks, f, rules) != None {
        var k :| && 0 <= k < |checks[1..]| && Violates(checks[1..][k], f, rules)
                 && FirstViolation(checks[1..], f, rules) == Some(ReasonFor(checks[1..][k], f))
                 && forall j :: 0 <= j < k ==> !Violates(checks[1..][j], f, rules);
        assert Violates(checks[k + 1], f, rules);
      }
    } else if checks != [] {
      assert Violates(checks[0], f, rules);
    }
  }

  /** The handler agrees with the reference: the first violated check is reported, else the tier. */
  lemma EvaluateIsFirstViolation(f: FormData, rules: Rules)
    ensures Evaluate(f, rules) == match FirstViolation(CheckOrder, f, rules)
      case None => Success(TierOf(Value(f.turnover)))
      case Some(reason) => Failure(reason)
  {
    assert Violates(NameGiven, f, rules) == (Text.Trim(f.companyName) == []) by {
      Text.TrimEmptyIffBlank(f.companyName);
    }
    var c4 := [MinTurnover, MaxTurnover, MinYears, AmountWithinTurnover, SectorAllowed];
    var c3 := [YearsNonNegative] + c4;
    var c2 := [AmountPositive] + c3;
    var c1 := [TurnoverPositive] + c2;
    assert CheckOrder == [NameGiven] + c1;
    assert CheckOrder[0] == NameGiven && CheckOrder[1..] == c1;
    assert c1[0] == TurnoverPositive && c1[1..] == c2;
    assert c2[0] == AmountPositive && c2[1..] == c3;
    assert c3[0] == YearsNonNegative && c3[1..] == c4;
    if !Violates(NameGiven, f, rules) && !Violates(TurnoverPositive, f, rules)
      && !Violates(AmountPositive, f, rules) && !Violates(YearsNonNegative, f, rules)
    {
      calc {
        FirstViolation(CheckOrder, f, rules);
        FirstViolation(c1, f, rules);
        FirstViolation(c2, f, rules);
        FirstViolation(c3, f, rules);
        FirstViolation(c4, f, rules);
      }
      BusinessRulesInOrder(f, rules);
    } else if Violates(NameGiven, f, rules) {
    } else if Violates(TurnoverPositive, f, rules) {
      assert FirstViolation(CheckOrder, f, rules) == FirstViolation(c1, f, rules);
    } else if Violates(AmountPositive, f, rules) {
      assert FirstViolation(CheckOrder, f, rules) == FirstViolation(c1, f, rules) == FirstViolation(c2, f, rules);
    } else {
      assert FirstViolation(CheckOrder, f, rules) == FirstViolation(c1, f, rules) == FirstViolation(c2, f, rules) == FirstViolation(c3, f, rules);
    }
  }

  /** Once the inputs are valid, the five business rules are applied in order. */
  lemma BusinessRulesInOrder(f: FormData, rules: Rules)
    requires Text.Trim(f.companyName) != []
    requires Truthy(f.turnover) && f.turnover.n > 0 && Truthy(f.amountRequested) && f.amountRequested.n > 0
    requires Truthy(f.yearsTrading) && f.yearsTrading.n >= 0
    ensures Evaluate(f, rules) == match FirstViolation([MinTurnover, MaxTurnover, MinYears, AmountWithinTurnover, SectorAllowed], f, rules)
      case None => Success(TierOf(Value(f.turnover)))
      case Some(reason) => Failure(reason)
  {
    var c8 := [SectorAllowed];
    var c7 := [AmountWithinTurnover] + c8;
    var c6 := [MinYears] + c7;
    var c5 := [MaxTurnover] + c6;
    var c4 := [MinTurnover] + c5;
    assert c4[0] == MinTurnover && c4[1..] == c5;
    assert c5[0] == MaxTurnover && c5[1..] == c6;
    assert c6[0] == MinYears && c6[1..] == c7;
    assert c7[0] == AmountWithinTurnover && c7[1..] == c8;
    assert c8[0] == SectorAllowed && c8[1..] == [];
    assert FirstViolation([], f, rules) == None;
    assert c4 == [MinTurnover, MaxTurnover, MinYears, AmountWithinTurnover, SectorAllowed];
    if Violates(MinTurnover, f, rules) {
      assert FirstViolation(c4, f, rules) == Some(BelowMinimumTurnover(f.turnover.n));
    } else if Violates(MaxTurnover, f, rules) {
      assert FirstViolation(c4, f, rules) == FirstViolation(c5, f, rules) == Some(ExceedsMaximumTurnover);
    } else if Violates(MinYears, f, rules) {
      assert FirstViolation(c4, f, rules) == FirstViolation(c5, f, rules) == FirstViolation(c6, f, rules);
    } else if Violates(AmountWithinTurnover, f, rules) {
      assert FirstViolation(c4, f, rules) == FirstViolation(c5, f, rules) == FirstViolation(c6, f, rules) == FirstViolation(c7, f, rules);
    } else {
      assert FirstViolation(c4, f, rules) == FirstViolation(c5, f, rules) == FirstViolation(c6, f, rules) == FirstViolation(c7, f, rules) == FirstViolation(c8, f, rules);
    }
  }

  /** Distinct checks give distinct reasons. */
  lemma ReasonsDistinguishChecks(c: Check, d: Check, f: FormData)
    requires ReasonFor(c, f) == ReasonFor(d, f)
    ensures c == d
  {
  }

  /** Position `k` of the order is reported exactly when check `k` fails and no earlier one does. */
  lemma {:induction false} ReportsFirstViolatedCheck(f: FormData, rules: Rules, k: nat)
    requires k < |CheckOrder|
    ensures Evaluate(f, rules) == Failure(ReasonFor(CheckOrder[k], f)) <==>
      Violates(CheckOrder[k], f, rules) && forall j :: 0 <= j < k ==> !Violates(CheckOrder[j], f, rules)
  {
    EvaluateIsFirstViolation(f, rules);
    FirstViolationSpec(CheckOrder, f, rules);
    var r := FirstViolation(CheckOrder, f, rules);
    if r != None {
      var m :| 0 <= m < |CheckOrder| && Violates(CheckOrder[m], f, rules)
        && r == Some(ReasonFor(CheckOrder[m], f)) && forall j :: 0 <= j < m ==> !Violates(CheckOrder[j], f, rules);
      SameReasonSamePosition(f, m, k);
      if Violates(CheckOrder[k], f, rules) && forall j :: 0 <= j < k ==> !Violates(CheckOrder[j], f, rules) {
        assert !(m < k) && !(k < m);
      }
    }
  }

  /** No check appears twice in the order. */
  lemma CheckOrderDistinct()
    ensures forall a, b :: 0 <= a < b < |CheckOrder| ==> CheckOrder[a] != CheckOrder[b]
  {
  }

  /** Two positions of the order that report the same reason are the same position. */
  lemma SameReasonSamePosition(f: FormData, m: nat, k: nat)
    requires m < |CheckOrder| && k < |CheckOrder|
    ensures ReasonFor(CheckOrder[m], f) == ReasonFor(CheckOrder[k], f) ==> m == k
  {
    if ReasonFor(CheckOrder[m], f) == ReasonFor(CheckOrder[k], f) {
      ReasonsDistinguishChecks(CheckOrder[m], CheckOrder[k], f);
      CheckOrderDistinct();
    }
  }

  /** The check passes exactly when no check is violated, and then the tier follows the turnover. */
  lemma SuccessIffNoViolation(f: FormData, rules: Rules)
    ensures Evaluate(f, rules).Success? <==> forall k :: 0 <= k < |CheckOrder| ==> !Violates(CheckOrder[k], f, rules)
    ensures Evaluate(f, rules).Success? ==> Evaluate(f, rules).value == TierOf(Value(f.turnover))
  {
    EvaluateIsFirstViolation(f, rules);
    FirstViolationSpec(CheckOrder, f, rules);
  }

  /** A turnover under the minimum is refused once the inputs are valid, and never gets a tier. */
  lemma BelowMinimumTurnoverRefused(f: FormData, rules: Rules)
    requires exists i :: 0 <= i < |f.companyName| && !Text.IsSpace(f.companyName[i])
    requires f.turnover.Typed? && 0 < f.turnover.n < rules.minTurnover
    requires f.amountRequested.Typed? && f.amountRequested.n > 0
    requires f.yearsTrading.Typed? && f.yearsTrading.n >= 0
    ensures Evaluate(f, rules) == Failure(BelowMinimumTurnover(f.turnover.n))
  {
    Text.TrimEmptyIffBlank(f.companyName);
  }

  /**
   * "Amount above turnover" is not decisive on its own: the turnover and
   * vintage rules are checked before it.
   */
  lemma AmountRuleComesAfterTurnoverRules()
    ensures var f := FormData("Acme", Typed(4200000), Typed(5000000), Typed(3), Some("Retail"), "Sole Trader");
            var rules := Rules(5000000, 5000000000, 2, ["Gambling"]);
            f.amountRequested.n > f.turnover.n && Evaluate(f, rules) == Failure(BelowMinimumTurnover(4200000))
  {
    var f := FormData("Acme", Typed(4200000), Typed(5000000), Typed(3), Some("Retail"), "Sole Trader");
    assert f.companyName[0] == 'A';
    Text.TrimEmptyIffBlank(f.companyName);
  }

  /**
   * A years value of 0 typed by the user passes validation, but the same 0
   * copied as a number from the latest profile is falsy and reported as
   * negative.
   */
  lemma StoredZeroYearsReportedNegative(f: FormData, rules: Rules)
    requires Text.Trim(f.companyName) != []
    requires f.turnover.Typed? && f.turnover.n > 0 && f.amountRequested.Typed? && f.amountRequested.n > 0
    ensures Evaluate(f.(yearsTrading := Stored(0)), rules) == Failure(YearsNegative)
    ensures Evaluate(f.(yearsTrading := Typed(0)), rules) != Failure(YearsNegative)
  {
  }

  /** A valid Retail profile with 4.2 million turnover asking for 1 million is a Micro Enterprise. */
  lemma RetailScenario(rules: Rules)
    requires rules.minTurnover <= 4200000 <= rules.maxTurnover && rules.minYearsTrading <= 3
    requires "Retail" !in rules.bannedSectors
    ensures Evaluate(FormData("Acme Traders", Typed(4200000), Typed(1000000), Typed(3), Some("Retail"), "Sole Trader"), rules)
      == Success(MicroEnterprise)
  {
    var name := "Acme Traders";
    assert name[0] == 'A';
    Text.TrimEmptyIffBlank(name);
  }

  /** A banned sector is refused once every earlier check passes. */
  lemma BannedSectorScenario(rules: Rules)
    requires rules.minTurnover <= 4200000 <= rules.maxTurnover && rules.minYearsTrading <= 3
    requires "Gambling" in rules.bannedSectors
    ensures Evaluate(FormData("Acme Traders", Typed(4200000), Typed(1000000), Typed(3), Some("Gambling"), "Sole Trader"), rules)
      == Failure(RestrictedSector("Gambling"))
  {
    var name := "Acme Traders";
    assert name[0] == 'A';
    Text.TrimEmptyIffBlank(name);
  }
}
