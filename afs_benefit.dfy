/**
 * The Allowance for the Survivor: the eligibility decision tree and the
 * entitlement it unlocks.
 */
module AfsBenefit {
  import opened Wrappers
  import opened Definitions
  import EntitlementFormula
  import BaseBenefit

  const RequiredYearsInCanada: int := 10

  // The requirements, as the decision tree names them.

  predicate MeetsReqMarital(input: ProcessedInput) { input.maritalStatus.IsWidowed() }
  predicate MeetsReqAge(input: ProcessedInput) { 60.0 <= input.age <= 64.0 }
  predicate OverAgeReq(input: ProcessedInput) { 65.0 <= input.age }
  predicate UnderAgeReq(input: ProcessedInput) { input.age < 60.0 }
  /** An absent income fails the comparison, as `undefined < limit` does. */
  predicate MeetsReqIncome(input: ProcessedInput, lv: LegalValues) {
    input.income.Some? && input.income.value < lv.afsIncomeLimit
  }
  predicate MeetsReqYears(input: ProcessedInput) { input.yearsInCanadaSince18 >= RequiredYearsInCanada }
  predicate MeetsReqLegal(input: ProcessedInput) { input.legalStatus.Canadian() }

  /** Every requirement except age holds. */
  predicate MeetsAllButAge(input: ProcessedInput, lv: LegalValues) {
    MeetsReqLegal(input) && MeetsReqYears(input) && MeetsReqMarital(input) && MeetsReqIncome(input, lv)
  }

  /** `getEligibility`; `Failure(LogicFailed)` is the error the source throws when no rule applies. */
  function GetEligibility(input: ProcessedInput, lv: LegalValues): (r: Result<EligibilityResult, EngineError>)
    ensures r.Success? ==> r.value.result in {Eligible, Ineligible, Unavailable}
    ensures r.Success? ==> (r.value.result == Eligible <==> r.value.reason == NoReason)
    ensures r.Success? && r.value.result == Eligible ==> MeetsAllButAge(input, lv) && MeetsReqAge(input)
    ensures r.Failure? ==> r.error == LogicFailed
  {
    if MeetsAllButAge(input, lv) then
      if MeetsReqAge(input) then Success(EligibilityResult(Eligible, NoReason, EligibleText))
      else if input.age == 59.0 then Success(EligibilityResult(Ineligible, AgeYoung, EligibleWhen60ApplyNow))
      else if UnderAgeReq(input) then Success(EligibilityResult(Ineligible, AgeYoung, EligibleWhen60))
      else Success(EligibilityResult(Ineligible, Age, MustBe60to64))
    else if OverAgeReq(input) then
      Success(EligibilityResult(Ineligible, Age, MustBe60to64))
    else if !MeetsReqMarital(input) && input.maritalStatus.Provided() then
      Success(EligibilityResult(Ineligible, Marital, MustBeWidowed))
    else if !MeetsReqIncome(input, lv) then
      Success(EligibilityResult(Ineligible, Income, MustMeetIncomeReq))
    else if !MeetsReqYears(input) then
      if input.livingCountry.Agreement() || input.everLivedSocialCountry then
        if MeetsReqAge(input) then Success(EligibilityResult(Unavailable, YearsInCanada, DependingOnAgreement))
        else if UnderAgeReq(input) then Success(EligibilityResult(Ineligible, AgeYoung, DependingOnAgreementWhen60))
        else Success(EligibilityResult(Ineligible, Age, MustBe60to64))
      else
        Success(EligibilityResult(Ineligible, YearsInCanada, MustMeetYearReq))
    else if !MeetsReqLegal(input) then
      if UnderAgeReq(input) then Success(EligibilityResult(Ineligible, AgeYoung, DependingOnLegalWhen60))
      else if input.legalStatus.IsSponsored() then
        Success(EligibilityResult(Unavailable, LegalStatusReason, DependingOnLegalSponsored))
      else Success(EligibilityResult(Unavailable, LegalStatusReason, DependingOnLegal))
    else
      Failure(LogicFailed)
  }

  /** The formula amount for this input; an absent income takes the formula's `undefined` path. */
  function FormulaAmount(input: ProcessedInput, lv: LegalValues): (r: Result<real, EngineError>)
    ensures var s := EntitlementFormula.SituationOf(input.maritalStatus, input.partnerBenefitStatus, input.age);
            r.Failure? <==> s.None? || (input.income.None? && EntitlementFormula.Bracketless(s.value))
  {
    match input.income
    case Some(income) =>
      EntitlementFormula.GetEntitlementAmount(income, input.maritalStatus, input.partnerBenefitStatus, input.age, lv)
    case None =>
      EntitlementFormula.GetEntitlementAmountWithoutIncome(input.maritalStatus, input.partnerBenefitStatus, input.age, lv)
  }

  /**
   * `getEntitlement`, given the benefit's (cached) eligibility: nothing unless eligible,
   * otherwise the full formula amount. The formula's own error propagates.
   */
  function GetEntitlement(eligibility: EligibilityResult, input: ProcessedInput, lv: LegalValues)
    : (r: Result<EntitlementResult, EngineError>)
    ensures r.Success? ==> r.value.autoEnrollment.None? && r.value.resultType in {NoEntitlement, Full}
    ensures r.Success? ==> (r.value.resultType == NoEntitlement <==> eligibility.result != Eligible)
    ensures r.Success? && eligibility.result != Eligible ==> r.value.result == 0.0
    ensures r.Failure? <==> eligibility.result == Eligible && FormulaAmount(input, lv).Failure?
  {
    if eligibility.result != Eligible then
      Success(EntitlementResult(0.0, NoEntitlement, None))
    else
      var amount :- FormulaAmount(input, lv);
      Success(EntitlementResult(amount, Full, None))
  }

  // ---------------------------------------------------------------------------
  // Which rule wins

  /** Eligible exactly when all five requirements hold, and then with no reason. */
  lemma EligibleIff(input: ProcessedInput, lv: LegalValues)
    ensures (GetEligibility(input, lv).Success? && GetEligibility(input, lv).value.result == Eligible)
            <==> MeetsReqLegal(input) && MeetsReqYears(input) && input.maritalStatus.value == Some(Widowed)
                 && MeetsReqIncome(input, lv) && 60.0 <= input.age <= 64.0
    ensures GetEligibility(input, lv).Success? && GetEligibility(input, lv).value.result == Eligible ==>
            GetEligibility(input, lv).value == EligibilityResult(Eligible, NoReason, EligibleText)
  {
  }

  /** From 65 on the answer is always "ineligible: age", whatever else is true. */
  lemma OverAgeAlwaysIneligible(input: ProcessedInput, lv: LegalValues)
    requires input.age >= 65.0
    ensures GetEligibility(input, lv) == Success(EligibilityResult(Ineligible, Age, MustBe60to64))
  {
  }

  /** Meeting every other requirement below 60: at exactly 59 the client is told to apply now. */
  lemma UnderAgeWithAllOtherRequirements(input: ProcessedInput, lv: LegalValues)
    requires MeetsAllButAge(input, lv) && input.age < 60.0
    ensures input.age == 59.0 ==>
            GetEligibility(input, lv) == Success(EligibilityResult(Ineligible, AgeYoung, EligibleWhen60ApplyNow))
    ensures input.age != 59.0 ==>
            GetEligibility(input, lv) == Success(EligibilityResult(Ineligible, AgeYoung, EligibleWhen60))
  {
  }

  /** The marital reason is given exactly to a client under 65 who answered and is not widowed. */
  lemma MaritalReasonIff(input: ProcessedInput, lv: LegalValues)
    ensures (GetEligibility(input, lv).Success? && GetEligibility(input, lv).value.reason == Marital)
            <==> input.age < 65.0 && input.maritalStatus.Provided() && !input.maritalStatus.IsWidowed()
  {
  }

  /** The income reason comes after age and marital status: a client under 65 whose marital answer does not disqualify. */
  lemma IncomeReasonIff(input: ProcessedInput, lv: LegalValues)
    ensures (GetEligibility(input, lv).Success? && GetEligibility(input, lv).value.reason == Income)
            <==> input.age < 65.0 && (MeetsReqMarital(input) || !input.maritalStatus.Provided())
                 && !MeetsReqIncome(input, lv)
  {
  }

  /** Reached the residency rule: fewer than 10 years, everything checked before it passed. */
  predicate ReachesYearsRule(input: ProcessedInput, lv: LegalValues) {
    input.age < 65.0 && (MeetsReqMarital(input) || !input.maritalStatus.Provided())
    && MeetsReqIncome(input, lv) && !MeetsReqYears(input)
  }

  /** Short residency: an agreement country or a past social-security country leaves it to an agent from 60 to 64. */
  lemma ShortResidency(input: ProcessedInput, lv: LegalValues)
    requires ReachesYearsRule(input, lv)
    ensures input.livingCountry.Agreement() || input.everLivedSocialCountry ==>
            (MeetsReqAge(input) ==>
               GetEligibility(input, lv) == Success(EligibilityResult(Unavailable, YearsInCanada, DependingOnAgreement)))
            && (UnderAgeReq(input) ==>
               GetEligibility(input, lv) == Success(EligibilityResult(Ineligible, AgeYoung, DependingOnAgreementWhen60)))
    ensures (input.livingCountry.Agreement() || input.everLivedSocialCountry) && 64.0 < input.age ==>
            GetEligibility(input, lv) == Success(EligibilityResult(Ineligible, Age, MustBe60to64))
    ensures !(input.livingCountry.Agreement() || input.everLivedSocialCountry) ==>
            GetEligibility(input, lv) == Success(EligibilityResult(Ineligible, YearsInCanada, MustMeetYearReq))
  {
  }

  /** The residency reason appears exactly when the residency rule is reached (and, for "unavailable", from 60 to 64). */
  lemma YearsReasonIff(input: ProcessedInput, lv: LegalValues)
    ensures (GetEligibility(input, lv).Success? && GetEligibility(input, lv).value.reason == YearsInCanada)
            <==> ReachesYearsRule(input, lv)
                 && (!(input.livingCountry.Agreement() || input.everLivedSocialCountry) || MeetsReqAge(input))
  {
  }

  /** Reached the legal-status rule: everything checked before it passed, and the status is not citizen-equivalent. */
  predicate ReachesLegalRule(input: ProcessedInput, lv: LegalValues) {
    input.age < 65.0 && (MeetsReqMarital(input) || !input.maritalStatus.Provided())
    && MeetsReqIncome(input, lv) && MeetsReqYears(input) && !MeetsReqLegal(input)
  }

  /** Legal status: too young under 60; otherwise unavailable, with a detail for sponsored clients. */
  lemma NonCanadianLegalStatus(input: ProcessedInput, lv: LegalValues)
    requires ReachesLegalRule(input, lv)
    ensures UnderAgeReq(input) ==>
            GetEligibility(input, lv) == Success(EligibilityResult(Ineligible, AgeYoung, DependingOnLegalWhen60))
    ensures !UnderAgeReq(input) && input.legalStatus.IsSponsored() ==>
            GetEligibility(input, lv) == Success(EligibilityResult(Unavailable, LegalStatusReason, DependingOnLegalSponsored))
    ensures !UnderAgeReq(input) && !input.legalStatus.IsSponsored() ==>
            GetEligibility(input, lv) == Success(EligibilityResult(Unavailable, LegalStatusReason, DependingOnLegal))
  {
  }

  /** "Unavailable" only ever comes from the residency rule (60 to 64) or the legal-status rule (60 and over). */
  lemma UnavailableIff(input: ProcessedInput, lv: LegalValues)
    ensures (GetEligibility(input, lv).Success? && GetEligibility(input, lv).value.result == Unavailable)
            <==> (ReachesYearsRule(input, lv) && (input.livingCountry.Agreement() || input.everLivedSocialCountry)
                  && MeetsReqAge(input))
                 || (ReachesLegalRule(input, lv) && !UnderAgeReq(input))
  {
  }

  /**
   * The tree has one gap: a client under 65 with no marital answer who passes the
   * income, residency and legal rules reaches the `throw`.
   */
  lemma LogicFailedIff(input: ProcessedInput, lv: LegalValues)
    ensures GetEligibility(input, lv).Failure?
            <==> input.age < 65.0 && !input.maritalStatus.Provided() && MeetsReqIncome(input, lv)
                 && MeetsReqYears(input) && MeetsReqLegal(input)
    ensures GetEligibility(input, lv).Failure? ==> GetEligibility(input, lv).error == LogicFailed
  {
  }

  /**
   * The entitlement follows the eligibility: nothing unless eligible; when eligible the
   * household is an AFS one, the formula cannot fail, and the type is FULL.
   */
  lemma EntitlementFollowsEligibility(input: ProcessedInput, lv: LegalValues)
    requires GetEligibility(input, lv).Success?
    ensures GetEntitlement(GetEligibility(input, lv).value, input, lv).Success?
    ensures var ent := GetEntitlement(GetEligibility(input, lv).value, input, lv).value;
            (ent.resultType == NoEntitlement <==> GetEligibility(input, lv).value.result != Eligible)
            && (GetEligibility(input, lv).value.result != Eligible ==> ent.result == 0.0)
    ensures GetEligibility(input, lv).value.result == Eligible ==>
            EntitlementFormula.SituationOf(input.maritalStatus, input.partnerBenefitStatus, input.age)
              == Some(EntitlementFormula.Afs)
            && GetEntitlement(GetEligibility(input, lv).value, input, lv).value
               == EntitlementResult(EntitlementFormula.GetEntitlementAmount(
                    input.income.value, input.maritalStatus, input.partnerBenefitStatus, input.age, lv).value,
                    Full, None)
  {
    if GetEligibility(input, lv).value.result == Eligible {
      EntitlementFormula.SituationClassification(input.maritalStatus, input.partnerBenefitStatus, input.age);
    }
  }

  // ---------------------------------------------------------------------------
  // The benefit object

  /**
   * `new AfsBenefit(input, …)` as written: a base benefit whose rules are this
   * module's `GetEligibility` and `GetEntitlement` for the given input, with empty
   * caches. The constructor passes no benefit key to the base class, so the key is
   * undefined, and so are the card's links and the key `info` reports.
   */
  method NewAfsBenefit(input: ProcessedInput, lv: LegalValues) returns (b: BaseBenefit.Benefit)
    ensures fresh(b) && b.Valid()
    ensures b.benefitKey == None
    ensures b.getEligibility() == GetEligibility(input, lv)
    ensures forall e :: b.getEntitlement(e) == GetEntitlement(e, input, lv)
    ensures b.eligibilityCache == None && b.entitlementCache == None && b.cardDetailCache == None
  {
    b := new BaseBenefit.Benefit(None, () => GetEligibility(input, lv), e => GetEntitlement(e, input, lv));
  }

  /** With no key, no link of the card names the AFS benefit, whatever the eligibility result. */
  lemma UnkeyedLinksNameNoBenefit(result: ResultKey)
    ensures forall l :: l in BaseBenefit.CardLinks(None, result) ==> l.key == None
    ensures result == Eligible ==> BaseBenefit.CardLinks(None, result) == [ApplyLink(None), OverviewLink(None)]
  {
  }

  /** `new AfsBenefit(input, …)` as intended: the same benefit, keyed as the AFS benefit. */
  method NewKeyedAfsBenefit(input: ProcessedInput, lv: LegalValues) returns (b: BaseBenefit.Benefit)
    ensures fresh(b) && b.Valid()
    ensures b.benefitKey == Some(BenefitKey.AfsBenefit)
    ensures b.getEligibility() == GetEligibility(input, lv)
    ensures forall e :: b.getEntitlement(e) == GetEntitlement(e, input, lv)
    ensures b.eligibilityCache == None && b.entitlementCache == None && b.cardDetailCache == None
  {
    b := new BaseBenefit.Benefit(Some(BenefitKey.AfsBenefit), () => GetEligibility(input, lv),
                                 e => GetEntitlement(e, input, lv));
  }

  /**
   * Keyed as the AFS benefit, the card offers the AFS overview and, exactly when the
   * client is eligible, the AFS application; no other result key of this benefit
   * (INCOME_DEPENDENT is never produced) adds the apply link.
   */
  lemma KeyedAfsLinks(input: ProcessedInput, lv: LegalValues)
    requires GetEligibility(input, lv).Success?
    ensures var links := BaseBenefit.CardLinks(Some(BenefitKey.AfsBenefit), GetEligibility(input, lv).value.result);
            && links[|links| - 1] == OverviewLink(Some(BenefitKey.AfsBenefit))
            && (ApplyLink(Some(BenefitKey.AfsBenefit)) in links <==> GetEligibility(input, lv).value.result == Eligible)
            && forall l :: l in links ==> l.key == Some(BenefitKey.AfsBenefit)
  {
  }
}
