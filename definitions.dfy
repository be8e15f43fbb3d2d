/**
 * The shared vocabulary of the engine: the enumerations, the field helpers
 * that classify raw answers, the processed input, the result records, and
 * the rate table the formulas read.
 *
 * The helper classes (`MaritalStatusHelper`, `PartnerBenefitStatusHelper`,
 * `LegalStatusHelper`, `LivingCountryHelper`) and the enumerations are not part
 * of this model; they are given here as datatypes whose boolean predicates
 * classify the value the way the evaluators use them.
 */
module Definitions {
  import opened Wrappers

  /** The marital answers of the form, and `Partnered`, which the future handler compares against. */
  datatype MaritalStatus = Single | Married | CommonLaw | Partnered | Widowed | Divorced | Separated

  /** Classifies the marital answer. A widowed client counts as `single`. */
  datatype MaritalStatusHelper = MaritalStatusHelper(value: Option<MaritalStatus>) {
    predicate Provided() { value.Some? }
    predicate IsSingle() {
      value.Some? && value.value in {MaritalStatus.Single, Widowed, Divorced, Separated}
    }
    predicate IsPartnered() { value.Some? && value.value in {Married, CommonLaw, Partnered} }
    predicate IsWidowed() { value == Some(Widowed) }
  }

  /** The partner-benefit answers: full or partial OAS, with or without GIS; the Allowance; none; "help me". */
  datatype PartnerBenefitStatus =
    FullOas | FullOasGis | PartialOas | PartialOasGis | Allowance | NoBenefits | HelpMe

  datatype PartnerBenefitStatusHelper = PartnerBenefitStatusHelper(value: Option<PartnerBenefitStatus>) {
    /** The partner receives the base pension, with or without the supplement. */
    predicate AnyOas() { value.Some? && value.value in {FullOas, FullOasGis, PartialOas, PartialOasGis} }
    predicate ReceivesAlw() { value == Some(Allowance) }
    predicate ReceivesNone() { value == Some(NoBenefits) }
  }

  /**
   * The legal-status answers, and `Yes`: the value the future-age query gives a
   * partner who did not answer.
   */
  datatype LegalStatus = CanadianCitizen | PermanentResident | Sponsored | IndianStatus | Other | Yes

  datatype LegalStatusHelper = LegalStatusHelper(value: Option<LegalStatus>) {
    /** Citizen or citizen-equivalent status. */
    predicate Canadian() {
      value.Some? && value.value in {CanadianCitizen, PermanentResident, IndianStatus, Yes}
    }
    predicate IsSponsored() { value == Some(Sponsored) }
    predicate IsOther() { value == Some(Other) }
  }

  /**
   * The country of residence: its code ("CAN" for Canada) and whether Canada has
   * a social security agreement with it (the country table is not modelled).
   */
  datatype LivingCountryHelper = LivingCountryHelper(code: string, hasAgreement: bool) {
    predicate Canada() { code == "CAN" }
    predicate Agreement() { !Canada() && hasAgreement }
    predicate NoAgreement() { !Canada() && !hasAgreement }
  }

  /** The validated request the evaluators read; `income` is absent until the client gives it. */
  datatype ProcessedInput = ProcessedInput(
    income: Option<real>,
    age: real,
    maritalStatus: MaritalStatusHelper,
    livingCountry: LivingCountryHelper,
    legalStatus: LegalStatusHelper,
    yearsInCanadaSince18: int,
    everLivedSocialCountry: bool,
    partnerBenefitStatus: PartnerBenefitStatusHelper)

  datatype ResultKey = Eligible | Ineligible | IncomeDependent | Unavailable | MoreInfo | Invalid

  datatype ResultReason =
    | NoReason | Age | AgeYoung | AgeYoung64 | Age65To69 | Age70AndOver | Marital | Income
    | IncomeMissing | LegalStatusReason | LivingCountry | YearsInCanada | OasReason | Partner

  /** The translation keys of the eligibility detail texts (the texts themselves are not modelled). */
  datatype DetailKey =
    | EligibleText | EligibleWhen60ApplyNow | EligibleWhen60 | MustBe60to64 | MustBeWidowed
    | MustMeetIncomeReq | DependingOnAgreement | DependingOnAgreementWhen60 | MustMeetYearReq
    | DependingOnLegalWhen60 | DependingOnLegalSponsored | DependingOnLegal

  datatype EligibilityResult = EligibilityResult(result: ResultKey, reason: ResultReason, detail: DetailKey)

  datatype EntitlementResultType = NoEntitlement | Partial | Full | UnavailableEntitlement

  datatype EntitlementResult = EntitlementResult(
    result: real,
    resultType: EntitlementResultType,
    autoEnrollment: Option<bool>)

  datatype BenefitKey = OasBenefit | GisBenefit | AlwBenefit | AfsBenefit

  /**
   * A link of a benefit card: the application page or the overview page of the
   * benefit under `key`. A benefit built without a key looks its links up under
   * JavaScript's `undefined`; that entry is the link with key `None`.
   */
  datatype Link = ApplyLink(key: Option<BenefitKey>) | OverviewLink(key: Option<BenefitKey>)

  /** What a benefit card shows; `mainText` is JavaScript's `null` when absent. */
  datatype CardDetail = CardDetail(mainText: Option<string>, collapsedText: seq<string>, links: seq<Link>)

  /** The errors the engine throws. */
  datatype EngineError =
    | LogicFailed             // "entitlement logic failed to produce a result"
    | StaticAmountNotDefined  // "static amount not defined"
    | NoSituation             // reading the brackets of an unclassified household

  /** The published rate table (one quarter's legislated constants). */
  datatype LegalValues = LegalValues(
    maxOasEntitlement: real,
    maxGisAmountSingle: real,
    maxGisTopupSingle: real,
    maxGisAmountPartnerOas: real,
    maxGisTopupPartner: real,
    maxGisAmountPartnerNoOasNoAlw: real,
    maxGisAmountPartnerAlw: real,
    maxGisAmountSingleAlw: real,
    maxGisAmountSingleAfs: real,
    afsIncomeLimit: real)
  {
    /** The top-up amounts are never negative. */
    predicate Valid() { maxGisTopupSingle >= 0.0 && maxGisTopupPartner >= 0.0 }
  }
}
