/**
 * The income-tested amount of the Guaranteed Income Supplement (GIS), the
 * Allowance (ALW) and the Allowance for the Survivor (AFS).
 *
 * The household is sorted into one of six situations; two situation-dependent
 * income bounds choose a LOW, HIGH or STATIC calculation; outside STATIC the
 * amount is an income-reduced maximum plus a top-up that shrinks as income rises.
 */
module EntitlementFormula {
  import opened Wrappers
  import opened Rounding
  import opened Definitions

  datatype GisSituation = Single | PartnerOas | PartnerNoOas | PartnerAlw | Alw | Afs

  datatype CalculationMethod = Low | High | Static

  datatype IncomeBrackets = IncomeBrackets(low: int, high: int)

  /** 1 for a client counted as single (widowed included), 2 for a couple. */
  type GisStatus = g: int | g == 1 || g == 2 witness 1

  const GisIncrements: int := 24

  /** The situations whose calculation does not depend on an income bracket. */
  predicate Bracketless(s: GisSituation) {
    s == GisSituation.Single || s == PartnerOas || s == PartnerNoOas
  }

  // The derived constants, computed once from the rate table.

  /** The first bracket step above a quarter of the full pension, on the 48-dollar grid. */
  function Incuta3(lv: LegalValues): (r: int)
    ensures r % 48 == 0
    ensures lv.maxOasEntitlement / 4.0 < (r / 48) as real <= lv.maxOasEntitlement / 4.0 + 1.0
  {
    JsRound(lv.maxOasEntitlement / 4.0 + 0.5) * (GisIncrements * 2)
  }

  /** The first bracket step above a third of the full pension, on the 48-dollar grid. */
  function Incuta5(lv: LegalValues): (r: int)
    ensures r % 48 == 0
    ensures lv.maxOasEntitlement / 3.0 < (r / 48) as real <= lv.maxOasEntitlement / 3.0 + 1.0
  {
    JsRound(lv.maxOasEntitlement / 3.0 + 0.5) * (GisIncrements * 2)
  }

  /**
   * The PARTNER_ALW amount before rounding: the single GIS less its top-up, less the
   * partnered GIS less its top-up, less the step counts between the two bracket starts.
   */
  function CovpamExact(lv: LegalValues): real {
    lv.maxGisAmountSingle - lv.maxGisTopupSingle
    - (lv.maxGisAmountPartnerOas - lv.maxGisTopupPartner)
    - (JsRound(lv.maxOasEntitlement / 3.0 + 0.5) - JsRound(lv.maxOasEntitlement / 4.0 + 0.5)) as real
  }

  /** The fixed PARTNER_ALW amount of the STATIC band, in whole cents. */
  function Covpam(lv: LegalValues): (r: real)
    ensures IsCents(r)
    ensures CovpamExact(lv) - 0.005 < r <= CovpamExact(lv) + 0.005
  {
    RoundToTwoIdempotent(CovpamExact(lv));
    RoundToTwo(CovpamExact(lv))
  }

  /** The lower PARTNER_ALW bound: a whole number of 48-dollar steps above `incuta3`. */
  function Covpin(lv: LegalValues): (r: int)
    ensures r % 48 == 0 && (r - Incuta3(lv)) % 48 == 0
  {
    JsRound(lv.maxGisAmountSingle - lv.maxGisTopupSingle - 2.0 * Covpam(lv) + 0.5) * (GisIncrements * 2)
    + Incuta3(lv)
  }

  /** The upper PARTNER_ALW bound: a whole number of 48-dollar steps above `incuta5`. */
  function Covpin5(lv: LegalValues): (r: int)
    ensures r % 48 == 0 && (r - Incuta5(lv)) % 48 == 0
  {
    Incuta5(lv)
    + JsRound(lv.maxGisAmountPartnerOas - lv.maxGisTopupPartner + 0.5) * (GisIncrements * 2)
  }

  /** The AFS amount before rounding: the survivor's GIS less its top-up, less the full pension. */
  function Covp5Exact(lv: LegalValues): real {
    lv.maxGisAmountSingleAfs - lv.maxGisTopupSingle - lv.maxOasEntitlement
  }

  /** The fixed AFS amount of the STATIC and HIGH bands, in whole cents. */
  function Covp5(lv: LegalValues): (r: real)
    ensures IsCents(r)
    ensures Covp5Exact(lv) - 0.005 < r <= Covp5Exact(lv) + 0.005
  {
    RoundToTwoIdempotent(Covp5Exact(lv));
    RoundToTwo(Covp5Exact(lv))
  }

  /** `gisStatus`, fixed when the formula is built. */
  function GisStatusOf(marital: MaritalStatusHelper): (r: GisStatus)
    ensures r == 1 <==> marital.IsSingle()
  {
    if marital.IsSingle() then 1 else 2
  }

  /** `gisSituation`: `None` where the source's getter falls through without returning. */
  function SituationOf(marital: MaritalStatusHelper, partner: PartnerBenefitStatusHelper, age: real)
    : (r: Option<GisSituation>)
    ensures r.None? <==> marital.IsSingle() && marital.value != Some(MaritalStatus.Single)
                         && marital.value != Some(Widowed)
    ensures r.Some? ==> (r.value in {GisSituation.Single, Afs} <==> marital.IsSingle())
    ensures r.Some? && !marital.IsSingle() ==> (r.value in {PartnerOas, Alw} <==> partner.AnyOas())
  {
    if marital.IsSingle() then
      if marital.value == Some(MaritalStatus.Single) then Some(GisSituation.Single)
      else if marital.value == Some(Widowed) then Some(Afs)
      else None
    else if partner.AnyOas() then
      if age >= 65.0 then Some(PartnerOas) else Some(Alw)
    else if partner.ReceivesAlw() then Some(PartnerAlw)
    else Some(PartnerNoOas)
  }

  /** One evaluation of the formula: the income and household it was built for, and the rate table. */
  datatype Formula = Formula(income: real, situation: GisSituation, gisStatus: GisStatus, lv: LegalValues)
  {
    /** `gisStatus` agrees with the situation (true of every formula `NewFormula` builds). */
    predicate Consistent() {
      gisStatus == (if situation == GisSituation.Single || situation == Afs then 1 else 2)
    }

    function Brackets(): (r: IncomeBrackets)
      ensures Bracketless(situation) ==> r.low == r.high == -1
      ensures !Bracketless(situation) ==> r.low % 48 == 0
      ensures Consistent() && (situation == Alw || situation == Afs) ==> r.high - r.low == 24 * gisStatus
    {
      match situation
      case PartnerAlw => IncomeBrackets(Covpin(lv), Covpin5(lv))
      case Alw | Afs => IncomeBrackets(Incuta5(lv), Incuta5(lv) + GisIncrements * gisStatus)
      case Single | PartnerOas | PartnerNoOas => IncomeBrackets(-1, -1)
    }

    /** LOW below the lower bound, HIGH from the upper bound on, STATIC in between. */
    function Method(): (r: CalculationMethod)
      ensures r == Static <==> Brackets().low as real <= income < Brackets().high as real
      ensures r == Low <==> income < Brackets().low as real
    {
      if income < Brackets().low as real then Low
      else if income >= Brackets().high as real then High
      else Static
    }

    /** The predefined amount of the STATIC band; the bracketless situations have none. */
    function StaticResult(): (r: Result<real, EngineError>)
      ensures r.Success? <==> !Bracketless(situation)
      ensures r.Failure? ==> r.error == StaticAmountNotDefined
    {
      match situation
      case PartnerAlw => Success(Covpam(lv))
      case Alw => Success(ActualMaxAmount())
      case Afs => Success(Covp5(lv))
      case Single | PartnerOas | PartnerNoOas => Failure(StaticAmountNotDefined)
    }

    /** Three times the differential for ALW and AFS in the LOW band, once otherwise. */
    function DifferentialMultiplier(): (r: int)
      ensures r == 1 || r == 3
      ensures r == 3 <==> (situation == Alw || situation == Afs) && Method() == Low
    {
      if (situation == Alw || situation == Afs) && Method() == Low then 3 else 1
    }

    /** The amount before the top-up. It is not clamped at zero. */
    function ActualAmount(): real {
      RoundToTwo(ActualMaxAmount() - (IncomeDifferential() * DifferentialMultiplier()) as real)
    }

    function ActualTopup(): real {
      if income < (2000 * gisStatus) as real then BasicTopupAmount()
      else
        Max(0.0, BasicTopupAmount()
                 - ((income - (2000 * gisStatus) as real) / (GisIncrements * gisStatus * 2) as real).Floor as real)
    }

    function ActualMaxAmount(): real {
      if situation == PartnerAlw && Method() == High then
        RoundToTwo(lv.maxGisAmountSingle - lv.maxGisTopupSingle)
      else if situation == Alw && Method() == Low then
        RoundToTwo(lv.maxGisAmountPartnerAlw - lv.maxGisTopupPartner + lv.maxOasEntitlement)
      else if situation == Afs && Method() == High then
        RoundToTwo(Covp5(lv))
      else
        RoundToTwo(BasicMaxAmount() - BasicTopupAmount())
    }

    function BasicMaxAmount(): real {
      match situation
      case Single => lv.maxGisAmountSingle
      case PartnerOas => lv.maxGisAmountPartnerOas
      case PartnerNoOas => lv.maxGisAmountPartnerNoOasNoAlw
      case PartnerAlw => lv.maxGisAmountPartnerAlw
      case Alw => lv.maxGisAmountSingleAlw
      case Afs => lv.maxGisAmountSingleAfs
    }

    function BasicTopupAmount(): (r: real)
      ensures lv.Valid() ==> r >= 0.0
      ensures gisStatus == 1 && Consistent() ==> r == lv.maxGisTopupSingle
    {
      match situation
      case Single | Afs | PartnerNoOas => lv.maxGisTopupSingle
      case PartnerOas | PartnerAlw | Alw => lv.maxGisTopupPartner
    }

    /** How many increments of income are taken off the maximum; never negative. */
    function IncomeDifferential(): (r: int)
      ensures r >= 0
    {
      var d := ((income - SubFromIncome() as real) / (GisIncrements * IncomeIncrementMultiplier()) as real).Floor;
      if d < 0 then 0 else d
    }

    function SubFromIncome(): int {
      match situation
      case Single | PartnerOas => 0
      case PartnerNoOas => Incuta3(lv)
      case PartnerAlw =>
        if Method() == Low then Incuta5(lv) else if Method() == High then Incuta3(lv) else 0
      case Alw | Afs => if Method() == High then Incuta5(lv) else 0
    }

    function IncomeIncrementMultiplier(): (r: int)
      ensures r == 1 || r == 2
    {
      match situation
      case Single => 1
      case PartnerOas | PartnerNoOas | PartnerAlw | Alw => 2
      case Afs => if Method() == High then 1 else 2
    }

    /** `getEntitlementAmount`: it never throws once the situation is known. */
    function EntitlementAmount(): (r: Result<real, EngineError>)
      ensures r.Success?
    {
      if Method() == Static then StaticResult()
      else Success(RoundToTwo(ActualAmount() + ActualTopup()))
    }
  }

  /** Builds the formula; the household must fall into one of the six situations. */
  function NewFormula(income: real, marital: MaritalStatusHelper, partner: PartnerBenefitStatusHelper,
                      age: real, lv: LegalValues): (r: Result<Formula, EngineError>)
    ensures r.Success? <==> SituationOf(marital, partner, age).Some?
    ensures r.Success? ==> r.value.situation == SituationOf(marital, partner, age).value
    ensures r.Success? ==> r.value.Consistent() && r.value.income == income && r.value.lv == lv
    ensures r.Failure? ==> r.error == NoSituation
  {
    match SituationOf(marital, partner, age)
    case None => Failure(NoSituation)
    case Some(s) => Success(Formula(income, s, GisStatusOf(marital), lv))
  }

  /** `new EntitlementFormula(income, marital, partner, age).getEntitlementAmount()`. */
  function GetEntitlementAmount(income: real, marital: MaritalStatusHelper, partner: PartnerBenefitStatusHelper,
                                age: real, lv: LegalValues): (r: Result<real, EngineError>)
    ensures r.Failure? <==> SituationOf(marital, partner, age).None?
  {
    var f :- NewFormula(income, marital, partner, age, lv);
    f.EntitlementAmount()
  }

  /**
   * `getEntitlementAmount` when the income is `undefined`: both bracket comparisons
   * are false, so the calculation is STATIC whatever the situation.
   */
  function GetEntitlementAmountWithoutIncome(marital: MaritalStatusHelper, partner: PartnerBenefitStatusHelper,
                                             age: real, lv: LegalValues): (r: Result<real, EngineError>)
    ensures r.Success? <==> SituationOf(marital, partner, age).Some?
                            && !Bracketless(SituationOf(marital, partner, age).value)
    ensures r.Success? ==> forall income: real ::
              var f := Formula(income, SituationOf(marital, partner, age).value, GisStatusOf(marital), lv);
              f.Method() == Static ==> f.EntitlementAmount() == r
  {
    match SituationOf(marital, partner, age)
    case None => Failure(NoSituation)
    case Some(PartnerAlw) => Success(Covpam(lv))
    case Some(Alw) => Success(RoundToTwo(lv.maxGisAmountSingleAlw - lv.maxGisTopupPartner))
    case Some(Afs) => Success(Covp5(lv))
    case Some(_) => Failure(StaticAmountNotDefined)
  }

  // ---------------------------------------------------------------------------
  // Properties of the formula

  /** The six-way classification, case by case, and its agreement with `gisStatus`. */
  lemma SituationClassification(marital: MaritalStatusHelper, partner: PartnerBenefitStatusHelper, age: real)
    ensures SituationOf(marital, partner, age) == Some(GisSituation.Single) <==> marital.value == Some(MaritalStatus.Single)
    ensures SituationOf(marital, partner, age) == Some(Afs) <==> marital.value == Some(Widowed)
    ensures SituationOf(marital, partner, age) == Some(PartnerOas)
            <==> !marital.IsSingle() && partner.AnyOas() && age >= 65.0
    ensures SituationOf(marital, partner, age) == Some(GisSituation.Alw)
            <==> !marital.IsSingle() && partner.AnyOas() && age < 65.0
    ensures SituationOf(marital, partner, age) == Some(PartnerAlw) <==> !marital.IsSingle() && partner.ReceivesAlw()
    ensures SituationOf(marital, partner, age) == Some(PartnerNoOas)
            <==> !marital.IsSingle() && !partner.AnyOas() && !partner.ReceivesAlw()
    ensures SituationOf(marital, partner, age).None?
            <==> marital.IsSingle() && marital.value != Some(MaritalStatus.Single) && marital.value != Some(Widowed)
    ensures SituationOf(marital, partner, age).Some? ==>
            (GisStatusOf(marital) == 1 <==> SituationOf(marital, partner, age).value in {GisSituation.Single, Afs})
  {
  }

  /** SINGLE, PARTNER_OAS and PARTNER_NO_OAS never reach the STATIC band, whose amount they lack. */
  lemma BracketlessNeverStatic(f: Formula)
    requires Bracketless(f.situation)
    ensures f.Method() != Static
    ensures f.income >= 0.0 ==> f.Method() == High
    ensures f.StaticResult() == Failure(StaticAmountNotDefined)
  {
  }

  /** For ALW and AFS the STATIC band is 48 (ALW) or 24 (AFS) dollars wide, starting at `incuta5`, and pays a fixed amount. */
  lemma AllowanceStaticBand(f: Formula)
    requires f.Consistent() && (f.situation == GisSituation.Alw || f.situation == Afs)
    ensures f.Method() == Static
            <==> Incuta5(f.lv) as real <= f.income < (Incuta5(f.lv) + (if f.situation == Afs then 24 else 48)) as real
    ensures f.Method() == Static && f.situation == GisSituation.Alw ==>
            f.EntitlementAmount() == Success(RoundToTwo(f.lv.maxGisAmountSingleAlw - f.lv.maxGisTopupPartner))
    ensures f.Method() == Static && f.situation == Afs ==> f.EntitlementAmount() == Success(Covp5(f.lv))
  {
  }

  /** For PARTNER_ALW the STATIC band is [covpin, covpin5) and pays `covpam`. */
  lemma PartnerAlwStaticBand(f: Formula)
    requires f.situation == PartnerAlw
    ensures f.Method() == Static <==> Covpin(f.lv) as real <= f.income < Covpin5(f.lv) as real
    ensures f.Method() == Static ==> f.EntitlementAmount() == Success(Covpam(f.lv))
  {
  }

  /** The top-up is full below 2000 dollars per person and otherwise lies between zero and full. */
  lemma TopupBounds(f: Formula)
    requires f.lv.Valid()
    ensures 0.0 <= f.ActualTopup() <= f.BasicTopupAmount()
    ensures f.income < (2000 * f.gisStatus) as real ==> f.ActualTopup() == f.BasicTopupAmount()
  {
  }

  /** A higher income never gives a larger top-up. */
  lemma TopupNonIncreasing(f: Formula, income2: real)
    requires f.lv.Valid() && f.income <= income2
    ensures f.(income := income2).ActualTopup() <= f.ActualTopup()
  {
    var g := f.(income := income2);
    var t := (2000 * f.gisStatus) as real;
    var d := (GisIncrements * f.gisStatus * 2) as real;
    if t <= f.income {
      FloorMonotone((f.income - t) / d, (income2 - t) / d);
    } else if t <= income2 {
      assert 0.0 <= (income2 - t) / d;
      FloorMonotone(0.0, (income2 - t) / d);
    }
  }

  /** A higher income in the same calculation mode never gives a larger income differential. */
  lemma DifferentialNonDecreasing(f: Formula, income2: real)
    requires f.income <= income2 && f.Method() == f.(income := income2).Method()
    ensures f.IncomeDifferential() <= f.(income := income2).IncomeDifferential()
  {
    var g := f.(income := income2);
    assert g.SubFromIncome() == f.SubFromIncome();
    assert g.IncomeIncrementMultiplier() == f.IncomeIncrementMultiplier();
    var d := (GisIncrements * f.IncomeIncrementMultiplier()) as real;
    var s := f.SubFromIncome() as real;
    assert (f.income - s) / d <= (income2 - s) / d;
    FloorMonotone((f.income - s) / d, (income2 - s) / d);
  }

  /**
   * Within one calculation mode (LOW or HIGH) a higher income never gives a larger
   * entitlement. The amount may still jump where the mode changes.
   */
  lemma {:induction false} NonIncreasingWithinMode(f: Formula, income2: real)
    requires f.lv.Valid() && f.income <= income2
    requires f.Method() == f.(income := income2).Method() != Static
    ensures f.(income := income2).EntitlementAmount().value <= f.EntitlementAmount().value
  {
    var g := f.(income := income2);
    DifferentialNonDecreasing(f, income2);
    assert g.ActualMaxAmount() == f.ActualMaxAmount();
    assert g.DifferentialMultiplier() == f.DifferentialMultiplier();
    RoundToTwoMonotone(g.ActualMaxAmount() - (g.IncomeDifferential() * g.DifferentialMultiplier()) as real,
                       f.ActualMaxAmount() - (f.IncomeDifferential() * f.DifferentialMultiplier()) as real);
    TopupNonIncreasing(f, income2);
    RoundToTwoMonotone(g.ActualAmount() + g.ActualTopup(), f.ActualAmount() + f.ActualTopup());
  }

  /** In the three bracketless situations the entitlement never rises with income. */
  lemma BracketlessNonIncreasing(f: Formula, income2: real)
    requires f.lv.Valid() && Bracketless(f.situation) && 0.0 <= f.income <= income2
    ensures f.(income := income2).EntitlementAmount().value <= f.EntitlementAmount().value
  {
    BracketlessNeverStatic(f);
    BracketlessNeverStatic(f.(income := income2));
    NonIncreasingWithinMode(f, income2);
  }

  /**
   * Outside the STATIC band the reduction only ever lowers the maximum, and the
   * entitlement never exceeds the maximum plus the full top-up.
   */
  lemma AmountAtMostMaximum(f: Formula)
    requires f.lv.Valid() && f.Method() != Static
    ensures f.ActualAmount() <= f.ActualMaxAmount()
    ensures f.EntitlementAmount().value <= RoundToTwo(f.ActualMaxAmount() + f.BasicTopupAmount())
  {
    var lv := f.lv;
    var m := f.ActualMaxAmount();
    if f.situation == PartnerAlw && f.Method() == High {
      RoundToTwoIdempotent(lv.maxGisAmountSingle - lv.maxGisTopupSingle);
    } else if f.situation == GisSituation.Alw && f.Method() == Low {
      RoundToTwoIdempotent(lv.maxGisAmountPartnerAlw - lv.maxGisTopupPartner + lv.maxOasEntitlement);
    } else if f.situation == Afs && f.Method() == High {
      RoundToTwoIdempotent(Covp5(lv));
    } else {
      RoundToTwoIdempotent(f.BasicMaxAmount() - f.BasicTopupAmount());
    }
    assert RoundToTwo(m) == m;
    RoundToTwoMonotone(m - (f.IncomeDifferential() * f.DifferentialMultiplier()) as real, m);
    TopupBounds(f);
    RoundToTwoMonotone(f.ActualAmount() + f.ActualTopup(), m + f.BasicTopupAmount());
  }
}

