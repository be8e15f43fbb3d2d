/**
 * The common part of every benefit: eligibility, entitlement and card detail are
 * computed on first access and cached in private fields; the card text rewrites
 * the cached eligibility of an eligible client who is owed nothing.
 *
 * The benefit-specific `getEligibility` and `getEntitlement` are given to the
 * constructor as functions. `getEntitlement` receives the benefit's (cached)
 * eligibility, the one thing of the object it reads.
 */
module BaseBenefit {
  import opened Wrappers
  import opened Definitions

  /** What the `info` getter returns. */
  datatype BenefitInfo = BenefitInfo(
    benefitKey: Option<BenefitKey>,
    eligibility: EligibilityResult,
    entitlement: EntitlementResult,
    cardDetail: CardDetail)

  /** The cached eligibility after the card text marked an eligible client as owed nothing. */
  function IncomeRewrite(e: EligibilityResult): (r: EligibilityResult)
    ensures r.result == e.result && r.reason == Income && r.detail == MustMeetIncomeReq
  {
    e.(reason := Income, detail := MustMeetIncomeReq)
  }

  /**
   * The card's links for an eligibility result: the apply link only when eligible or
   * income-dependent, and always the overview link last.
   */
  function CardLinks(key: Option<BenefitKey>, result: ResultKey): (r: seq<Link>)
    ensures 1 <= |r| <= 2 && r[|r| - 1] == OverviewLink(key)
    ensures r[0] == ApplyLink(key) <==> result == Eligible || result == IncomeDependent
    ensures |r| == 2 <==> r[0] == ApplyLink(key)
    ensures forall i :: 0 <= i < |r| ==> r[i].key == key
  {
    (if result == Eligible || result == IncomeDependent then [ApplyLink(key)] else []) + [OverviewLink(key)]
  }

  class Benefit {
    /** The key the subclass passes to the base constructor; `None` when it passes none. */
    const benefitKey: Option<BenefitKey>
    const getEligibility: () -> Result<EligibilityResult, EngineError>
    const getEntitlement: EligibilityResult -> Result<EntitlementResult, EngineError>

    var eligibilityCache: Option<EligibilityResult>
    var entitlementCache: Option<EntitlementResult>
    var cardDetailCache: Option<CardDetail>

    /** How many times `getEligibility` and `getEntitlement` have run. */
    ghost var eligibilityCalls: nat
    ghost var entitlementCalls: nat

    /**
     * The caches hold what the benefit computed, up to the card-text rewrite, and a
     * computation that succeeded has run exactly once.
     */
    ghost predicate Valid()
      reads this
    {
      && (eligibilityCache.Some? ==>
            && getEligibility().Success?
            && eligibilityCalls == 1
            && (eligibilityCache.value == getEligibility().value
                || eligibilityCache.value == IncomeRewrite(getEligibility().value)))
      && (getEligibility().Success? ==> eligibilityCalls <= 1 && (eligibilityCache.Some? <==> eligibilityCalls == 1))
      && (entitlementCache.Some? ==>
            && eligibilityCache.Some?
            && entitlementCalls == 1
            && getEntitlement(getEligibility().value).Success?
            && entitlementCache.value.(autoEnrollment := None)
               == getEntitlement(getEligibility().value).value.(autoEnrollment := None))
      && (entitlementCache.None? ==>
            && (eligibilityCache.Some? ==> eligibilityCache.value == getEligibility().value)
            && (entitlementCalls == 0
                || (getEligibility().Success? && getEntitlement(getEligibility().value).Failure?)))
      && (eligibilityCache.Some? && eligibilityCache.value != getEligibility().value ==>
            && eligibilityCache.value.result == Eligible
            && entitlementCache.Some?
            && entitlementCache.value.resultType == NoEntitlement
            && entitlementCache.value.autoEnrollment == Some(true))
    }

    /** Once filled, the eligibility and entitlement caches stay filled. */
    twostate predicate CachesKept()
      reads this
    {
      && (old(eligibilityCache).Some? ==> eligibilityCache.Some?)
      && (old(entitlementCache).Some? ==> entitlementCache.Some?)
    }

    constructor (key: Option<BenefitKey>,
                 eligibilityRule: () -> Result<EligibilityResult, EngineError>,
                 entitlementRule: EligibilityResult -> Result<EntitlementResult, EngineError>)
      ensures Valid()
      ensures benefitKey == key && getEligibility == eligibilityRule && getEntitlement == entitlementRule
      ensures eligibilityCache == None && entitlementCache == None && cardDetailCache == None
      ensures eligibilityCalls == 0 && entitlementCalls == 0
    {
      benefitKey := key;
      getEligibility := eligibilityRule;
      getEntitlement := entitlementRule;
      eligibilityCache, entitlementCache, cardDetailCache := None, None, None;
      eligibilityCalls, entitlementCalls := 0, 0;
    }

    /** The `eligibility` getter. */
    method Eligibility() returns (r: Result<EligibilityResult, EngineError>)
      requires Valid()
      modifies this`eligibilityCache, this`eligibilityCalls
      ensures Valid()
      ensures old(eligibilityCache).Some? ==>
                r == Success(old(eligibilityCache).value) && unchanged(this)
      ensures old(eligibilityCache).None? ==>
                r == getEligibility() && eligibilityCalls == old(eligibilityCalls) + 1
      ensures eligibilityCache == (if r.Success? then Some(r.value) else None)
      ensures r.Success? ==> r.value.result == getEligibility().value.result
      ensures CachesKept()
    {
      if eligibilityCache.None? {
        eligibilityCalls := eligibilityCalls + 1;
        r := getEligibility();
        if r.Success? {
          eligibilityCache := Some(r.value);
        }
      } else {
        r := Success(eligibilityCache.value);
      }
    }

    /** The `entitlement` getter; `getEntitlement` reads the eligibility through its getter. */
    method Entitlement() returns (r: Result<EntitlementResult, EngineError>)
      requires Valid()
      modifies this`eligibilityCache, this`eligibilityCalls, this`entitlementCache, this`entitlementCalls
      ensures Valid()
      ensures old(entitlementCache).Some? ==>
                r == Success(old(entitlementCache).value) && unchanged(this)
      ensures old(entitlementCache).None? ==>
                && (r.Failure? <==> getEligibility().Failure? || getEntitlement(getEligibility().value).Failure?)
                && (r.Success? ==> r == getEntitlement(getEligibility().value))
                && entitlementCalls == old(entitlementCalls) + (if getEligibility().Success? then 1 else 0)
      ensures r.Success? ==> entitlementCache == Some(r.value)
      ensures r.Failure? ==> entitlementCache == None
      ensures CachesKept()
    {
      if entitlementCache.Some? {
        r := Success(entitlementCache.value);
        return;
      }
      var e :- Eligibility();
      entitlementCalls := entitlementCalls + 1;
      r := getEntitlement(e);
      if r.Success? {
        entitlementCache := Some(r.value);
      }
    }

    /** The `cardDetail` getter. */
    method Card() returns (r: Result<CardDetail, EngineError>)
      requires Valid()
      modifies this
      ensures Valid()
      ensures old(cardDetailCache).Some? ==> r == Success(old(cardDetailCache).value) && unchanged(this)
      ensures old(cardDetailCache).None? ==>
                && (r.Success? <==>
                      getEligibility().Success?
                      && (getEligibility().value.result == Eligible ==> getEntitlement(getEligibility().value).Success?))
                && (r.Success? ==> r.value == CardDetail(None, [], CardLinks(benefitKey, getEligibility().value.result)))
      ensures r.Success? ==> cardDetailCache == Some(r.value)
      ensures r.Failure? ==> cardDetailCache == old(cardDetailCache)
      ensures CachesKept()
    {
      if cardDetailCache.Some? {
        r := Success(cardDetailCache.value);
        return;
      }
      var detail :- GetCardDetail();
      cardDetailCache := Some(detail);
      r := Success(detail);
    }

    /** The `cardDetail` setter: replaces the cached card and nothing else. */
    method SetCard(value: CardDetail)
      requires Valid()
      modifies this`cardDetailCache
      ensures Valid() && cardDetailCache == Some(value)
    {
      cardDetailCache := Some(value);
    }

    method GetCardDetail() returns (r: Result<CardDetail, EngineError>)
      requires Valid()
      modifies this`eligibilityCache, this`eligibilityCalls, this`entitlementCache, this`entitlementCalls
      ensures Valid()
      ensures r.Success? <==>
                getEligibility().Success?
                && (getEligibility().value.result == Eligible ==> getEntitlement(getEligibility().value).Success?)
      ensures r.Success? ==> r.value == CardDetail(None, [], CardLinks(benefitKey, getEligibility().value.result))
      ensures cardDetailCache == old(cardDetailCache)
      ensures CachesKept()
    {
      var text :- GetCardText();
      var links := GetCardLinks();
      assert links.Success?;
      r := Success(CardDetail(text, [], links.value));
    }

    /** Auto-enrollment is assumed exactly when the client is eligible. */
    method GetAutoEnrollment() returns (r: Result<bool, EngineError>)
      requires Valid()
      modifies this`eligibilityCache, this`eligibilityCalls
      ensures Valid()
      ensures r.Success? <==> getEligibility().Success?
      ensures r.Success? ==> (r.value <==> getEligibility().value.result == Eligible)
      ensures r.Success? ==> eligibilityCache.Some? && (r.value <==> eligibilityCache.value.result == Eligible)
      ensures old(eligibilityCache).Some? ==> unchanged(this)
    {
      var e :- Eligibility();
      r := Success(e.result == Eligible);
    }

    /**
     * The card text is always `null`. Its side effect: an eligible client whose
     * entitlement type is NONE gets the INCOME reason and detail, and the
     * entitlement's auto-enrollment flag is set; the result key stays ELIGIBLE.
     */
    method GetCardText() returns (r: Result<Option<string>, EngineError>)
      requires Valid()
      modifies this`eligibilityCache, this`eligibilityCalls, this`entitlementCache, this`entitlementCalls
      ensures Valid()
      ensures r.Success? ==> r.value == None
      ensures cardDetailCache == old(cardDetailCache)
      ensures CachesKept()
      ensures r.Success? <==>
                getEligibility().Success?
                && (getEligibility().value.result == Eligible ==> getEntitlement(getEligibility().value).Success?)
      ensures r.Success? ==> eligibilityCache.Some? && eligibilityCache.value.result == getEligibility().value.result
      ensures r.Success? && getEligibility().value.result == Eligible ==>
                && entitlementCache.Some?
                && (entitlementCache.value.resultType == NoEntitlement ==>
                      && eligibilityCache.value == IncomeRewrite(old(if eligibilityCache.Some? then eligibilityCache.value
                                                                     else getEligibility().value))
                      && entitlementCache.value.autoEnrollment == Some(true))
                && (entitlementCache.value.resultType != NoEntitlement ==>
                      eligibilityCache == old(if eligibilityCache.Some? then eligibilityCache else Some(getEligibility().value))
                      && entitlementCache == old(if entitlementCache.Some? then entitlementCache
                                                 else Some(getEntitlement(getEligibility().value).value)))
      ensures r.Success? && getEligibility().value.result != Eligible ==>
                eligibilityCache == Some(getEligibility().value)
                && entitlementCache == old(entitlementCache) && entitlementCalls == old(entitlementCalls)
    {
      var e :- Eligibility();
      if e.result == Eligible {
        var ent :- Entitlement();
        if ent.resultType == NoEntitlement {
          // The rewrite keeps the result key, so the auto-enrollment read after it sees ELIGIBLE.
          var auto := GetAutoEnrollment();
          assert auto == Success(true);
          eligibilityCache := Some(IncomeRewrite(e));
          entitlementCache := Some(ent.(autoEnrollment := Some(auto.value)));
        }
      }
      r := Success(None);
    }

    /** The apply link (only when eligible or income-dependent), then the overview link. */
    method GetCardLinks() returns (r: Result<seq<Link>, EngineError>)
      requires Valid()
      modifies this`eligibilityCache, this`eligibilityCalls
      ensures Valid()
      ensures r.Success? <==> getEligibility().Success?
      ensures r.Success? ==> r.value == CardLinks(benefitKey, getEligibility().value.result)
      ensures old(eligibilityCache).Some? ==> unchanged(this)
    {
      var e :- Eligibility();
      var links: seq<Link> := [];
      if e.result == Eligible || e.result == IncomeDependent {
        links := links + [ApplyLink(benefitKey)];
      }
      links := links + [OverviewLink(benefitKey)];
      r := Success(links);
    }

    /** The `info` getter: the key and the very values the three getters cache. */
    method Info() returns (r: Result<BenefitInfo, EngineError>)
      requires Valid()
      modifies this
      ensures Valid()
      ensures r.Success? <==> getEligibility().Success? && getEntitlement(getEligibility().value).Success?
      ensures r.Success? ==>
                && eligibilityCache.Some? && entitlementCache.Some? && cardDetailCache.Some?
                && r.value == BenefitInfo(benefitKey, eligibilityCache.value, entitlementCache.value,
                                          cardDetailCache.value)
    {
      var _ :- Eligibility();
      var _ :- Entitlement();
      // Both rules succeeded, so the card cannot fail.
      var card := Card();
      assert card.Success?;
      r := Success(BenefitInfo(benefitKey, eligibilityCache.value, entitlementCache.value, cardDetailCache.value));
    }
  }
}
