/**
 * The helpers of the future-benefits estimator: the deferral increase, the filter
 * of eligible benefits, the ages at which a couple next crosses an OAS or
 * Allowance threshold, the query rewritten for a future age, the age at which
 * OAS or the Allowance is first reached, the OAS deferral of a current input,
 * and the calendar year and month at a given age.
 *
 * JavaScript numbers are reals here; a value that may be `undefined` or `NaN`
 * is an `Option`, `None` standing for the missing number.
 */
module Utils {
  import opened Wrappers
  import opened Rounding
  import opened Definitions

  // ---------------------------------------------------------------------------
  // getDeferralIncrease

  /** The increase of the monthly OAS payment per month of deferral. */
  const DeferralIncreaseByMonth: real := 0.006

  /** The extra monthly entitlement earned by deferring OAS `months` months, within half a cent. */
  function GetDeferralIncrease(months: real, baseAmount: real): (r: real)
    ensures months * DeferralIncreaseByMonth * baseAmount - 0.005 < r <= months * DeferralIncreaseByMonth * baseAmount + 0.005
  {
    RoundToTwo(months * DeferralIncreaseByMonth * baseAmount)
  }

  /** No deferral, no increase. */
  lemma NoDeferralNoIncrease(baseAmount: real)
    ensures GetDeferralIncrease(0.0, baseAmount) == 0.0
  {
    RoundToTwoZero();
  }

  /** Deferring longer never earns less. */
  lemma DeferralIncreaseMonotone(shorter: real, longer: real, baseAmount: real)
    requires 0.0 <= shorter <= longer && 0.0 <= baseAmount
    ensures 0.0 <= GetDeferralIncrease(shorter, baseAmount) <= GetDeferralIncrease(longer, baseAmount)
  {
    var rate := DeferralIncreaseByMonth * baseAmount;
    assert 0.0 <= rate;
    var low, high := shorter * DeferralIncreaseByMonth * baseAmount, longer * DeferralIncreaseByMonth * baseAmount;
    assert low == shorter * rate && high == longer * rate;
    assert 0.0 <= low <= high by {
      assert 0.0 <= shorter * rate;
      assert high - low == (longer - shorter) * rate;
      assert 0.0 <= (longer - shorter) * rate;
    }
    RoundToTwoZero();
    RoundToTwoMonotone(0.0, low);
    RoundToTwoMonotone(low, high);
  }

  // ---------------------------------------------------------------------------
  // getEligibleBenefits

  /** The benefits whose eligibility result is ELIGIBLE; `resultOf` reads `eligibility?.result`. */
  function EligibleOnly<K, V>(benefits: map<K, V>, resultOf: V -> Option<ResultKey>): (r: map<K, V>)
    ensures r.Keys <= benefits.Keys
    ensures forall k :: k in r ==> r[k] == benefits[k] && resultOf(r[k]) == Some(Eligible)
    ensures forall k :: k in benefits && resultOf(benefits[k]) == Some(Eligible) ==> k in r
  {
    map k | k in benefits && resultOf(benefits[k]) == Some(Eligible) :: benefits[k]
  }

  /** The eligible benefits, or `None` (JavaScript `null`) when there is none. */
  method GetEligibleBenefits<K, V>(benefits: map<K, V>, resultOf: V -> Option<ResultKey>)
    returns (r: Option<map<K, V>>)
    ensures r.None? <==> EligibleOnly(benefits, resultOf) == map[]
    ensures r.Some? ==> r.value == EligibleOnly(benefits, resultOf)
  {
    var newObj: map<K, V> := map[];
    var pending := benefits.Keys;
    while pending != {}
      invariant pending <= benefits.Keys
      invariant newObj == map k | k in benefits && k !in pending && resultOf(benefits[k]) == Some(Eligible) :: benefits[k]
      decreases |pending|
    {
      var key :| key in pending;
      if resultOf(benefits[key]) == Some(Eligible) {
        newObj := newObj[key := benefits[key]];
      }
      pending := pending - {key};
    }
    assert newObj == EligibleOnly(benefits, resultOf);
    if newObj.Keys == {} {
      assert newObj == map[];
      r := None;
    } else {
      r := Some(newObj);
    }
  }

  // ---------------------------------------------------------------------------
  // getAgeArray

  /** Years until both OAS minimums (age 65, 10 years of residence) are met; `None` once they are. */
  function YearsUntilOas(age: real, residency: real): Option<real> {
    if age >= 65.0 && residency >= 10.0 then None
    else
      var ageDiff := Max(0.0, 65.0 - age);
      var residencyDiff := Max(0.0, 10.0 - residency);
      Some(Max(ageDiff, residencyDiff))
  }

  /**
   * Years until the Allowance window (age 60 to 64 with 10 years of residence) is
   * entered; `None` when already in it, past it, or when it would be missed.
   */
  function YearsUntilAlw(age: real, residency: real): Option<real> {
    if (age >= 60.0 && age <= 64.0 && residency >= 10.0) || age > 64.0 then None
    else
      var ageDiff := Max(0.0, 60.0 - age);
      var residencyDiff := Max(0.0, 10.0 - residency);
      if age + residencyDiff > 64.0 then None
      else Some(Max(ageDiff, residencyDiff))
  }

  /** The OAS gap is absent exactly when both minimums are met; otherwise it is the least positive step that meets both. */
  lemma YearsUntilOasMeaning(age: real, residency: real)
    ensures YearsUntilOas(age, residency).None? <==> 65.0 <= age && 10.0 <= residency
    ensures YearsUntilOas(age, residency).Some? ==>
              var years := YearsUntilOas(age, residency).value;
              && 0.0 < years
              && 65.0 <= age + years && 10.0 <= residency + years
              && (age + years == 65.0 || residency + years == 10.0)
  {
  }

  /**
   * The Allowance gap is absent exactly in, past, or out of reach of the window;
   * otherwise it is the least positive step into the window.
   */
  lemma YearsUntilAlwMeaning(age: real, residency: real)
    ensures YearsUntilAlw(age, residency).None? <==>
              || (60.0 <= age <= 64.0 && 10.0 <= residency)
              || 64.0 < age
              || 64.0 < age + Max(0.0, 10.0 - residency)
    ensures YearsUntilAlw(age, residency).Some? ==>
              var years := YearsUntilAlw(age, residency).value;
              && 0.0 < years
              && 60.0 <= age + years <= 64.0 && 10.0 <= residency + years
              && (age + years == 60.0 || residency + years == 10.0)
  {
  }

  /** Once OAS is reached it stays reached, and a step at least as long as the gap reaches it. */
  lemma OasStep(age: real, residency: real, years: real, age': real, residency': real)
    requires 0.0 <= years && age' == age + years && residency' == residency + years
    ensures YearsUntilOas(age, residency).None? ==> YearsUntilOas(age', residency').None?
    ensures YearsUntilOas(age, residency).Some? && YearsUntilOas(age, residency).value <= years ==>
              YearsUntilOas(age', residency').None?
  {
  }

  /** Once the Allowance is reached or missed it stays so, and a step at least as long as the gap ends it. */
  lemma AlwStep(age: real, residency: real, years: real, age': real, residency': real)
    requires 0.0 <= years && age' == age + years && residency' == residency + years
    ensures YearsUntilAlw(age, residency).None? ==> YearsUntilAlw(age', residency').None?
    ensures YearsUntilAlw(age, residency).Some? && YearsUntilAlw(age, residency).value <= years ==>
              YearsUntilAlw(age', residency').None?
  {
  }

  /** `Math.min` of the entries that are not `null`; `None` when every entry is `null`. */
  function MinPresent(xs: seq<Option<real>>): (r: Option<real>)
    ensures r.None? <==> forall i :: 0 <= i < |xs| ==> xs[i].None?
    ensures r.Some? ==> Some(r.value) in xs
    ensures r.Some? ==> forall i :: 0 <= i < |xs| && xs[i].Some? ==> r.value <= xs[i].value
  {
    if xs == [] then None
    else
      var rest := MinPresent(xs[1..]);
      assert forall i :: 1 <= i < |xs| ==> xs[i] == xs[1..][i - 1];
      if xs[0].None? then rest
      else if rest.None? then xs[0]
      else Some(Min(xs[0].value, rest.value))
  }

  /** The four step counts the loop of `getAgeArray` compares: client ALW, client OAS, partner ALW, partner OAS. */
  function Gaps(userAge: real, partnerAge: real, userRes: real, partnerRes: real): (r: seq<Option<real>>)
    ensures |r| == 4
  {
    [YearsUntilAlw(userAge, userRes), YearsUntilOas(userAge, userRes),
     YearsUntilAlw(partnerAge, partnerRes), YearsUntilOas(partnerAge, partnerRes)]
  }

  function Open(gap: Option<real>): nat { if gap.Some? then 1 else 0 }

  /** How many of the four gaps are still open. */
  function OpenCount(gaps: seq<Option<real>>): nat
    requires |gaps| == 4
  {
    Open(gaps[0]) + Open(gaps[1]) + Open(gaps[2]) + Open(gaps[3])
  }

  /** The loop's step is positive. */
  lemma StepPositive(u: real, p: real, ur: real, pr: real, years: real)
    requires MinPresent(Gaps(u, p, ur, pr)) == Some(years)
    ensures 0.0 < years
  {
    assert Some(years) in Gaps(u, p, ur, pr);
    YearsUntilOasMeaning(u, ur);
    YearsUntilAlwMeaning(u, ur);
    YearsUntilOasMeaning(p, pr);
    YearsUntilAlwMeaning(p, pr);
  }

  /** The loop's step closes at least one of the four gaps for good. */
  lemma StepClosesGap(u: real, p: real, ur: real, pr: real, years: real, u': real, p': real, ur': real, pr': real)
    requires MinPresent(Gaps(u, p, ur, pr)) == Some(years) && 0.0 < years
    requires u' == u + years && p' == p + years && ur' == ur + years && pr' == pr + years
    ensures OpenCount(Gaps(u', p', ur', pr')) < OpenCount(Gaps(u, p, ur, pr))
  {
    OasStep(u, ur, years, u', ur');
    AlwStep(u, ur, years, u', ur');
    OasStep(p, pr, years, p', pr');
    AlwStep(p, pr, years, p', pr');
    CountDrops(Gaps(u, p, ur, pr), Gaps(u', p', ur', pr'), years);
  }

  /** Gaps that were closed stay closed and the gaps equal to the step close, so the open count drops. */
  lemma CountDrops(before: seq<Option<real>>, after: seq<Option<real>>, years: real)
    requires |before| == 4 && |after| == 4
    requires before[0].None? || before[0].value <= years ==> after[0].None?
    requires before[1].None? || before[1].value <= years ==> after[1].None?
    requires before[2].None? || before[2].value <= years ==> after[2].None?
    requires before[3].None? || before[3].value <= years ==> after[3].None?
    requires Some(years) in before
    ensures OpenCount(after) < OpenCount(before)
  {
  }

  /** Every threshold of both spouses is behind them once `shift` years have passed. */
  predicate AllGapsClosed(userAge: real, partnerAge: real, userRes: real, partnerRes: real, shift: real) {
    Gaps(userAge + shift, partnerAge + shift, userRes + shift, partnerRes + shift) == [None, None, None, None]
  }

  /** How far the last pair of the age array lies past the client's starting age. */
  function LastShift(result: seq<(real, real)>, userAge: real): real {
    if result == [] then 0.0 else result[|result| - 1].0 - userAge
  }

  /** Pairs that keep the couple's age difference and strictly increase from the client's starting age. */
  predicate AgePairs(result: seq<(real, real)>, userAge: real, partnerAge: real) {
    && (forall i :: 0 <= i < |result| ==> result[i].1 - result[i].0 == partnerAge - userAge)
    && (forall i :: 0 < i < |result| ==> result[i - 1].0 < result[i].0)
    && (result != [] ==> userAge < result[0].0)
  }

  /**
   * Going from client age `prev` to client age `next` is the shortest open gap,
   * the gaps being measured with every age and residence advanced to `prev`.
   */
  predicate CrossingAt(prev: real, next: real, userAge: real, partnerAge: real, userRes: real, partnerRes: real) {
    var shift := prev - userAge;
    MinPresent(Gaps(prev, partnerAge + shift, userRes + shift, partnerRes + shift)) == Some(next - prev)
  }

  /** Every pair is the next threshold crossing after the one before it (the first, after the start). */
  predicate NextCrossings(result: seq<(real, real)>, userAge: real, partnerAge: real, userRes: real, partnerRes: real)
    decreases |result|
  {
    result == [] ||
    var before := result[..|result| - 1];
    && NextCrossings(before, userAge, partnerAge, userRes, partnerRes)
    && CrossingAt(userAge + LastShift(before, userAge), result[|result| - 1].0, userAge, partnerAge, userRes, partnerRes)
  }

  /** A step of the loop, taken from `shift` years past the start, is a crossing. */
  lemma StepIsCrossing(userAge: real, partnerAge: real, userRes: real, partnerRes: real, shift: real,
                       p: real, ur: real, pr: real, next: real)
    requires p == partnerAge + shift && ur == userRes + shift && pr == partnerRes + shift
    requires MinPresent(Gaps(userAge + shift, p, ur, pr)) == Some(next - (userAge + shift))
    ensures CrossingAt(userAge + shift, next, userAge, partnerAge, userRes, partnerRes)
  {
    assert userAge + shift - userAge == shift;
  }

  /** Appending the next crossing keeps every pair a next crossing. */
  lemma AppendCrossing(result: seq<(real, real)>, userAge: real, partnerAge: real,
                       userRes: real, partnerRes: real, shift: real, u: real, p: real)
    requires NextCrossings(result, userAge, partnerAge, userRes, partnerRes)
    requires LastShift(result, userAge) == shift
    requires CrossingAt(userAge + shift, u, userAge, partnerAge, userRes, partnerRes)
    ensures NextCrossings(result + [(u, p)], userAge, partnerAge, userRes, partnerRes)
  {
    assert (result + [(u, p)])[..|result|] == result;
  }

  /** Appending a later pair with the same age difference keeps the pairs in order. */
  lemma AppendAgePair(result: seq<(real, real)>, userAge: real, partnerAge: real, u: real, p: real)
    requires AgePairs(result, userAge, partnerAge)
    requires p - u == partnerAge - userAge
    requires (if result == [] then userAge else result[|result| - 1].0) < u
    ensures AgePairs(result + [(u, p)], userAge, partnerAge)
  {
  }

  /**
   * What the `getAgeArray` loop has built after `shift` years: pairs in order, each the
   * next crossing, the last one `shift` years past the start.
   */
  predicate AgeArraySoFar(result: seq<(real, real)>, userAge: real, partnerAge: real, userRes: real, partnerRes: real,
                          shift: real)
  {
    && LastShift(result, userAge) == shift
    && AgePairs(result, userAge, partnerAge)
    && NextCrossings(result, userAge, partnerAge, userRes, partnerRes)
  }

  /**
   * One turn of the `getAgeArray` loop, taken `shift` years past the start: the step
   * is positive, closes a gap, and the pushed pair keeps what the loop has built.
   */
  lemma AgeLoopStep(result: seq<(real, real)>, userAge: real, partnerAge: real, userRes: real, partnerRes: real,
                    shift: real, u: real, p: real, ur: real, pr: real, years: real,
                    u': real, p': real, ur': real, pr': real)
    requires u == userAge + shift && p == partnerAge + shift && ur == userRes + shift && pr == partnerRes + shift
    requires u' == u + years && p' == p + years && ur' == ur + years && pr' == pr + years
    requires AgeArraySoFar(result, userAge, partnerAge, userRes, partnerRes, shift)
    requires MinPresent(Gaps(u, p, ur, pr)) == Some(years)
    ensures 0.0 < years
    ensures OpenCount(Gaps(u', p', ur', pr')) < OpenCount(Gaps(u, p, ur, pr))
    ensures AgeArraySoFar(result + [(u', p')], userAge, partnerAge, userRes, partnerRes, shift + years)
  {
    StepPositive(u, p, ur, pr, years);
    StepClosesGap(u, p, ur, pr, years, u', p', ur', pr');
    StepIsCrossing(userAge, partnerAge, userRes, partnerRes, shift, p, ur, pr, u');
    AppendCrossing(result, userAge, partnerAge, userRes, partnerRes, shift, u', p');
    AppendAgePair(result, userAge, partnerAge, u', p');
  }

  /**
   * The (client age, partner age) pairs at which the next OAS or Allowance
   * threshold of either spouse is crossed, in increasing order; empty when an
   * input is missing. Ages and residences all advance together.
   */
  method GetAgeArray(userAge: Option<real>, partnerAge: Option<real>, userRes: Option<real>, partnerRes: Option<real>)
    returns (result: seq<(real, real)>)
    ensures userAge.None? || partnerAge.None? || userRes.None? || partnerRes.None? ==> result == []
    ensures |result| <= 4
    ensures userAge.Some? && partnerAge.Some? && userRes.Some? && partnerRes.Some? ==>
              && AgePairs(result, userAge.value, partnerAge.value)
              && NextCrossings(result, userAge.value, partnerAge.value, userRes.value, partnerRes.value)
              && AllGapsClosed(userAge.value, partnerAge.value, userRes.value, partnerRes.value,
                               LastShift(result, userAge.value))
  {
    if userAge.None? || partnerAge.None? || userRes.None? || partnerRes.None? {
      return [];
    }
    var u, p, ur, pr := userAge.value, partnerAge.value, userRes.value, partnerRes.value;
    result := [];
    ghost var shift := 0.0;
    while true
      invariant u == userAge.value + shift && p == partnerAge.value + shift
      invariant ur == userRes.value + shift && pr == partnerRes.value + shift
      invariant |result| + OpenCount(Gaps(u, p, ur, pr)) <= 4
      invariant AgeArraySoFar(result, userAge.value, partnerAge.value, userRes.value, partnerRes.value, shift)
      invariant result != [] ==> result[|result| - 1] == (u, p)
      decreases OpenCount(Gaps(u, p, ur, pr))
    {
      var arr := Gaps(u, p, ur, pr);
      var next := MinPresent(arr);
      if next.None? {
        // every gap is null
        assert arr == [None, None, None, None] by {
          assert arr[0].None? && arr[1].None? && arr[2].None? && arr[3].None?;
        }
        break;
      }
      var years := next.value;
      var u', p', ur', pr' := u + years, p + years, ur + years, pr + years;
      AgeLoopStep(result, userAge.value, partnerAge.value, userRes.value, partnerRes.value, shift,
                  u, p, ur, pr, years, u', p', ur', pr');
      u, p, ur, pr := u', p', ur', pr';
      shift := shift + years;
      result := result + [(u, p)];
    }
  }

  // ---------------------------------------------------------------------------
  // buildQuery / addKeyValue

  /** A query-string value: a text as received, or a number written back with `String(n)`. */
  datatype QueryValue = Text(text: string) | Numeral(number: real)

  /**
   * The query of the estimator's page: one optional value per key the rewrite reads
   * or writes (`None` when the key is absent), and every other key in `others`.
   */
  datatype Query = Query(
    age: Option<QueryValue>,
    receiveOas: Option<QueryValue>,
    livedOnlyInCanada: Option<QueryValue>,
    yearsInCanadaSince18: Option<QueryValue>,
    oasDeferDuration: Option<QueryValue>,
    partnerAge: Option<QueryValue>,
    partnerLegalStatus: Option<QueryValue>,
    partnerLivingCountry: Option<QueryValue>,
    partnerLivedOnlyInCanada: Option<QueryValue>,
    partnerBenefitStatus: Option<QueryValue>,
    partnerYearsInCanadaSince18: Option<QueryValue>,
    others: map<string, QueryValue>)

  /** What an earlier OAS deferral calculation decided for one spouse. */
  datatype DeferralMeta = DeferralMeta(deferred: bool, residency: real, length: string)

  /** JavaScript truthiness of a query value: a non-empty text, a non-zero number. */
  predicate Truthy(v: Option<QueryValue>) {
    match v
    case None => false
    case Some(Text(t)) => t != ""
    case Some(Numeral(n)) => n != 0.0
  }

  /** JavaScript truthiness of a number that may be `undefined` or `NaN` (`None`). */
  predicate TruthyNumber(n: Option<real>) {
    n.Some? && n.value != 0.0
  }

  /** `Number(v)`: a numeral is itself, a text goes through `parse`, a missing value is `NaN`. */
  function ToNumber(v: Option<QueryValue>, parse: string -> Option<real>): Option<real> {
    match v
    case None => None
    case Some(Text(t)) => parse(t)
    case Some(Numeral(n)) => Some(n)
  }

  /** `String(n)`; `NaN` prints as the text "NaN". */
  function NumberText(n: Option<real>): QueryValue {
    if n.Some? then Numeral(n.value) else Text("NaN")
  }

  /** `Math.floor`, with `NaN` staying `NaN`. */
  function FloorNumber(n: Option<real>): Option<real> {
    if n.Some? then Some(n.value.Floor as real) else None
  }

  /**
   * A residence grown by as many years as the age grew since the query was written;
   * `NaN` (`None`) when the old age or residence is not a number.
   */
  function GrownResidence(oldAge: Option<real>, oldYears: Option<real>, newAge: real): (r: Option<real>)
    ensures r.Some? <==> oldAge.Some? && oldYears.Some?
    ensures r.Some? ==> r.value - oldYears.value == newAge - oldAge.value
  {
    if oldAge.Some? && oldYears.Some? then Some(newAge - oldAge.value + oldYears.value) else None
  }

  /** `addKeyValue` on one key: a present value is kept, a missing one becomes `val`. */
  function AddKeyValue(current: Option<QueryValue>, val: QueryValue): (r: Option<QueryValue>)
    ensures r.Some?
    ensures current.Some? ==> r == current
    ensures current.None? ==> r == Some(val)
  {
    if current.Some? then current else Some(val)
  }

  /** A key that may receive a default: kept when present, and added with `val` exactly when `cond` holds. */
  predicate Defaulted(before: Option<QueryValue>, after: Option<QueryValue>, cond: bool, val: QueryValue) {
    && (before.Some? ==> after == before)
    && (before.None? ==> (after.Some? <==> cond) && (cond ==> after == Some(val)))
  }

  /** The client residence is rewritten only for a client who has not lived only in Canada and gave a residence. */
  predicate RewritesClientResidence(query: Query) {
    query.livedOnlyInCanada == Some(Text("false")) && Truthy(query.yearsInCanadaSince18)
  }

  /** The "just add residency" case: residence grows with age, capped at 40 years. */
  predicate AddsClientResidence(query: Query, clientAlreadyOasEligible: bool, clientLockResidence: Option<real>) {
    RewritesClientResidence(query) && !clientAlreadyOasEligible && !TruthyNumber(clientLockResidence)
  }

  /** The same condition for the partner. */
  predicate RewritesPartnerResidence(query: Query) {
    query.partnerLivedOnlyInCanada == Some(Text("false")) && Truthy(query.partnerYearsInCanadaSince18)
  }

  /** A residence written back as a whole number of years, or as "NaN". */
  predicate WholeYears(v: Option<QueryValue>) {
    v == Some(Text("NaN")) || (v.Some? && v.value.Numeral? && v.value.number == v.value.number.Floor as real)
  }

  /** A whole number of years no larger than `cap`, or "NaN". */
  predicate CappedWholeYears(v: Option<QueryValue>, cap: real) {
    WholeYears(v) && (v.Some? && v.value.Numeral? ==> v.value.number <= cap)
  }

  /** The client half of `buildQuery`: only the age, the OAS default, the residence and the deferral change. */
  method SetClientFields(query: Query, userAge: real, clientDeferralMeta: DeferralMeta,
                         clientAlreadyOasEligible: bool, clientLockResidence: Option<real>,
                         parse: string -> Option<real>)
    returns (newQuery: Query)
    ensures newQuery.(age := query.age, receiveOas := query.receiveOas, yearsInCanadaSince18 := query.yearsInCanadaSince18,
                      oasDeferDuration := query.oasDeferDuration) == query
    ensures newQuery.age == Some(Numeral(userAge))
    ensures Defaulted(query.receiveOas, newQuery.receiveOas, userAge >= 65.0, Text("false"))
    ensures clientAlreadyOasEligible && clientDeferralMeta.deferred ==>
              newQuery.oasDeferDuration == Some(Text(clientDeferralMeta.length))
    ensures !(clientAlreadyOasEligible && clientDeferralMeta.deferred) ==>
              newQuery.oasDeferDuration == query.oasDeferDuration
    ensures !RewritesClientResidence(query) ==> newQuery.yearsInCanadaSince18 == query.yearsInCanadaSince18
    ensures RewritesClientResidence(query) && clientAlreadyOasEligible ==>
              newQuery.yearsInCanadaSince18 == Some(Numeral(clientDeferralMeta.residency))
    ensures RewritesClientResidence(query) && !clientAlreadyOasEligible && TruthyNumber(clientLockResidence) ==>
              newQuery.yearsInCanadaSince18 == Some(Numeral(clientLockResidence.value.Floor as real))
    ensures AddsClientResidence(query, clientAlreadyOasEligible, clientLockResidence) ==>
              CappedWholeYears(newQuery.yearsInCanadaSince18, 40.0)
    ensures AddsClientResidence(query, clientAlreadyOasEligible, clientLockResidence) ==>
              var grown := GrownResidence(ToNumber(query.age, parse), ToNumber(query.yearsInCanadaSince18, parse), userAge);
              newQuery.yearsInCanadaSince18
                == Some(if grown.Some? then Numeral(Min(40.0, grown.value).Floor as real) else Text("NaN"))
  {
    newQuery := query;
    newQuery := newQuery.(age := Some(Numeral(userAge)));
    if userAge >= 65.0 {
      newQuery := newQuery.(receiveOas := AddKeyValue(newQuery.receiveOas, Text("false")));
    }
    if RewritesClientResidence(query) {
      if clientAlreadyOasEligible {
        newQuery := newQuery.(yearsInCanadaSince18 := Some(Numeral(clientDeferralMeta.residency)));
        if clientDeferralMeta.deferred {
          newQuery := newQuery.(oasDeferDuration := Some(Text(clientDeferralMeta.length)));
        }
      } else if TruthyNumber(clientLockResidence) {
        newQuery := newQuery.(yearsInCanadaSince18 := Some(Numeral(clientLockResidence.value.Floor as real)));
      } else {
        // just add residency
        var grown := GrownResidence(ToNumber(query.age, parse), ToNumber(query.yearsInCanadaSince18, parse), userAge);
        var newYrsInCanada: Option<real> := if grown.Some? then Some(Min(40.0, grown.value)) else None;
        newQuery := newQuery.(yearsInCanadaSince18 := Some(NumberText(FloorNumber(newYrsInCanada))));
      }
    } else if clientAlreadyOasEligible && clientDeferralMeta.deferred {
      newQuery := newQuery.(oasDeferDuration := Some(Text(clientDeferralMeta.length)));
    }
  }

  /**
   * The partner half of `buildQuery`, applied to `current`: only the partner's keys
   * change, and the residence condition reads the caller's `query`.
   */
  method SetPartnerFields(query: Query, current: Query, partnerAge: real, partnerDeferralMeta: DeferralMeta,
                          partnerAlreadyOasEligible: bool, partnerLockResidence: Option<real>,
                          parse: string -> Option<real>)
    returns (newQuery: Query)
    ensures newQuery.(partnerAge := current.partnerAge, partnerLegalStatus := current.partnerLegalStatus,
                      partnerLivingCountry := current.partnerLivingCountry,
                      partnerLivedOnlyInCanada := current.partnerLivedOnlyInCanada,
                      partnerBenefitStatus := current.partnerBenefitStatus,
                      partnerYearsInCanadaSince18 := current.partnerYearsInCanadaSince18) == current
    ensures newQuery.partnerAge == Some(Numeral(partnerAge))
    ensures Defaulted(current.partnerLegalStatus, newQuery.partnerLegalStatus, partnerAge >= 60.0, Text("yes"))
    ensures Defaulted(current.partnerLivingCountry, newQuery.partnerLivingCountry, partnerAge >= 60.0, Text("CAN"))
    ensures Defaulted(current.partnerLivedOnlyInCanada, newQuery.partnerLivedOnlyInCanada, partnerAge >= 60.0, Text("true"))
    ensures Defaulted(current.partnerBenefitStatus, newQuery.partnerBenefitStatus, partnerAge >= 65.0, Text("helpMe"))
    ensures !RewritesPartnerResidence(query) ==>
              newQuery.partnerYearsInCanadaSince18 == current.partnerYearsInCanadaSince18
    ensures RewritesPartnerResidence(query) ==> WholeYears(newQuery.partnerYearsInCanadaSince18)
    ensures RewritesPartnerResidence(query) && partnerAlreadyOasEligible ==>
              newQuery.partnerYearsInCanadaSince18 == Some(Numeral(partnerDeferralMeta.residency.Floor as real))
    ensures RewritesPartnerResidence(query) && !partnerAlreadyOasEligible && TruthyNumber(partnerLockResidence) ==>
              newQuery.partnerYearsInCanadaSince18 == Some(Numeral(partnerLockResidence.value.Floor as real))
    ensures RewritesPartnerResidence(query) && !partnerAlreadyOasEligible && !TruthyNumber(partnerLockResidence) ==>
              var grown := GrownResidence(ToNumber(query.partnerAge, parse),
                                          ToNumber(query.partnerYearsInCanadaSince18, parse), partnerAge);
              newQuery.partnerYearsInCanadaSince18
                == Some(if grown.Some? then Numeral(grown.value.Floor as real) else Text("NaN"))
  {
    newQuery := current;
    newQuery := newQuery.(partnerAge := Some(Numeral(partnerAge)));
    if partnerAge >= 60.0 {
      newQuery := newQuery.(partnerLegalStatus := AddKeyValue(newQuery.partnerLegalStatus, Text("yes")));
      newQuery := newQuery.(partnerLivingCountry := AddKeyValue(newQuery.partnerLivingCountry, Text("CAN")));
      newQuery := newQuery.(partnerLivedOnlyInCanada := AddKeyValue(newQuery.partnerLivedOnlyInCanada, Text("true")));
    }
    if partnerAge >= 65.0 {
      newQuery := newQuery.(partnerBenefitStatus := AddKeyValue(newQuery.partnerBenefitStatus, Text("helpMe")));
    }
    if RewritesPartnerResidence(query) {
      var increaseResidence := !partnerAlreadyOasEligible;
      var partnerNewYrsInCanada :=
        GrownResidence(ToNumber(query.partnerAge, parse), ToNumber(query.partnerYearsInCanadaSince18, parse), partnerAge);
      var chosen: Option<real> :=
        if increaseResidence then
          if TruthyNumber(partnerLockResidence) then Some(partnerLockResidence.value.Floor as real)
          else partnerNewYrsInCanada
        else Some(partnerDeferralMeta.residency);
      newQuery := newQuery.(partnerYearsInCanadaSince18 := Some(NumberText(FloorNumber(chosen))));
    }
  }

  /**
   * The query for a future (client age, partner age) pair. The caller's query is a
   * value and is left as it was; the new query assigns the two ages, the residences
   * and the deferral, adds defaults for missing keys without replacing any, and
   * keeps every other key.
   */
  method BuildQuery(query: Query, userAge: real, partnerAge: real,
                    clientDeferralMeta: DeferralMeta, partnerDeferralMeta: DeferralMeta,
                    clientAlreadyOasEligible: bool, partnerAlreadyOasEligible: bool,
                    clientLockResidence: Option<real>, partnerLockResidence: Option<real>,
                    parse: string -> Option<real>)
    returns (newQuery: Query)
    ensures newQuery.others == query.others && newQuery.livedOnlyInCanada == query.livedOnlyInCanada
    ensures newQuery.age == Some(Numeral(userAge)) && newQuery.partnerAge == Some(Numeral(partnerAge))
    ensures Defaulted(query.receiveOas, newQuery.receiveOas, userAge >= 65.0, Text("false"))
    ensures Defaulted(query.partnerLegalStatus, newQuery.partnerLegalStatus, partnerAge >= 60.0, Text("yes"))
    ensures Defaulted(query.partnerLivingCountry, newQuery.partnerLivingCountry, partnerAge >= 60.0, Text("CAN"))
    ensures Defaulted(query.partnerLivedOnlyInCanada, newQuery.partnerLivedOnlyInCanada, partnerAge >= 60.0, Text("true"))
    ensures Defaulted(query.partnerBenefitStatus, newQuery.partnerBenefitStatus, partnerAge >= 65.0, Text("helpMe"))
    // the deferral length is written only for a client already eligible who defers
    ensures clientAlreadyOasEligible && clientDeferralMeta.deferred ==>
              newQuery.oasDeferDuration == Some(Text(clientDeferralMeta.length))
    ensures !(clientAlreadyOasEligible && clientDeferralMeta.deferred) ==>
              newQuery.oasDeferDuration == query.oasDeferDuration
    // the client residence
    ensures !RewritesClientResidence(query) ==> newQuery.yearsInCanadaSince18 == query.yearsInCanadaSince18
    ensures RewritesClientResidence(query) && clientAlreadyOasEligible ==>
              newQuery.yearsInCanadaSince18 == Some(Numeral(clientDeferralMeta.residency))
    ensures RewritesClientResidence(query) && !clientAlreadyOasEligible && TruthyNumber(clientLockResidence) ==>
              newQuery.yearsInCanadaSince18 == Some(Numeral(clientLockResidence.value.Floor as real))
    ensures AddsClientResidence(query, clientAlreadyOasEligible, clientLockResidence) ==>
              CappedWholeYears(newQuery.yearsInCanadaSince18, 40.0)
    ensures AddsClientResidence(query, clientAlreadyOasEligible, clientLockResidence) ==>
              var grown := GrownResidence(ToNumber(query.age, parse), ToNumber(query.yearsInCanadaSince18, parse), userAge);
              newQuery.yearsInCanadaSince18
                == Some(if grown.Some? then Numeral(Min(40.0, grown.value).Floor as real) else Text("NaN"))
    // the partner residence
    ensures !RewritesPartnerResidence(query) ==>
              newQuery.partnerYearsInCanadaSince18 == query.partnerYearsInCanadaSince18
    ensures RewritesPartnerResidence(query) ==> WholeYears(newQuery.partnerYearsInCanadaSince18)
    ensures RewritesPartnerResidence(query) && partnerAlreadyOasEligible ==>
              newQuery.partnerYearsInCanadaSince18 == Some(Numeral(partnerDeferralMeta.residency.Floor as real))
    ensures RewritesPartnerResidence(query) && !partnerAlreadyOasEligible && TruthyNumber(partnerLockResidence) ==>
              newQuery.partnerYearsInCanadaSince18 == Some(Numeral(partnerLockResidence.value.Floor as real))
    ensures RewritesPartnerResidence(query) && !partnerAlreadyOasEligible && !TruthyNumber(partnerLockResidence) ==>
              var grown := GrownResidence(ToNumber(query.partnerAge, parse),
                                          ToNumber(query.partnerYearsInCanadaSince18, parse), partnerAge);
              newQuery.partnerYearsInCanadaSince18
                == Some(if grown.Some? then Numeral(grown.value.Floor as real) else Text("NaN"))
  {
    var afterClient := SetClientFields(query, userAge, clientDeferralMeta, clientAlreadyOasEligible,
                                       clientLockResidence, parse);
    newQuery := SetPartnerFields(query, afterClient, partnerAge, partnerDeferralMeta, partnerAlreadyOasEligible,
                                 partnerLockResidence, parse);
  }

  // ---------------------------------------------------------------------------
  // OasEligibility / AlwsEligibility

  /** The least whole number of yearly steps after which both `age` and `years` reach their minimums. */
  function StepsToEligibility(age: real, years: real, minAge: real, minYears: real): (k: nat)
    ensures age + k as real >= minAge && years + k as real >= minYears
    ensures k > 0 ==> age + (k - 1) as real < minAge || years + (k - 1) as real < minYears
  {
    var a := Ceil(minAge - age);
    var b := Ceil(minYears - years);
    if a <= 0 && b <= 0 then 0 else if a < b then b else a
  }

  /** The OAS minimum age. */
  const OasMinAge: real := 65.0

  /** Ten years of residence for a client living in Canada, twenty abroad. */
  function MinYearsOfResidence(livingCountry: string): (r: real)
    ensures r == r.Floor as real && r >= 10.0
  {
    if livingCountry == "CAN" then 10.0 else 20.0
  }

  /** The age at which OAS is first reached, and the residence then. */
  datatype OasEligibilityResult = OasEligibilityResult(ageOfEligibility: real, yearsOfResAtEligibility: int)

  /**
   * The closed form of `OasEligibility`: a client already past both minimums is taken
   * back to the moment the first of them was met; any other client is carried forward
   * by the least number of whole years, and the age is then rounded down.
   */
  function OasEligibilityOf(ageAtStart: real, yearsInCanadaAtStart: real, livedOnlyInCanada: bool,
                            livingCountry: string): (r: OasEligibilityResult)
    ensures r.ageOfEligibility >= OasMinAge
    ensures ageAtStart >= OasMinAge && yearsInCanadaAtStart >= MinYearsOfResidence(livingCountry) ==>
              r.ageOfEligibility <= ageAtStart
    ensures livedOnlyInCanada ==> r.yearsOfResAtEligibility == 40
  {
    var minYears := MinYearsOfResidence(livingCountry);
    if ageAtStart >= OasMinAge && yearsInCanadaAtStart >= minYears then
      var past := Min(ageAtStart - OasMinAge, yearsInCanadaAtStart - minYears);
      OasEligibilityResult(ageAtStart - past,
                           if livedOnlyInCanada then 40 else (yearsInCanadaAtStart - past).Floor)
    else
      var steps := StepsToEligibility(ageAtStart, yearsInCanadaAtStart, OasMinAge, minYears);
      var ageOfEligibility := (ageAtStart + steps as real).Floor as real;
      OasEligibilityResult(ageOfEligibility,
                           if livedOnlyInCanada then 40
                           else JsRound(ageOfEligibility - ageAtStart + yearsInCanadaAtStart))
  }

  /** A client who already qualifies became eligible at 65 or later, no later than now, with the minimum residence. */
  lemma OasEligibilityWhenQualified(ageAtStart: real, yearsInCanadaAtStart: real, livedOnlyInCanada: bool,
                                    livingCountry: string)
    requires ageAtStart >= OasMinAge && yearsInCanadaAtStart >= MinYearsOfResidence(livingCountry)
    ensures OasMinAge <= OasEligibilityOf(ageAtStart, yearsInCanadaAtStart, livedOnlyInCanada, livingCountry).ageOfEligibility <= ageAtStart
    ensures !livedOnlyInCanada ==>
              OasEligibilityOf(ageAtStart, yearsInCanadaAtStart, livedOnlyInCanada, livingCountry).yearsOfResAtEligibility as real
                >= MinYearsOfResidence(livingCountry)
    ensures ageAtStart - OasEligibilityOf(ageAtStart, yearsInCanadaAtStart, livedOnlyInCanada, livingCountry).ageOfEligibility
              <= yearsInCanadaAtStart - MinYearsOfResidence(livingCountry)
  {
    var minYears := MinYearsOfResidence(livingCountry);
    var past := Min(ageAtStart - OasMinAge, yearsInCanadaAtStart - minYears);
    assert yearsInCanadaAtStart - past >= minYears;
    assert minYears == minYears.Floor as real;
    FloorMonotone(minYears, yearsInCanadaAtStart - past);
  }

  /**
   * A client who does not qualify yet reaches OAS at a whole age, at 65 or later and
   * after the current age; a year earlier they would not have qualified.
   */
  lemma OasEligibilityWhenNotQualified(ageAtStart: real, yearsInCanadaAtStart: real, livedOnlyInCanada: bool,
                                       livingCountry: string)
    requires ageAtStart < OasMinAge || yearsInCanadaAtStart < MinYearsOfResidence(livingCountry)
    ensures OasEligibilityOf(ageAtStart, yearsInCanadaAtStart, livedOnlyInCanada, livingCountry).ageOfEligibility >= OasMinAge
    ensures OasEligibilityOf(ageAtStart, yearsInCanadaAtStart, livedOnlyInCanada, livingCountry).ageOfEligibility > ageAtStart
    ensures OasEligibilityOf(ageAtStart, yearsInCanadaAtStart, livedOnlyInCanada, livingCountry).ageOfEligibility
              == OasEligibilityOf(ageAtStart, yearsInCanadaAtStart, livedOnlyInCanada, livingCountry).ageOfEligibility.Floor as real
    ensures OasEligibilityOf(ageAtStart, yearsInCanadaAtStart, livedOnlyInCanada, livingCountry).ageOfEligibility - 1.0 < OasMinAge
            || yearsInCanadaAtStart
                 + (OasEligibilityOf(ageAtStart, yearsInCanadaAtStart, livedOnlyInCanada, livingCountry).ageOfEligibility - 1.0 - ageAtStart)
               < MinYearsOfResidence(livingCountry)
  {
    var minYears := MinYearsOfResidence(livingCountry);
    var steps := StepsToEligibility(ageAtStart, yearsInCanadaAtStart, OasMinAge, minYears);
    var reached := ageAtStart + steps as real;
    assert steps > 0;
    assert OasMinAge == OasMinAge.Floor as real;
    FloorMonotone(OasMinAge, reached);
    FloorMonotone(ageAtStart + 1.0, reached);
  }

  /**
   * `OasEligibility`: counts the years forward one at a time while the client is under
   * 65 or short of the minimum residence.
   */
  method OasEligibility(ageAtStart: real, yearsInCanadaAtStart: real, livedOnlyInCanada: bool, livingCountry: string)
    returns (r: OasEligibilityResult)
    ensures r == OasEligibilityOf(ageAtStart, yearsInCanadaAtStart, livedOnlyInCanada, livingCountry)
  {
    var age := ageAtStart;
    var yearsInCanada := yearsInCanadaAtStart;
    var minAgeEligibility := OasMinAge;
    var minYearsOfResEligibility := MinYearsOfResidence(livingCountry);
    var ageOfEligibility: real;
    var yearsOfResAtEligibility: real;
    if age >= minAgeEligibility && yearsInCanada >= minYearsOfResEligibility {
      var yearsPastEligibility := Min(age - minAgeEligibility, yearsInCanada - minYearsOfResEligibility);
      ageOfEligibility := age - yearsPastEligibility;
      yearsOfResAtEligibility := yearsInCanada - yearsPastEligibility;
    } else {
      ghost var total := StepsToEligibility(ageAtStart, yearsInCanadaAtStart, minAgeEligibility, minYearsOfResEligibility);
      ghost var steps: nat := 0;
      while age < minAgeEligibility || yearsInCanada < minYearsOfResEligibility
        invariant age == ageAtStart + steps as real
        invariant yearsInCanada == yearsInCanadaAtStart + steps as real
        invariant steps <= total
        decreases total - steps
      {
        age := age + 1.0;
        yearsInCanada := yearsInCanada + 1.0;
        steps := steps + 1;
      }
      assert steps == total;
      ageOfEligibility := age.Floor as real;
      yearsOfResAtEligibility := JsRound(ageOfEligibility - ageAtStart + yearsInCanadaAtStart) as real;
    }
    r := OasEligibilityResult(ageOfEligibility, if livedOnlyInCanada then 40 else yearsOfResAtEligibility.Floor);
  }

  /** A JavaScript value that may be left `undefined` or set to `null`. */
  datatype JsValue = Undefined | Null | Num(n: real)

  /** The age at which the Allowance is reached (`null` past 64), and the residence then. */
  datatype AlwsEligibilityResult = AlwsEligibilityResult(ageOfEligibility: JsValue, yearsOfResAtEligibility: JsValue)

  const AlwMinAge: real := 60.0
  const AlwMaxAge: real := 64.0
  const AlwMinYears: real := 10.0

  /**
   * The closed form of `AlwsEligibility`: both fields stay undefined for a client who
   * already has 60 years and 10 years of residence; any other client is carried
   * forward by the least number of whole years.
   */
  function AlwsEligibilityOf(age: real, yearsInCanada: real): (r: AlwsEligibilityResult)
    ensures r.ageOfEligibility.Undefined? <==> age >= AlwMinAge && yearsInCanada >= AlwMinYears
    ensures r.yearsOfResAtEligibility.Undefined? <==> r.ageOfEligibility.Undefined?
    ensures r.ageOfEligibility.Num? ==> age < r.ageOfEligibility.n <= AlwMaxAge
  {
    if age < AlwMinAge || yearsInCanada < AlwMinYears then
      var steps := StepsToEligibility(age, yearsInCanada, AlwMinAge, AlwMinYears);
      AlwsEligibilityResult(if age + steps as real > AlwMaxAge then Null else Num(age + steps as real),
                            Num(yearsInCanada + steps as real))
    else
      AlwsEligibilityResult(Undefined, Undefined)
  }

  /**
   * The Allowance is reported only inside its 60 to 64 window, with at least ten years
   * of residence, as the first whole-year step that reaches both minimums, and the
   * residence moves with the age.
   */
  lemma AlwsEligibilityWindow(age: real, yearsInCanada: real)
    ensures AlwsEligibilityOf(age, yearsInCanada).ageOfEligibility.Undefined?
            <==> age >= AlwMinAge && yearsInCanada >= AlwMinYears
    ensures AlwsEligibilityOf(age, yearsInCanada).ageOfEligibility.Num? ==>
              var a := AlwsEligibilityOf(age, yearsInCanada).ageOfEligibility.n;
              && AlwMinAge <= a <= AlwMaxAge
              && AlwsEligibilityOf(age, yearsInCanada).yearsOfResAtEligibility == Num(yearsInCanada + (a - age))
              && yearsInCanada + (a - age) >= AlwMinYears
              && (a - 1.0 < AlwMinAge || yearsInCanada + (a - 1.0 - age) < AlwMinYears)
    ensures AlwsEligibilityOf(age, yearsInCanada).ageOfEligibility.Null? ==>
              !(age >= AlwMinAge && yearsInCanada >= AlwMinYears)
              && AlwsEligibilityOf(age, yearsInCanada).yearsOfResAtEligibility.Num?
  {
    if age < AlwMinAge || yearsInCanada < AlwMinYears {
      var steps := StepsToEligibility(age, yearsInCanada, AlwMinAge, AlwMinYears);
      assert steps > 0;
    }
  }

  /** `AlwsEligibility`: counts the years forward one at a time while the client is under 60 or short of ten years. */
  method AlwsEligibility(ageAtStart: real, yearsInCanadaAtStart: real) returns (r: AlwsEligibilityResult)
    ensures r == AlwsEligibilityOf(ageAtStart, yearsInCanadaAtStart)
  {
    var age := ageAtStart;
    var yearsInCanada := yearsInCanadaAtStart;
    var ageOfEligibility := Undefined;
    var yearsOfResAtEligibility := Undefined;
    if age < AlwMinAge || yearsInCanada < AlwMinYears {
      ghost var total := StepsToEligibility(ageAtStart, yearsInCanadaAtStart, AlwMinAge, AlwMinYears);
      ghost var steps: nat := 0;
      while age < AlwMinAge || yearsInCanada < AlwMinYears
        invariant age == ageAtStart + steps as real
        invariant yearsInCanada == yearsInCanadaAtStart + steps as real
        invariant steps <= total
        decreases total - steps
      {
        age := age + 1.0;
        yearsInCanada := yearsInCanada + 1.0;
        steps := steps + 1;
      }
      assert steps == total;
      ageOfEligibility := if age > AlwMaxAge then Null else Num(age);
      yearsOfResAtEligibility := Num(yearsInCanada);
    }
    r := AlwsEligibilityResult(ageOfEligibility, yearsOfResAtEligibility);
  }

  /**
   * The age of eligibility is rounded down while the residence is counted at that
   * rounded age, so a client carried forward by the residence condition can be
   * reported at an age where the residence is still short of the minimum.
   */
  lemma OasEligibilityRoundedDown()
    ensures OasEligibilityOf(66.8, 9.2, false, "CAN") == OasEligibilityResult(67.0, 9)
    ensures OasEligibilityOf(66.8, 9.2, false, "CAN").yearsOfResAtEligibility as real < MinYearsOfResidence("CAN")
  {
    assert StepsToEligibility(66.8, 9.2, OasMinAge, 10.0) == 1;
    assert (66.8 + 1.0).Floor == 67;
    assert JsRound(67.0 - 66.8 + 9.2) == 9;
  }

  /**
   * For every client already 65 who is carried forward only by the residence
   * condition, the residence counted at the rounded-down age is within one year of
   * the minimum, on either side, so it can fall short by up to one year.
   */
  lemma {:induction false} OasResidenceAtRoundedAge(ageAtStart: real, yearsInCanadaAtStart: real, livingCountry: string)
    requires ageAtStart >= OasMinAge && yearsInCanadaAtStart < MinYearsOfResidence(livingCountry)
    ensures var r := OasEligibilityOf(ageAtStart, yearsInCanadaAtStart, false, livingCountry);
            && r.ageOfEligibility == (ageAtStart + Ceil(MinYearsOfResidence(livingCountry) - yearsInCanadaAtStart) as real).Floor as real
            && MinYearsOfResidence(livingCountry) - 1.0 <= r.yearsOfResAtEligibility as real <= MinYearsOfResidence(livingCountry) + 1.0
  {
    var minYears := MinYearsOfResidence(livingCountry);
    var k := Ceil(minYears - yearsInCanadaAtStart);
    assert StepsToEligibility(ageAtStart, yearsInCanadaAtStart, OasMinAge, minYears) == k;
    var age := (ageAtStart + k as real).Floor as real;
    var counted := JsRound(age - ageAtStart + yearsInCanadaAtStart);
    assert minYears - 1.5 < counted as real < minYears + 1.5;
    var m := minYears.Floor;
    assert minYears == m as real;
    assert m - 2 < counted < m + 2;
  }

  // ---------------------------------------------------------------------------
  // evaluateOASInput

  /** A deferral written back as `{months, years}`. */
  datatype DeferDuration = DeferDuration(months: int, years: int)

  /** The part of the form input that the OAS deferral reads and rewrites. */
  datatype OasInput = OasInput(
    age: real,
    inputAge: Option<real>,
    yearsInCanadaSince18: real,
    livedOnlyInCanada: bool,
    livingCountry: string,
    receiveOas: bool,
    oasDeferDuration: Option<DeferDuration>)

  datatype OasInputEvaluation = OasInputEvaluation(canDefer: bool, newInput: OasInput, justBecameEligible: bool)

  /** The OAS eligibility of the input's client. */
  function EligibilityOf(input: OasInput): OasEligibilityResult {
    OasEligibilityOf(input.age, input.yearsInCanadaSince18, input.livedOnlyInCanada, input.livingCountry)
  }

  /** The months of deferral between the age of eligibility and the current age, counted up to age 70. */
  function DeferralMonths(age: real, ageOfEligibility: real): (r: real)
    ensures r >= 0.0
    ensures ageOfEligibility >= OasMinAge ==>
              r <= 60.0 && (r != 0.0 <==> ageOfEligibility < age && ageOfEligibility < 70.0)
    ensures ageOfEligibility >= OasMinAge && r != 0.0 ==> r == 12.0 * (Min(70.0, age) - ageOfEligibility)
  {
    if age > ageOfEligibility then Max(0.0, Min(60.0, Min(70.0, age) - ageOfEligibility) * 12.0) else 0.0
  }

  /**
   * `evaluateOASInput`: a client past the age of eligibility and not yet receiving OAS
   * can defer; the rewritten input then stands at the age of eligibility, receiving
   * OAS, with the residence of that age and the deferral in whole months.
   */
  function EvaluateOasInput(input: OasInput): (r: OasInputEvaluation)
    ensures r.justBecameEligible <==> input.age == EligibilityOf(input).ageOfEligibility && input.age < 70.0
    ensures r.canDefer <==>
              EligibilityOf(input).ageOfEligibility < input.age && EligibilityOf(input).ageOfEligibility < 70.0
              && !input.receiveOas
    ensures !r.canDefer ==> r.newInput == input
    ensures r.canDefer ==>
              && r.newInput.inputAge == Some(input.age)
              && r.newInput.age == EligibilityOf(input).ageOfEligibility
              && r.newInput.receiveOas
              && r.newInput.yearsInCanadaSince18 <= 40.0
              && (input.livedOnlyInCanada ==> r.newInput.yearsInCanadaSince18 == 40.0)
              && r.newInput.oasDeferDuration.Some?
              && 0 <= r.newInput.oasDeferDuration.value.months <= 60
              && r.newInput.oasDeferDuration.value.years == 0
              && r.newInput.oasDeferDuration.value.months
                 == JsRound(12.0 * (Min(70.0, input.age) - EligibilityOf(input).ageOfEligibility))
              && (!input.livedOnlyInCanada ==>
                    r.newInput.yearsInCanadaSince18
                    == Min(40.0, (input.yearsInCanadaSince18 - (input.age - EligibilityOf(input).ageOfEligibility))
                                 .Floor as real))
              && r.newInput.(inputAge := input.inputAge, age := input.age, receiveOas := input.receiveOas,
                             yearsInCanadaSince18 := input.yearsInCanadaSince18,
                             oasDeferDuration := input.oasDeferDuration) == input
  {
    var eli := EligibilityOf(input);
    var ageDiff := input.age - eli.ageOfEligibility;
    var deferralMonths := DeferralMonths(input.age, eli.ageOfEligibility);
    var justBecameEligible := input.age == eli.ageOfEligibility && input.age < 70.0;
    if deferralMonths != 0.0 && !input.receiveOas then
      var newYearsInCan := input.yearsInCanadaSince18 - ageDiff;
      var months := JsRound(deferralMonths);
      OasInputEvaluation(
        true,
        input.(inputAge := Some(input.age),
               age := eli.ageOfEligibility,
               receiveOas := true,
               yearsInCanadaSince18 := if input.livedOnlyInCanada then 40.0
                                       else Min(40.0, newYearsInCan.Floor as real),
               oasDeferDuration := Some(DeferDuration(months, 0))),
        justBecameEligible)
    else
      OasInputEvaluation(false, input, justBecameEligible)
  }

  /**
   * The deferred input of a client who gave a residence stands exactly at its own age
   * of eligibility: evaluating it again reports a client who just became eligible and
   * can no longer defer.
   */
  lemma DeferredInputIsAtEligibility(input: OasInput)
    requires EvaluateOasInput(input).canDefer && !input.livedOnlyInCanada
    ensures EligibilityOf(EvaluateOasInput(input).newInput).ageOfEligibility == EvaluateOasInput(input).newInput.age
    ensures EvaluateOasInput(EvaluateOasInput(input).newInput).justBecameEligible
    ensures !EvaluateOasInput(EvaluateOasInput(input).newInput).canDefer
  {
    var minYears := MinYearsOfResidence(input.livingCountry);
    var n := EvaluateOasInput(input).newInput;
    var past := Min(input.age - OasMinAge, input.yearsInCanadaSince18 - minYears);
    // a client who can defer already qualified
    if !(input.age >= OasMinAge && input.yearsInCanadaSince18 >= minYears) {
      OasEligibilityWhenNotQualified(input.age, input.yearsInCanadaSince18, input.livedOnlyInCanada, input.livingCountry);
      assert false;
    }
    assert n.age == input.age - past;
    var left := input.yearsInCanadaSince18 - past;
    assert left >= minYears;
    assert minYears == minYears.Floor as real;
    FloorMonotone(minYears, left);
    assert n.yearsInCanadaSince18 == Min(40.0, left.Floor as real);
    if past == input.yearsInCanadaSince18 - minYears {
      assert left.Floor as real == minYears;
    }
    assert Min(n.age - OasMinAge, n.yearsInCanadaSince18 - minYears) == 0.0;
  }

  // ---------------------------------------------------------------------------
  // calculateFutureYearMonth

  datatype YearMonth = YearMonth(year: int, month: int)

  /**
   * `calculateFutureYearMonth`: the calendar month at which someone born in
   * `birthYear`/`birthMonth` reaches `age`, counting whole months of age.
   */
  function CalculateFutureYearMonth(birthYear: int, birthMonth: int, age: real): (r: YearMonth)
    ensures 12 * (r.year - birthYear) + (r.month - birthMonth) == (age * 12.0).Floor
    ensures birthMonth >= 0 ==> 1 <= r.month <= 12
  {
    var fullYears := age.Floor;
    var additionalMonths := ((age - fullYears as real) * 12.0).Floor;
    WholeMonthsOfAge(age);
    var futureYear := birthYear + fullYears;
    var futureMonth := birthMonth + additionalMonths;
    var overflowYear := if futureMonth > 12 then futureYear + futureMonth / 12 else futureYear;
    var overflowMonth := if futureMonth > 12 then futureMonth % 12 else futureMonth;
    if overflowMonth == 0 then YearMonth(overflowYear - 1, 12) else YearMonth(overflowYear, overflowMonth)
  }

  /** Whole years of age and the whole months beyond them make up the whole months of age. */
  lemma WholeMonthsOfAge(age: real)
    ensures 12 * age.Floor + ((age - age.Floor as real) * 12.0).Floor == (age * 12.0).Floor
    ensures 0 <= ((age - age.Floor as real) * 12.0).Floor < 12
  {
    var f := age.Floor;
    var m := ((age - f as real) * 12.0).Floor;
    assert (12 * f + m) as real <= age * 12.0 < (12 * f + m + 1) as real;
  }
}
