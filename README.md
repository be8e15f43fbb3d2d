# Eligibility estimator core: a Dafny model

This project models the calculation core of the Canadian old-age benefits
eligibility estimator (Old Age Security, Guaranteed Income Supplement,
Allowance, and Allowance for the Survivor).

It covers four parts:

- **Entitlement formula** (`entitlement_formula.dfy`): the GIS, Allowance and AFS amount.
  - The household falls into one of six situations.
  - Two income bounds choose a LOW, HIGH or STATIC calculation.
  - Outside STATIC, the amount is a maximum reduced by income increments, plus a top-up.
- **Allowance for the Survivor** (`afs_benefit.dfy`): the decision tree for eligibility, and the entitlement it unlocks.
- **Base benefit** (`base_benefit.dfy`): the part every benefit shares, modelled as a class.
  - Eligibility, entitlement and the card detail are computed on first access, then cached in fields.
  - Building the card text can rewrite the cached eligibility of an eligible client who is owed nothing.
- **Future-benefit helpers** (`utils.dfy`):
  - the OAS deferral increase;
  - the filter for eligible benefits;
  - the future ages at which a couple next crosses an OAS or Allowance threshold;
  - the query rewritten for such an age;
  - the age at which OAS or the Allowance is first reached;
  - the OAS deferral of a current input;
  - the calendar month at which an age is reached.

The support modules are:

- `wrappers.dfy`: `Option` and `Result`.
- `rounding.dfy`:
  - `Math.round`, which rounds half up;
  - the ceiling;
  - the helper that rounds to cents.
- `definitions.dfy`: the enumerations, the field helpers, the rate table and the records.

How the model represents the source:

- **Numbers**: JavaScript numbers are Dafny `real`s. A number that may be `undefined` or `NaN` is an `Option`.
- **Errors**: a thrown error is a `Failure` of `Result`.
- **Benefit rules**: a benefit's own `getEligibility` and `getEntitlement` are given to the base class as function-typed constants.
- **Code that updates things step by step**: the source's loops are methods with loop invariants. The class fields are updated in place.
  - Each of these methods is proved against a closed-form function of its inputs: `OasEligibilityOf`, `AlwsEligibilityOf` and `EligibleOnly`.
  - Or its contract states the promise directly, as `GetAgeArray`'s does.

## Model

| member | source | states |
|---|---|---|
| Rounding.JsRound | utils/api/benefits/entitlementFormula.ts:26-28 | `Math.round` lands within one half of its argument |
| Rounding.Ceil | utils/api/helpers/utils.ts:211-217 | the ceiling is the least integer at or above its argument (it counts the whole-year steps of the eligibility loops) |
| Rounding.RoundToTwo | utils/api/benefits/entitlementFormula.ts:85-89 | rounding to cents moves a value by at most half a cent |
| Rounding.RoundToTwoMonotone | utils/api/benefits/entitlementFormula.ts:171-173 | rounding to cents preserves order |
| Rounding.RoundToTwoOfCents | utils/api/benefits/entitlementFormula.ts:205-225 | a whole number of cents is left as it is |
| Rounding.RoundToTwoIdempotent | utils/api/benefits/entitlementFormula.ts:221 | a rounded amount is whole cents, so rounding it again (as `roundToTwo(this.covp5)` does) changes nothing |
| Rounding.RoundToTwoZero | utils/api/helpers/utils.ts:4-8 | zero rounds to zero |
| EntitlementFormula.Incuta3 | utils/api/benefits/entitlementFormula.ts:25-28 | `incuta3` is a multiple of 48, and its number of 48-dollar steps is the first whole number above a quarter of the full OAS pension |
| EntitlementFormula.Incuta5 | utils/api/benefits/entitlementFormula.ts:30-33 | `incuta5` is a multiple of 48, and its number of 48-dollar steps is the first whole number above a third of the full OAS pension |
| EntitlementFormula.Covpam | utils/api/benefits/entitlementFormula.ts:35-43 | `covpam` is a whole number of cents, within half a cent of the single GIS net of its top-up, less the partnered GIS net of its top-up, less the step counts between `incuta5` and `incuta3` |
| EntitlementFormula.Covpin | utils/api/benefits/entitlementFormula.ts:45-54 | `covpin` is a multiple of 48, a whole number of 48-dollar steps away from `incuta3` |
| EntitlementFormula.Covpin5 | utils/api/benefits/entitlementFormula.ts:56-64 | `covpin5` is a multiple of 48, a whole number of 48-dollar steps away from `incuta5` |
| EntitlementFormula.Covp5 | utils/api/benefits/entitlementFormula.ts:66-71 | `covp5` is a whole number of cents, within half a cent of the survivor's GIS net of the single top-up, less the full pension |
| EntitlementFormula.GisStatusOf | utils/api/benefits/entitlementFormula.ts:79 | `gisStatus` is 1 exactly for a client counted as single |
| EntitlementFormula.SituationOf | utils/api/benefits/entitlementFormula.ts:94-106 | no situation exactly for a client counted as single who is neither single nor widowed (the getter falls through); SINGLE or AFS exactly for a client counted as single; for a couple, PARTNER_OAS or ALW exactly when the partner receives OAS |
| EntitlementFormula.Formula.Brackets | utils/api/benefits/entitlementFormula.ts:123-139 | the bracketless situations get -1 and -1; the others have a low bound on the 48-dollar grid; for ALW and AFS the band is `24 × gisStatus` wide |
| EntitlementFormula.Formula.Method | utils/api/benefits/entitlementFormula.ts:113-117 | STATIC exactly when the income lies in [low, high); LOW exactly below low; HIGH otherwise |
| EntitlementFormula.Formula.StaticResult | utils/api/benefits/entitlementFormula.ts:144-157 | a STATIC amount exists exactly for PARTNER_ALW, ALW and AFS; otherwise it is the error "static amount not defined" |
| EntitlementFormula.Formula.DifferentialMultiplier | utils/api/benefits/entitlementFormula.ts:165-170 | the multiplier is 1 or 3, and 3 exactly for ALW or AFS in LOW |
| EntitlementFormula.Formula.BasicTopupAmount | utils/api/benefits/entitlementFormula.ts:255-266 | the basic top-up is non-negative for a valid rate table, and is the single top-up when `gisStatus` is 1 |
| EntitlementFormula.Formula.IncomeDifferential | utils/api/benefits/entitlementFormula.ts:272-280 | the income differential is never negative |
| EntitlementFormula.Formula.IncomeIncrementMultiplier | utils/api/benefits/entitlementFormula.ts:306-318 | the increment multiplier is 1 or 2 |
| EntitlementFormula.Formula.EntitlementAmount | utils/api/benefits/entitlementFormula.ts:85-89 | once the situation is known, `getEntitlementAmount` never throws |
| EntitlementFormula.NewFormula | utils/api/benefits/entitlementFormula.ts:73-106 | the formula is built exactly when the household has a situation, and then with that situation; it keeps its income and rate table, and its `gisStatus` agrees with its situation; otherwise the error is "no situation" |
| EntitlementFormula.GetEntitlementAmount | utils/api/benefits/entitlementFormula.ts:94-106 | the amount fails exactly when the household falls into none of the six situations (a single client who is neither single nor widowed) |
| EntitlementFormula.GetEntitlementAmountWithoutIncome | utils/api/benefits/entitlementFormula.ts:85-157 | with an `undefined` income both bracket comparisons fail, so the calculation is STATIC: it succeeds exactly for PARTNER_ALW, ALW and AFS, and pays what any income inside the STATIC band would get |
| EntitlementFormula.SituationClassification | utils/api/benefits/entitlementFormula.ts:94-106 | each of the six situations holds exactly under its own marital, partner-benefit and age condition; `gisStatus` is 1 exactly for SINGLE and AFS |
| EntitlementFormula.BracketlessNeverStatic | utils/api/benefits/entitlementFormula.ts:113-157 | SINGLE, PARTNER_OAS and PARTNER_NO_OAS never take the STATIC path, whose amount they lack; with income ≥ 0 they always take HIGH |
| EntitlementFormula.AllowanceStaticBand | utils/api/benefits/entitlementFormula.ts:123-151 | for ALW and AFS, STATIC holds exactly on [incuta5, incuta5 + 48) or [incuta5, incuta5 + 24), and it pays the fixed ALW maximum or `covp5` |
| EntitlementFormula.PartnerAlwStaticBand | utils/api/benefits/entitlementFormula.ts:123-147 | for PARTNER_ALW, STATIC holds exactly on [covpin, covpin5), and it pays `covpam` |
| EntitlementFormula.TopupBounds | utils/api/benefits/entitlementFormula.ts:180-195 | the top-up lies between zero and the basic top-up, and is the full basic top-up below 2000 dollars per person |
| EntitlementFormula.TopupNonIncreasing | utils/api/benefits/entitlementFormula.ts:180-195 | a higher income never gives a larger top-up |
| EntitlementFormula.DifferentialNonDecreasing | utils/api/benefits/entitlementFormula.ts:272-301 | within one calculation mode, a higher income never gives a smaller income differential |
| EntitlementFormula.NonIncreasingWithinMode | utils/api/benefits/entitlementFormula.ts:85-89 | within LOW or within HIGH, a higher income never gives a larger entitlement |
| EntitlementFormula.BracketlessNonIncreasing | utils/api/benefits/entitlementFormula.ts:133-137 | in the three bracketless situations, the entitlement never rises with a non-negative income |
| EntitlementFormula.AmountAtMostMaximum | utils/api/benefits/entitlementFormula.ts:164-227 | outside STATIC, the reduced amount never exceeds `actualMaxAmount`, and the entitlement never exceeds `actualMaxAmount` plus the basic top-up, rounded to cents |
| AfsBenefit.GetEligibility | utils/api/benefits/afsBenefit.ts:22-133 | the result is ELIGIBLE, INELIGIBLE or UNAVAILABLE, never INCOME_DEPENDENT; the reason is NONE exactly when eligible; eligible only when every requirement holds; the only error is the logic failure |
| AfsBenefit.FormulaAmount | utils/api/benefits/afsBenefit.ts:139-144 | the formula fails exactly when the household has no situation, or when the income is `undefined` in a situation without brackets |
| AfsBenefit.GetEntitlement | utils/api/benefits/afsBenefit.ts:135-149 | the type is NONE (with amount 0) exactly when not eligible, otherwise FULL, and there is no auto-enrollment flag; it fails exactly when eligible and the formula fails |
| AfsBenefit.EligibleIff | utils/api/benefits/afsBenefit.ts:22-42 | eligible exactly when legal status, 10 years of residence, widowhood, income under the limit and age 60 to 64 all hold; the reason is then NONE |
| AfsBenefit.OverAgeAlwaysIneligible | utils/api/benefits/afsBenefit.ts:55-67 | from 65 on, the answer is always "ineligible: age" |
| AfsBenefit.UnderAgeWithAllOtherRequirements | utils/api/benefits/afsBenefit.ts:43-54 | with every other requirement met, under 60: "apply now" at exactly 59, "eligible at 60" otherwise |
| AfsBenefit.MaritalReasonIff | utils/api/benefits/afsBenefit.ts:68-73 | the marital reason is given exactly to a client under 65 who answered and is not widowed |
| AfsBenefit.IncomeReasonIff | utils/api/benefits/afsBenefit.ts:74-79 | the income reason is given exactly when age and the marital answer did not decide and the income fails |
| AfsBenefit.ShortResidency | utils/api/benefits/afsBenefit.ts:80-110 | with short residence, an agreement country or a past social-security country makes the case unavailable from 60 to 64, "too young" below 60, and "ineligible: age" between 64 and 65; otherwise the residence rule fails |
| AfsBenefit.YearsReasonIff | utils/api/benefits/afsBenefit.ts:80-110 | the residence reason appears exactly when the residence rule is reached, and, with an agreement, the client is 60 to 64 |
| AfsBenefit.NonCanadianLegalStatus | utils/api/benefits/afsBenefit.ts:111-131 | legal status: "too young" under 60; otherwise unavailable, with its own detail for a sponsored client |
| AfsBenefit.UnavailableIff | utils/api/benefits/afsBenefit.ts:80-131 | UNAVAILABLE comes only from the residence rule (age 60 to 64) or the legal-status rule (age 60 and over) |
| AfsBenefit.LogicFailedIff | utils/api/benefits/afsBenefit.ts:132 | the tree throws exactly for a client under 65 with no marital answer who passes the income, residence and legal rules |
| AfsBenefit.EntitlementFollowsEligibility | utils/api/benefits/afsBenefit.ts:135-149 | nothing (type NONE, amount 0) unless eligible; when eligible, the household is an AFS one, the formula cannot fail, and the type is FULL |
| AfsBenefit.NewAfsBenefit | utils/api/benefits/afsBenefit.ts:17-20 | as written: a new AFS benefit has empty caches, runs this module's eligibility and entitlement rules, and has no benefit key, because the constructor passes none |
| AfsBenefit.UnkeyedLinksNameNoBenefit | utils/api/benefits/_base.ts:132-146 | with no key, no link of the card names a benefit; an eligible client gets the apply and overview links of an undefined key |
| AfsBenefit.NewKeyedAfsBenefit | utils/api/benefits/afsBenefit.ts:17-20 | as intended: the same benefit, keyed as the AFS benefit |
| AfsBenefit.KeyedAfsLinks | utils/api/benefits/_base.ts:132-146 | keyed as AFS, every card link names the AFS benefit: the overview always, the application exactly when the client is eligible |
| BaseBenefit.IncomeRewrite | utils/api/benefits/_base.ts:90-92 | the rewrite keeps the result key and sets the INCOME reason and its detail |
| BaseBenefit.CardLinks | utils/api/benefits/_base.ts:132-146 | one or two links, all under the benefit's key: the apply link first exactly when eligible or income-dependent, then always the overview link |
| BaseBenefit.Benefit.constructor | utils/api/benefits/_base.ts:22-26 | a new benefit has empty caches and has run nothing |
| BaseBenefit.Benefit.Eligibility | utils/api/benefits/_base.ts:28-32 | the first access computes and caches the eligibility; later accesses return the cache and change nothing |
| BaseBenefit.Benefit.Entitlement | utils/api/benefits/_base.ts:34-38 | the first access computes the entitlement from the cached eligibility and caches it; later accesses return the cache and change nothing |
| BaseBenefit.Benefit.Card | utils/api/benefits/_base.ts:40-43 | a cached card is returned unchanged; the first access fails exactly when the eligibility fails or an eligible client's entitlement fails, and otherwise caches and returns a card with no main text, no collapsed text and the links of the eligibility result |
| BaseBenefit.Benefit.SetCard | utils/api/benefits/_base.ts:45-47 | the setter replaces the cached card and nothing else |
| BaseBenefit.Benefit.GetCardDetail | utils/api/benefits/_base.ts:57-64 | the card has no main text, no collapsed text, and the links `CardLinks` gives for the eligibility result; it fails exactly when the eligibility fails, or when an eligible client's entitlement fails |
| BaseBenefit.Benefit.GetAutoEnrollment | utils/api/benefits/_base.ts:70-72 | auto-enrollment holds exactly when the client is eligible |
| BaseBenefit.Benefit.GetCardText | utils/api/benefits/_base.ts:79-114 | the text is always null; an eligible client whose entitlement type is NONE gets the INCOME reason and detail and an auto-enrollment flag of true, with the result key still ELIGIBLE; any other client's caches are left as computed |
| BaseBenefit.Benefit.GetCardLinks | utils/api/benefits/_base.ts:132-146 | the links are `CardLinks` of the eligibility result; it fails exactly when the eligibility fails |
| BaseBenefit.Benefit.Info | utils/api/benefits/_base.ts:148-155 | `info` fails exactly when the eligibility or the entitlement rule fails; otherwise it returns the key and the very values the three getters cached |
| Utils.GetDeferralIncrease | utils/api/helpers/utils.ts:4-8 | the increase is within half a cent of months × 0.006 × base amount |
| Utils.NoDeferralNoIncrease | utils/api/helpers/utils.ts:4-8 | no deferral gives no increase |
| Utils.DeferralIncreaseMonotone | utils/api/helpers/utils.ts:4-8 | for a non-negative base amount, a longer deferral never gives a smaller increase, and the increase is never negative |
| Utils.EligibleOnly | utils/api/helpers/utils.ts:10-18 | the filtered map holds exactly the benefits whose result is eligible, with their values |
| Utils.GetEligibleBenefits | utils/api/helpers/utils.ts:10-18 | the loop copies exactly the eligible benefits, and returns `null` exactly when there are none |
| Utils.YearsUntilOasMeaning | utils/api/helpers/utils.ts:36-44 | `null` exactly when 65 and 10 years are both reached; otherwise a positive step that reaches both and meets one of them exactly, so no shorter step reaches both |
| Utils.YearsUntilAlwMeaning | utils/api/helpers/utils.ts:46-59 | `null` inside the 60 to 64 window with 10 years, past 64, or when the residence cannot be met by 64; otherwise a positive step into the window that meets 60 or 10 years exactly |
| Utils.OasStep | utils/api/helpers/utils.ts:36-44 | once reached, the OAS threshold stays reached; a step at least as long as the gap reaches it |
| Utils.AlwStep | utils/api/helpers/utils.ts:46-59 | a closed Allowance gap stays closed; a step at least as long as the gap closes it |
| Utils.MinPresent | utils/api/helpers/utils.ts:67-70 | `None` exactly when every gap is `null`; otherwise a present gap that is no larger than any other present gap |
| Utils.Gaps | utils/api/helpers/utils.ts:62-67 | there are always four gaps |
| Utils.StepPositive | utils/api/helpers/utils.ts:70 | the chosen step is positive |
| Utils.StepClosesGap | utils/api/helpers/utils.ts:70-74 | taking the least gap closes at least one gap and opens none |
| Utils.CountDrops | utils/api/helpers/utils.ts:61-76 | gaps that only close give a smaller count of open gaps |
| Utils.StepIsCrossing | utils/api/helpers/utils.ts:61-75 | a step of the loop, taken with every age and residence advanced by the years so far, is the next crossing |
| Utils.AppendCrossing | utils/api/helpers/utils.ts:70-75 | pushing the next crossing keeps every pair the next crossing after the one before it |
| Utils.AgeLoopStep | utils/api/helpers/utils.ts:61-76 | one turn of the loop: the step is positive, it closes at least one gap, and the pushed pair keeps the pairs in order, each the next crossing, with the last one as far past the start as the steps taken |
| Utils.AppendAgePair | utils/api/helpers/utils.ts:75 | pushing the next pair keeps the pairs strictly increasing, with their difference preserved |
| Utils.GetAgeArray | utils/api/helpers/utils.ts:20-79 | `[]` if any input is missing; otherwise at most four pairs, strictly increasing, after the current age, with the age difference kept; each pair lies exactly the shortest open gap past the previous pair (the first, past the current ages); after the last pair no threshold is left to cross |
| Utils.AddKeyValue | utils/api/helpers/utils.ts:180-184 | a present key is kept; a missing one is set to the value |
| Utils.GrownResidence | utils/api/helpers/utils.ts:116-121 | the residence grows by exactly as many years as the age grew, and is `NaN` when the old age or residence is not a number |
| Utils.SetClientFields | utils/api/helpers/utils.ts:93-138 | only the client keys change: the age; the OAS default from 65; the residence as deferral residence, as locked residence, or grown with age (`GrownResidence`), capped at 40 and rounded down, or "NaN"; and the deferral length |
| Utils.SetPartnerFields | utils/api/helpers/utils.ts:140-175 | only the partner keys change: the age; the defaults from 60 and 65 added without replacing answers; the residence as the deferral residence or the locked residence rounded down, or grown with age (`GrownResidence`) and rounded down, or "NaN" |
| Utils.BuildQuery | utils/api/helpers/utils.ts:81-178 | the new query keeps every key it does not assign; it sets both ages; it adds five defaults only where missing; it writes the deferral and the two residences under their source conditions, with the exact values of `SetClientFields` and `SetPartnerFields` |
| Utils.StepsToEligibility | utils/api/helpers/utils.ts:211-217 | the step count reaches both minimums, and one step fewer would not |
| Utils.OasEligibilityWhenQualified | utils/api/helpers/utils.ts:200-207 | a client who already qualifies became eligible between 65 and now, with at least the minimum residence |
| Utils.OasEligibilityWhenNotQualified | utils/api/helpers/utils.ts:208-221 | a client who does not qualify yet is eligible at a whole age of 65 or more, after the current age; a year earlier they would not have qualified |
| Utils.OasEligibilityOf | utils/api/helpers/utils.ts:186-229 | the age of eligibility is never under 65, is no later than now for a client who already qualifies, and a client who lived only in Canada has 40 years |
| Utils.MinYearsOfResidence | utils/api/helpers/utils.ts:195 | the residence minimum is a whole number of years, at least 10 |
| Utils.OasEligibility | utils/api/helpers/utils.ts:186-229 | the stepping loop returns the closed form `OasEligibilityOf` |
| Utils.OasEligibilityRoundedDown | utils/api/helpers/utils.ts:218-221 | at 66.8 with 9.2 years, the reported eligibility is age 67 with 9 years, under the 10-year minimum, because the age is rounded down before the residence is counted |
| Utils.OasResidenceAtRoundedAge | utils/api/helpers/utils.ts:207-221 | for a client already 65 carried forward only by residence, the age is rounded down after the whole-year steps, and the residence counted there is within one year of the minimum on either side |
| Utils.AlwsEligibilityWindow | utils/api/helpers/utils.ts:231-255 | undefined exactly when 60 and 10 years are already reached; otherwise a reported age lies in 60 to 64, is the first whole-year step that reaches both, and carries the residence at that age; past 64 the age is `null` |
| Utils.AlwsEligibilityOf | utils/api/helpers/utils.ts:231-255 | the age is `undefined` exactly when 60 and 10 years are already reached, and then so is the residence; a reported age lies after the current age and no later than 64 |
| Utils.AlwsEligibility | utils/api/helpers/utils.ts:231-255 | the stepping loop returns the closed form `AlwsEligibilityOf` |
| Utils.DeferralMonths | utils/api/helpers/utils.ts:270-279 | the deferral is never negative; from an age of eligibility of at least 65 it is at most 60 months, non-zero exactly when the age of eligibility is below both the current age and 70, and then 12 months for each year between the age of eligibility and the current age capped at 70 |
| Utils.EvaluateOasInput | utils/api/helpers/utils.ts:257-315 | see the bullet below the table |
| Utils.DeferredInputIsAtEligibility | utils/api/helpers/utils.ts:257-315 | see the bullet below the table |
| Utils.CalculateFutureYearMonth | utils/api/helpers/utils.ts:317-342 | the result is the birth month moved forward by the whole months of age; from a non-negative birth month, the month lies in 1 to 12 |
| Utils.WholeMonthsOfAge | utils/api/helpers/utils.ts:319-320 | whole years plus the leftover whole months make up the whole months of age, and the leftover is 0 to 11 |

What two rows state in full:

- `Utils.EvaluateOasInput`:
  - The client can defer exactly when the age of eligibility is below both the current age and 70, and OAS is not already received.
  - The client "just became eligible" exactly when the current age equals the age of eligibility and is below 70.
  - Otherwise the input comes back unchanged.
  - On deferral, the input moves to the age of eligibility:
    - it receives OAS;
    - the residence is at most 40;
    - the deferral is 0 to 60 whole months: `Math.round` of 12 months for each year from the age of eligibility to the current age, capped at 70;
    - for a client who did not live only in Canada, the residence is the old residence less the years since eligibility, rounded down and capped at 40;
    - no other field changes.
- `Utils.DeferredInputIsAtEligibility`: for a client who did not live only in Canada, evaluating the deferred input again gives "just became eligible" and "cannot defer".

## Findings

| source | as written | input that shows it | evidently intended | confidence | as-written member | corrected member |
|---|---|---|---|---|---|---|
| utils/api/benefits/afsBenefit.ts:18-19 | the AFS constructor calls `super(input, translations)` without the third parameter `benefitKey` of utils/api/benefits/_base.ts:22-26, so the key is `undefined` | any input: an eligible client's card links are `links.apply[undefined]` and `links.overview[undefined]`, and `info.benefitKey` is `undefined` | pass the AFS benefit key, so that the links and `info` name the AFS benefit | not executed; the two-argument call does not type-check against the three-parameter constructor, so the deployed build may differ | AfsBenefit.NewAfsBenefit, AfsBenefit.UnkeyedLinksNameNoBenefit | AfsBenefit.NewKeyedAfsBenefit, AfsBenefit.KeyedAfsLinks |

## Left out

- Floating point:
  - JavaScript numbers are modelled as exact reals.
  - Rounding differences of IEEE doubles, `NaN` arithmetic and `Infinity` are not captured.
  - A missing or non-numeric value is `None`.
- `roundToTwo`:
  - `helpers/roundToTwo.ts` is not part of this model.
  - It is taken to round half up to cents, the usual `Math.round(x * 100) / 100`.
- Rate table: the values of `scrapers/output` are not part of this model. `LegalValues` is a parameter.
  - The formula lemmas about the top-up assume the rate table's `Valid()` predicate: both top-ups are non-negative.
- Translations: texts and links are not modelled; the translation tables are not part of this model.
  - A detail is a `DetailKey` constructor.
  - A link is `ApplyLink` or `OverviewLink` of the benefit key. The key is `None` when the subclass passes none, which stands for the entry looked up under `undefined`.
  - The `autoEnrollTrue` text appended in `getCardText` is left out, because the text is set to `null` just after.
- Card metadata: `getCardCollapsedText` always returns `[]`, which the model keeps. `getMetadata` always returns `{}`; it is not modelled, and `CardDetail` has no `meta` field.
- Object aliasing: in the source, `getCardText` mutates the very objects the getters returned. The model rewrites the cached values instead, so it captures what later getter calls see, but not aliases that callers kept.
- AFS income: `afsBenefit.ts` reads `this.income`, which `_base.ts` does not declare. The model reads the processed input's income. An absent income fails every `<` comparison, as `undefined` does.
- `buildQuery`:
  - Only the keys the rewrite reads or writes are fields.
  - Every other key sits in `others` and is kept unchanged. A key in `others` is assumed not to be one of the named keys.
  - `String(n)` is the `Numeral` constructor, and parsing a query text is a parameter.
  - The two ages are in an `ageSet` array in the source and are separate parameters here.
- `evaluateOASInput`:
  - The form input is reduced to the fields it reads and writes.
  - `JSON.stringify({months, years})` is the `DeferDuration` record.
  - `consoleDev` logging is left out.
  - The source reads `input.yearsInCanada` (a field that does not exist) on the branch where the client is not past the age of eligibility. That value is only used when the client can defer, which needs the opposite branch, so the model does not compute it.
- `EntitlementFormula.NonIncreasingWithinMode`: for ALW, AFS and PARTNER_ALW, the amount is proved never to rise with income only within LOW and within HIGH. Whether it can rise across the LOW→STATIC or STATIC→HIGH boundary is not promised, because that depends on the rate-table values, which are a parameter. For instance, STATIC for ALW pays a rounded `maxGisAmountSingleAlw - maxGisTopupPartner`, which the LOW amount never reads, and STATIC pays no top-up while HIGH adds one. The three bracketless situations are covered for all incomes by `EntitlementFormula.BracketlessNonIncreasing`.
- `Utils.EvaluateOasInput`: `Math.round` of a deferral shorter than half a month gives 0 months while `canDefer` is true. The contract therefore promises 0 to 60 months, not 1 to 60.
- `OasEligibility`: the default arguments (`livedOnlyInCanada = false`, `livingCountry = 'CAN'`) are ordinary parameters here.
- `getAgeArray`: the residency data object is flattened into four optional numbers.
- `getEligibleBenefits`:
  - The benefits object is a map.
  - A benefit's optional `eligibility?.result` is read through a function parameter.
  - The source iterates keys in JavaScript object order; the model picks any remaining key, and the result does not depend on the order.
- `Utils.YearsUntilOasMeaning` and `Utils.YearsUntilAlwMeaning`: the two local helpers of `getAgeArray` are top-level functions, and their facts sit in these lemmas.
- Gaps (`Utils.Gaps`): its contract states only that there are four gaps. Which gap sits at which index (client ALW, client OAS, partner ALW, partner OAS) is its definition, and the proofs of `GetAgeArray` read it from there.
- Enumerations: `definitions/enums.ts` and `helpers/fieldClasses.ts` are not part of this model, so the value sets and their helper predicates are chosen here.
  - Marital status: the six answers of the form, plus `Partnered`, which the future handler compares against. Single, widowed, divorced and separated count as `single`. Married, common-law and partnered count as a couple.
  - Partner benefits: the seven answers of the form. Full or partial OAS, with or without GIS, count as `anyOas`.
  - Legal status: the five answers of the form, plus `Yes`, the value the future-age query gives a partner who did not answer. Citizen, permanent resident (not sponsored), Indian status and `Yes` count as `canadian`.
- The benefit subclasses other than AFS, the benefit handler, the future handler and the web layer are not part of this model.
