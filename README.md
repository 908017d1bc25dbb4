# finplan tax engine, tax registry and asset records in Dafny

This project models the tax core of finplan, a personal financial-planning
tool, and proves properties of it:

- **Tax engine** (`src/services/taxCalculator.ts`, module `TaxCalculator`):
  - `calculateProgressiveTax` copies the bracket list, sorts the copy by
    threshold and walks it. Each bracket adds `slice × rate / 100`, and the
    walk stops at the first threshold the amount does not exceed.
  - `calculateTax` returns 0 for a non-positive amount. It subtracts an
    optional exemption, then applies a flat rate, else the brackets, else
    returns 0.
  - `resolveTaxOption` maps a stored tax id to a registry option. It
    handles the sentinels `none`, `after-tax` and `default` and checks the
    option's kind.
  - `calculateMonthlyTax` and `calculateMonthlyIncomeTax` convert between
    annual and monthly amounts.
- **Bracket sort** (module `BracketSort`): the stable sort of the copied
  bracket list (line 67 of `taxCalculator.ts`). It appears twice:
  - `SortByThreshold`, a specification on sequences;
  - `SortInPlace`, an insertion sort on an array, proved equal to it.
- **Tax registry** (`src/config/taxConfig.ts`, module `TaxConfig`):
  - the NL, US and GB configurations as constant data, with notes and
    names as written;
  - the lookups `getTaxConfig`, `getTaxOptions`, `getDefaultTaxOption` and
    `findTaxOption`;
  - `SUPPORTED_COUNTRIES`;
  - the registry invariants the type's documentation states.
- **Asset records** (`src/models/assets.ts`, module `Assets`): liquid and
  fixed assets as immutable datatypes. Each has a validating constructor,
  `with`, a JSON form and the two type guards.
- **Examples** (module `TaxExamples`): the expected values of
  `src/services/__tests__/taxCalculator.test.ts` as lemmas, proved exactly.

Modelling choices:

- Money and rates are `real`. There is no rounding and no floating-point
  error, so the test file's approximate expectations hold exactly.
- TypeScript's `undefined` is `Option.None`. A thrown `Error` is
  `Result.Failure` carrying the source's message.
- A "falsy" string is an absent one or `""` (`Wrappers.Present`).
- `calculateProgressiveTax` is a method over an array. Its frame names no
  array, so the caller's array is left unchanged.
  - It copies the input into a fresh array and sorts it in place
    (`BracketSort.SortInPlace`).
  - It then runs the original loop with its `break` (`TaxCalculator.WalkSorted`).
  - The loop invariant ties the running total to the recursive
    specification `Accrued`.
- `calculateTax`, `resolveTaxOption` and the period helpers are functions.
  `calculateTax` only reassigns its parameter.
- The registry is a sequence of `(code, config)` pairs in the order its keys
  are written (NL, US, GB). This is the order `Object.values` walks in
  `findTaxOption`.
- `SUPPORTED_COUNTRIES` sorts the keys by UTF-16 code unit, as
  `Array.prototype.sort` does without a comparator.
- `crypto.randomUUID()` in `fromJSON` becomes a `freshId` parameter.

The registry's UK income option (`gb-income`) both subtracts the 12,570
personal allowance as an exemption and starts its brackets at 12,570. The
model keeps the data as written. `TaxExamples.GbIncomeNothingUpTo` shows
the outcome: no amount up to 25,140 owes anything. `TaxExamples.GbIncomeAsConfigured`
adds that 60,000 owes 6,972.

`calculateTax` in `src/services/taxCalculator.ts` takes only an amount and an
option. No threshold is scaled for inflation anywhere in the modelled code,
so the model has no inflation adjustment.

## Model

| member | source | states |
|---|---|---|
| TaxConfig.SupportedCountries | src/config/taxConfig.ts:345 | the supported codes are sorted in code-unit order and are a permutation of the registry keys |
| TaxConfig.SupportedCountriesValue | src/config/taxConfig.ts:336-345 | the supported codes are exactly `GB`, `NL`, `US` in that order |
| TaxConfig.LookupConfig | src/config/taxConfig.ts:350-352 | a registry read is absent exactly when no entry has the key; a present result is the config stored under that key |
| TaxConfig.GetTaxConfigCases | src/config/taxConfig.ts:336-352 | `getTaxConfig` returns the NL, US or GB config for those three codes and nothing for any other string |
| TaxConfig.GetTaxOptionsEmptyIffUnknown | src/config/taxConfig.ts:357-374 | the option list of a kind is empty exactly when the country is unknown |
| TaxConfig.FirstDefault | src/config/taxConfig.ts:384 | the result is absent iff no option is a default; otherwise it is the first default in the list |
| TaxConfig.GetDefaultTaxOption | src/config/taxConfig.ts:379-385 | what it returns is a default of the requested kind taken from the requested country's list of that kind; it returns nothing exactly when that list holds no default |
| TaxConfig.FindById | src/config/taxConfig.ts:397-403 | the result is absent iff no option has the id; otherwise it is the first option carrying it |
| TaxConfig.FindTaxOption | src/config/taxConfig.ts:390-419 | a found option carries the requested id and belongs to the registry; with a country it is one of that country's options and is found exactly when that country lists the id; without one it is found exactly when some registry option carries the id |
| TaxConfig.FindAcrossIsFirstMatch | src/config/taxConfig.ts:405-418 | the country-by-country loop with early return equals one first-match search over all options in registry order |
| TaxConfig.FindTaxOptionScope | src/config/taxConfig.ts:394-418 | without a country the lookup is the first registry-wide match; with a supported country it is the first match among that country's income, wealth and capital-gains options; an unknown country finds nothing, with no fallback to a global search |
| TaxConfig.RegistryOptionsValue | src/config/taxConfig.ts:336-340 | the registry's options are NL's, then US's, then GB's, each country's taken income, then wealth, then capital gains |
| TaxConfig.CountryOptionsInRegistry | src/config/taxConfig.ts:357-374 | every option a country lists belongs to the registry |
| TaxConfig.RegistryKindsMatch | src/config/taxConfig.ts:96-327 | every option's kind is the kind of the list that holds it |
| TaxConfig.RegistryOneDefault | src/config/taxConfig.ts:36-37 | each list of each supported country has exactly one default, so `getDefaultTaxOption` finds a default of the requested kind exactly for the supported countries |
| TaxConfig.RegistryOneMechanism | src/config/taxConfig.ts:39-43 | every registry option sets exactly one of `rate` and `brackets` |
| TaxConfig.RegistryBracketsAscending | src/config/taxConfig.ts:96-327 | every bracket list in the registry is strictly ascending by threshold |
| TaxConfig.RegistryIdsUnique | src/config/taxConfig.ts:27-28 | option ids are pairwise distinct across all countries |
| TaxConfig.CountryIdsUnique | src/config/taxConfig.ts:27-28 | within each country, option ids are pairwise distinct |
| TaxConfig.CharOrderTotal | src/config/taxConfig.ts:345 | the position-by-position string order compares any two strings |
| BracketSort.SortByThresholdSorted | src/services/taxCalculator.ts:67 | the sorted copy is ordered by threshold and is a permutation of the input |
| BracketSort.SortByThresholdOfSorted | src/services/taxCalculator.ts:67 | a list already in order comes back unchanged |
| BracketSort.SortByThresholdStable | src/services/taxCalculator.ts:67 | the sort is stable: brackets sharing a threshold keep their input order |
| BracketSort.SortedUnique | src/services/taxCalculator.ts:67 | two ordered lists holding the same brackets in the same order per threshold are equal |
| BracketSort.SortIgnoresInputOrder | src/services/taxCalculator.ts:67 | inputs that agree on the order of each threshold's brackets sort to the same list |
| BracketSort.SortIgnoresPermutation | src/services/taxCalculator.ts:67 | with pairwise distinct thresholds, any two orderings of the same brackets sort to the same list |
| BracketSort.InsertAt | src/services/taxCalculator.ts:67 | one insertion step moves the next element into the sorted prefix and leaves the rest of the array alone |
| BracketSort.SortInPlace | src/services/taxCalculator.ts:67 | the in-place insertion sort leaves the array equal to the stable sort of its old contents |
| TaxCalculator.CalculateProgressiveTax | src/services/taxCalculator.ts:59-102 | the method returns the progressive tax of the caller's brackets; the caller's array is not in its frame |
| TaxCalculator.WalkSorted | src/services/taxCalculator.ts:69-101 | the loop with its `break` returns the walk's accrued tax from the first bracket |
| TaxCalculator.AccruedIsMarginalSum | src/services/taxCalculator.ts:71-99 | on a sorted list, stopping at the first threshold the amount does not exceed loses nothing: the walk equals the sum of `rate/100 × (min(amount, next threshold) − threshold)` over brackets below the amount |
| TaxCalculator.ProgressiveTaxIsMarginalSum | src/services/taxCalculator.ts:59-102 | the tax is 0 for a non-positive amount or an empty list, and otherwise the marginal sum over the brackets sorted by threshold |
| TaxCalculator.ProgressiveTaxNonNegative | src/services/taxCalculator.ts:59-102 | with no negative rate the tax is never negative |
| TaxCalculator.ProgressiveTaxMonotone | src/services/taxCalculator.ts:59-102 | with no negative rate a larger amount never owes less |
| TaxCalculator.MarginalSumLipschitz | src/services/taxCalculator.ts:69-101 | on a sorted list, raising the amount raises the tax of brackets `i` onwards by at most the top rate times the part of the raise above bracket `i`'s threshold |
| TaxCalculator.SortedLipschitz | src/services/taxCalculator.ts:69-101 | on a sorted list, raising the amount raises the tax by at most the top rate times the raise |
| TaxCalculator.ProgressiveTaxLipschitz | src/services/taxCalculator.ts:59-102 | with every rate between 0 and `top` percent, raising the amount from `a1` to `a2` raises the tax by between 0 and `top`% of `a2 − a1`, so the tax is continuous at every threshold; across 0 this needs non-negative thresholds |
| TaxCalculator.ProgressiveTaxIgnoresOrder | src/services/taxCalculator.ts:67 | with pairwise distinct thresholds the order in which brackets are listed does not change the tax |
| TaxCalculator.TiedBracketGetsNothing | src/services/taxCalculator.ts:84-90 | of two brackets with the same threshold the earlier gets an empty slice, so only the later one's rate applies |
| TaxCalculator.RegistryBracketsNeedNoSort | src/services/taxCalculator.ts:67 | for every registry schedule the sort is the identity, and for every positive amount the tax is the marginal sum over the brackets as listed |
| TaxCalculator.CalculateTax | src/services/taxCalculator.ts:23-50 | the tax is 0 for a non-positive amount, for an amount within the exemption, and for an option with neither rate nor brackets; with no negative rate it is never negative |
| TaxCalculator.ExemptionTaxesOnlyExcess | src/services/taxCalculator.ts:30-36 | above the exemption only `amount − E` is taxed: the same as the option without exemption applied to the excess |
| TaxCalculator.FlatRateIgnoresBrackets | src/services/taxCalculator.ts:39-41 | a flat rate gives `amount × rate/100`, brackets are ignored, and a zero rate gives 0 |
| TaxCalculator.BracketsWhenNoRate | src/services/taxCalculator.ts:44-46 | with no rate and no exemption the result is the progressive tax on the brackets |
| TaxCalculator.FlatRateIsOneBracket | src/services/taxCalculator.ts:39-46 | a flat rate is the same tax as one bracket from 0 at that rate |
| TaxCalculator.ExemptionIsZeroRateBand | src/services/taxCalculator.ts:30-41 | a non-negative exemption before a flat rate is the same tax as a 0% band up to the exemption followed by that rate |
| TaxCalculator.CalculateMonthlyTax | src/services/taxCalculator.ts:179-185 | twelve monthly amounts add up to the annual tax |
| TaxCalculator.CalculateMonthlyIncomeTax | src/services/taxCalculator.ts:198-210 | twelve months of tax equal the annual tax on twelve months of income, which is the monthly tax of the annualised income |
| TaxCalculator.FlatMonthlyIncomeTaxIsDirect | src/services/taxCalculator.ts:198-210 | under a flat rate without exemption, annualising changes nothing |
| TaxCalculator.ResolveTaxOption | src/services/taxCalculator.ts:118-167 | a resolved option is a registry option of the requested kind, and the id was present and not `none` or `after-tax`; for `default` it is a default from the given country's list of that kind; for any other id it carries that id and, when a country is given, is one of that country's options |
| TaxCalculator.RegistryIdsAreNotSentinels | src/services/taxCalculator.ts:123-131 | no registry id is empty or a sentinel, so no sentinel can shadow a stored option |
| TaxCalculator.ResolveSentinels | src/services/taxCalculator.ts:123-131 | an absent or empty id, `none` and `after-tax` resolve to nothing for any country and kind |
| TaxCalculator.ResolveDefault | src/services/taxCalculator.ts:134-147 | `default` resolves to the country's default of that kind, which exists exactly when a country is given and supported |
| TaxCalculator.FindByIdUnique | src/config/taxConfig.ts:397-403 | in a list with unique ids, searching for an option's id finds that option |
| TaxCalculator.ResolveRegisteredId | src/services/taxCalculator.ts:150-166 | every registry option resolves from its id without a country when asked for its own kind, and to nothing for another kind |
| TaxCalculator.ResolveCountryId | src/services/taxCalculator.ts:150-166 | every option of a supported country resolves from its id and that country when asked for its own kind, and to nothing for another kind |
| TaxCalculator.ResolveUnknownId | src/services/taxCalculator.ts:150-156 | an id no registry option carries resolves to nothing for any country |
| Assets.NewLiquidAsset | src/models/assets.ts:18-34 | construction fails with the source's message exactly when the amount is negative, and otherwise holds the given fields |
| Assets.NewFixedAsset | src/models/assets.ts:95-115 | construction fails with the source's message exactly when the amount is negative, and otherwise holds the given fields |
| Assets.Override | src/models/assets.ts:42-43 | an absent update keeps the current value and a supplied one replaces it |
| Assets.OverrideOptional | src/models/assets.ts:44-45 | an absent update keeps the current value, a supplied one replaces it, so a present value never becomes absent |
| Assets.WithLiquid | src/models/assets.ts:39-47 | `with` succeeds exactly when the resulting amount is non-negative and keeps the id; each of name, amount and the two tax ids keeps its old value when not supplied and takes the supplied value otherwise, so a tax id is never cleared |
| Assets.WithFixed | src/models/assets.ts:120-130 | `with` succeeds exactly when the resulting amount is non-negative and keeps the id; each of name, amount, rate, liquidation month and the two tax ids keeps its old value when not supplied and takes the supplied value otherwise |
| Assets.WithNothingIsIdentityLiquid | src/models/assets.ts:39-47 | on a valid liquid record an empty update gives the same record back |
| Assets.WithNothingIsIdentityFixed | src/models/assets.ts:120-130 | on a valid fixed record an empty update gives the same record back |
| Assets.WithAmountValidation | src/models/assets.ts:42-43 | an update without an amount succeeds on a valid record; a supplied amount succeeds iff it is non-negative, and 0 is kept |
| Assets.WithComposesLiquid | src/models/assets.ts:39-47 | updating a liquid record twice equals updating once with the second update laid over the first |
| Assets.WithComposesFixed | src/models/assets.ts:120-130 | updating a fixed record twice equals updating once with the second update laid over the first |
| Assets.LiquidToJson | src/models/assets.ts:53-62 | the stored form is tagged `liquid` and has no rate or liquidation month |
| Assets.FixedToJson | src/models/assets.ts:136-147 | the stored form is tagged `fixed` and keeps the liquidation month |
| Assets.NumberOrZero | src/models/assets.ts:71 | a missing number or a stored 0 reads as 0, and a non-zero one as itself |
| Assets.StringOr | src/models/assets.ts:69-70 | a falsy string reads as the fallback and any other as itself |
| Assets.LiquidFromJson | src/models/assets.ts:67-75 | reading fails exactly when the defaulted amount is negative; the id is the stored one or the fresh one, non-empty when either is; the name is the stored one or empty, the amount the stored one or 0, and the tax ids are carried over |
| Assets.FixedFromJson | src/models/assets.ts:152-162 | reading fails exactly when the defaulted amount is negative; the id, the name (or empty), the amount and rate (or 0), the liquidation month and the tax ids are as stored |
| Assets.JsonRoundTripLiquid | src/models/assets.ts:53-75 | reading back a written valid liquid record with a non-empty id reproduces every field |
| Assets.JsonRoundTripFixed | src/models/assets.ts:136-162 | reading back a written valid fixed record with a non-empty id reproduces every field |
| Assets.JsonEmptyIdReplaced | src/models/assets.ts:69 | a record with an empty id is read back with the fresh id instead |
| Assets.JsonReadIsStable | src/models/assets.ts:136-162 | every record a reader produces is valid, and writing and reading it again changes nothing |
| Assets.ExactlyOneKind | src/models/assets.ts:172-181 | every capital account satisfies exactly one of the two type guards |
| TaxExamples.FlatRateScenarios | src/services/__tests__/taxCalculator.test.ts:13-37 | 25% of 1000 is 250 and of 5000 is 1250; 0 and −1000 owe nothing |
| TaxExamples.ExemptionScenarios | src/services/__tests__/taxCalculator.test.ts:39-56 | with a 50000 exemption at 10%, 30000 and 50000 owe nothing, 60000 owes 1000 and 100000 owes 5000 |
| TaxExamples.NoMechanismScenario | src/services/__tests__/taxCalculator.test.ts:88-97 | an option with neither rate nor brackets owes nothing |
| TaxExamples.ThreeBracketScenarios | src/services/__tests__/taxCalculator.test.ts:100-134 | the 10/20/30% schedule gives 500, 1000, 2000, 9000, 12000 and 24000, and nothing for 0, −1000 or no brackets |
| TaxExamples.BracketOptionScenarios | src/services/__tests__/taxCalculator.test.ts:58-86 | `calculateTax` on a bracket option gives 500, 2000 and 12000 |
| TaxExamples.SingleBracketScenarios | src/services/__tests__/taxCalculator.test.ts:149-154 | one 15% bracket gives 1500 and 7500 |
| TaxExamples.UsScheduleScenarios | src/services/__tests__/taxCalculator.test.ts:156-182 | the 2024 US schedule gives exactly 6307.5 on 50000 and 17400 on 100000 |
| TaxExamples.UnsortedBracketsScenario | src/services/__tests__/taxCalculator.test.ts:136-147 | the same schedule listed out of order still gives 2000 on 15000 |
| TaxExamples.UnsortedBracketsOnArray | src/services/__tests__/taxCalculator.test.ts:136-147 | the method gives 2000 on the out-of-order array and leaves that array as it was |
| TaxExamples.TiedOrderMatters | src/services/taxCalculator.ts:67-99 | two 0-threshold brackets at 10% and 20% give 20 on 100 in one order and 10 in the other |
| TaxExamples.NegativeThresholdJumpsAtZero | src/services/taxCalculator.ts:63 | a bracket below zero makes the tax jump from 0 at amount 0 to 10.1 at amount 1 |
| TaxExamples.MonthlyScenarios | src/services/__tests__/taxCalculator.test.ts:252-366 | the monthly helpers give 1000, 1250, 1250, 1000, 0 and 200 |
| TaxExamples.AnnualisingMatters | src/services/taxCalculator.ts:198-210 | under brackets, 5000 a month owes 1000 a month, while taxing the month on its own would give 500 |
| TaxExamples.RealWorldScenarios | src/services/__tests__/taxCalculator.test.ts:368-457 | NL Box 1 gives 1846.5 a month, NL Box 3 gives 1290, UK CGT gives 700 and 0, and the four-bracket US schedule gives 8507.5/12 |
| TaxExamples.ResolveScenarios | src/services/__tests__/taxCalculator.test.ts:185-236 | absent ids, `none`, `after-tax` and a countryless `default` give nothing; `default` gives `nl-box1`, `us-federal-single` and `gb-income` |
| TaxExamples.ResolveByIdScenarios | src/services/__tests__/taxCalculator.test.ts:213-249 | `nl-box2` resolves to Box 2, an invalid id gives nothing, and `nl-box1` asked as a wealth tax gives nothing |
| TaxExamples.GbIncomeAsConfigured | src/config/taxConfig.ts:248-259 | the UK income option as configured owes nothing on 25140 and 6972 on 60000 |
| TaxExamples.GbIncomeNothingUpTo | src/config/taxConfig.ts:248-259 | every amount up to 25140 owes nothing under the UK income option, because the allowance is both exempted and repeated as the first threshold |
| TaxExamples.UsLongTermGainsAsConfigured | src/config/taxConfig.ts:197-208 | the US long-term gains schedule owes nothing on 40000 and 8306.25 on 100000 |
| TaxExamples.UsLongTermGainsNothingUpTo | src/config/taxConfig.ts:197-208 | every amount up to 44625 owes nothing under the US long-term gains schedule |

## Left out

- No inflation adjustment of thresholds exists in the modelled code, so none is modelled.
- Floating point is not modelled: amounts and rates are exact reals, with no rounding, NaN or infinities.
- The `console.warn` diagnostics in `resolveTaxOption` are a side channel and are not modelled; only the `null` result is.
- `crypto.randomUUID()` is a foreign, nondeterministic call. `fromJSON` takes its result as the `freshId` parameter.
- The `FinancialItem` base class and the `Month` type are not part of this model. `id`, `name` and `liquidationDate` are opaque strings.
- `fromJSON` on fields of the wrong JSON type (a string amount, say) is not modelled: every stored field is either absent or of its declared type.
- `null` and `undefined` are one value (`None`). The difference between `??` and `!== undefined` in `with` for an explicit `null` is not captured.
- Assets.NumberOrZero: a stored `NaN` amount, which `|| 0` would turn into 0, cannot arise on reals.
- The `continue` guard for a missing bracket inside the loop cannot fire on an array without holes, so it is not modelled.
- The `default:` branch of the `switch` in `getTaxOptions` cannot be reached with a `TaxType`, so it is not modelled.
- Country codes that name `Object.prototype` members (`"toString"`, `"constructor"`) are not modelled. The model's registry has only its three keys.
- String comparison is by Dafny `char`. Code-unit order agrees with it for the ASCII country codes of the registry.
- src/services/storage.ts, src/router/index.ts and src/config/itemTypes.ts are not part of this model: they are browser storage, UI routing and UI templates.
