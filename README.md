# Indonesian tax rule library — Dafny model

This project models the calculation core of an Indonesian tax calculator. The
core is a set of small pure functions. Each one turns a record of amounts,
flags and category tags into a record of intermediate figures and tax owed:

- **Article 17 progressive income tax.** Bands are 5% up to 50,000,000, 15% up
  to 250,000,000, 25% up to 500,000,000 and 30% above. The tax is given in
  closed form (`IncomeTaxSchedule.BracketTax`) and band by band
  (`PersonalTax.ProgressiveLayers`), and the two are proved equal. The PTKP
  exemption schedule (54,000,000 plus 4,500,000 for marriage and for each of
  at most three dependents) feeds it.
- **Employee withholding (PPh 21).** Position cost, annualisation, optional
  PTKP, bracket tax, then 1.2 times the tax without an NPWP (tax
  identification number).
- **Withholding at flat or table rates.** PPh 22 (imports and procurement),
  PPh 23 (services and rent), PPh 26 (payments abroad, treaty override), PPN
  with PPnBM (VAT with a luxury surcharge), PPh 15 (shipping, aviation,
  drilling, foreign construction), and the corporate and personal final tax of
  Article 4(2).
- **Personal taxes.** The general progressive tax and the NPPN tax (net income
  presumed as a margin of turnover). Both report a band breakdown and a
  separate 20% no-NPWP penalty. The 0.5% turnover tax of Government
  Regulation PP 23/2018 is modelled too.
- **Annual corporate settlement (PPh 29).** It returns either a remaining
  amount due or an overpayment, never both.

Amounts are Rupiah, modelled as exact `real`. Category tags are datatypes whose
last constructor (`Unlisted…`, `OtherTransaction`, `RegularImport`) stands for
every tag the source's `switch` or lookup table does not match.

Modules:
- `TaxCommon` (tax_common.dfy) holds `Option`, `Min`/`Max` (the source's
  `Math.min`/`Math.max`), `PercentOf` (`amount * (rate / 100)`) and the 1.2
  no-NPWP factor.
- `IncomeTaxSchedule` (income_tax_schedule.dfy) holds PTKP, the bracket tax
  and the band shares.
- `CorporateTax` (corporate_tax.dfy) models `internal/corporateTax.js`.
- `PersonalTax` (personal_tax.dfy) models `internal/personalTax.js`.
- `CorporatePPh4Ayat2`, `PPh15` and `PPh29` model the calculation functions
  defined inside the corporate calculator components.

Two details of the source that the model keeps as written:
- The corporate Article 4(2) calculation
  (`src/modules/taxCalculator/ui/CorporateTaxCalculator/PPh4Ayat2Calculator.jsx:38-73`)
  and the personal one (`src/modules/taxCalculator/internal/personalTax.js:270-283`)
  use different rate tables, and each keeps its own.
- `parseInt(dependents)` is only capped from above by `Math.min(…, 3)`;
  dependents are a `nat`.

## Model

| member | source | states |
|---|---|---|
| IncomeTaxSchedule.Ptkp | src/modules/taxCalculator/internal/corporateTax.js:35-48 | PTKP is at least 54,000,000 and at most 72,000,000, and at least 58,500,000 for a married taxpayer |
| IncomeTaxSchedule.PtkpSchedule | src/modules/taxCalculator/internal/personalTax.js:20-29 | each dependent up to the third adds 4,500,000 and later ones add nothing; marriage adds 4,500,000; single with no dependents is 54,000,000; married with two is 67,500,000 |
| IncomeTaxSchedule.BracketTax | src/modules/taxCalculator/internal/corporateTax.js:56-65 | no tax on a non-positive income; otherwise the tax lies between 5% and 30% of the taxable income |
| IncomeTaxSchedule.BracketTaxOnBand | src/modules/taxCalculator/internal/corporateTax.js:56-65 | inside each band the tax is the tax at the band's floor plus the band's rate on the excess, so the schedule is continuous at 50M, 250M and 500M; the marginal rate strictly rises from band to band |
| IncomeTaxSchedule.BracketTaxMarginal | src/modules/taxCalculator/internal/corporateTax.js:56-65 | for 0 ≤ a ≤ b the tax rises by at least 5% and at most 30% of b − a, so it is non-decreasing and continuous |
| IncomeTaxSchedule.BracketTaxExample | src/modules/taxCalculator/internal/corporateTax.js:56-65 | 114,000,000 of taxable income owes 12,100,000 |
| IncomeTaxSchedule.BandShare | src/modules/taxCalculator/internal/personalTax.js:40-76 | a band's amount is never negative, never exceeds its width (50M, 200M, 250M for the first three bands) and is zero when the income does not reach the band |
| IncomeTaxSchedule.BandTax | src/modules/taxCalculator/internal/personalTax.js:41-77 | the tax on a band's amount is never negative |
| IncomeTaxSchedule.BandSharesPartitionIncome | src/modules/taxCalculator/internal/personalTax.js:38-86 | for a positive taxable income the four band amounts add up to exactly the taxable income |
| IncomeTaxSchedule.BandTaxesSumToBracketTax | src/modules/taxCalculator/internal/personalTax.js:38-86 | the sum of the four band taxes equals the closed-form bracket tax of corporateTax.js |
| CorporateTax.CalculatePPh21 | src/modules/taxCalculator/internal/corporateTax.js:6-87 | position cost is the smaller of 5% of gross and 500,000; PTKP is 0 without the exemption flag; taxable income is max(0, 12·net − PTKP) and never negative; annual tax is the bracket tax, times 1.2 without NPWP, never negative; 12 × monthly tax = annual tax |
| CorporateTax.PPh21NoNpwpSurcharge | src/modules/taxCalculator/internal/corporateTax.js:67-71 | for the same inputs, the annual tax without NPWP is exactly 1.2 times the annual tax with NPWP, and the taxable income is the same |
| CorporateTax.PPh21ZeroTaxableIncome | src/modules/taxCalculator/internal/corporateTax.js:54-74 | zero taxable income gives zero annual and monthly tax, with or without NPWP |
| CorporateTax.PPh21Example | src/modules/taxCalculator/internal/corporateTax.js:19-74 | salary 10,000,000 with no exemption: position cost capped at 500,000, annual taxable income 114,000,000, annual tax 12,100,000 |
| CorporateTax.PPh22BaseRate | src/modules/taxCalculator/internal/corporateTax.js:108-150 | the base rate before any surcharge lies in 0.3..7.5; a soybean import gets 0.5; a regular import gets 2.5 exactly when API-U is held (7.5 otherwise); an unmatched category gets 1.5 |
| CorporateTax.PPh22BaseNote | src/modules/taxCalculator/internal/corporateTax.js:108-150 | there is no note (the source's `null`) exactly for government payments, state-owned-company purchases and unmatched categories; every import, automotive, oil and luxury transaction carries one |
| CorporateTax.PPh22RateSelection | src/modules/taxCalculator/internal/corporateTax.js:108-150 | soybean imports 0.5 and special imports 7.5 regardless of API-U; regular imports 2.5 with API-U, else 7.5; unmatched category 1.5; outside imports API-U is irrelevant; every base rate lies in 0.3..7.5 |
| CorporateTax.CalculatePPh22 | src/modules/taxCalculator/internal/corporateTax.js:94-167 | rate is the base rate, times 1.2 without NPWP; tax = value·rate/100, non-negative for a non-negative value; with NPWP the note is the base note; without it the note is always present and is the base note (or empty) followed by the surcharge text |
| CorporateTax.PPh22SoybeansExample | src/modules/taxCalculator/internal/corporateTax.js:108-156 | a soybean import pays 0.5 with NPWP and 0.6 without, whatever the API-U flag |
| CorporateTax.CalculatePPh23 | src/modules/taxCalculator/internal/corporateTax.js:174-197 | rate is 2 for rent and other activities and 15 otherwise, times 1.2 without NPWP; tax = amount·rate/100, between 0 and 18% of a non-negative amount |
| CorporateTax.CalculatePPh26 | src/modules/taxCalculator/internal/corporateTax.js:204-231 | standard rate is always 20; the applied rate is the treaty rate exactly when a treaty applies and the treaty rate is non-zero, otherwise 20; tax = amount·appliedRate/100 |
| CorporateTax.PPh26TreatyNeverRaisesTax | src/modules/taxCalculator/internal/corporateTax.js:212-222 | with a treaty rate in 0..20 and a non-negative amount, the tax is between 0 and the tax at the standard 20% |
| CorporateTax.PpnbmRate | src/modules/taxCalculator/internal/corporateTax.js:251-274 | the PPnBM rate lies in 0..50 and is 0 exactly for the empty selection or an unknown category |
| CorporateTax.PpnbmRateTable | src/modules/taxCalculator/internal/corporateTax.js:251-274 | the PPnBM rate is one of 0, 10, 20, 30, 40, 50, and it is 0 exactly for no category or an unknown one |
| CorporateTax.CalculatePPN | src/modules/taxCalculator/internal/corporateTax.js:238-290 | PPN rate 11 and ppn = 11% of the value; PPnBM from the tier table; total = ppn + ppnbm, between ppn and 61% of a non-negative value |
| CorporateTax.PPNExample | src/modules/taxCalculator/internal/corporateTax.js:245-280 | 100,000,000 in category 3 gives ppn 11,000,000, ppnbm 30,000,000 and total 41,000,000 |
| PersonalTax.SumsOfConcat | src/modules/taxCalculator/internal/personalTax.js:35-86 | the running totals of layer taxes and amounts add up over concatenated breakdowns |
| PersonalTax.BreakdownShape | src/modules/taxCalculator/internal/personalTax.js:38-86 | the breakdown has at most four lines; line i is band i; band k is listed exactly when its amount is positive; the breakdown is empty exactly when taxable income is not positive |
| PersonalTax.BreakdownTotals | src/modules/taxCalculator/internal/personalTax.js:38-86 | the breakdown's amounts sum to max(0, taxable income) and its taxes to the closed-form bracket tax |
| PersonalTax.ProgressiveLayers | src/modules/taxCalculator/internal/personalTax.js:35-86 | the accumulated total equals the closed-form bracket tax of corporateTax.js:56-65 and the sum of the recorded lines; lines are the reference breakdown, only positive amounts, each with tax = amount·rate/100, rates strictly increasing (5, 15, 25, 30 order); empty exactly when taxable income is 0 |
| PersonalTax.Assess | src/modules/taxCalculator/internal/personalTax.js:18-90 | PTKP is always deducted; taxable income = max(0, net − PTKP) ≥ 0; total tax is the bracket tax with its breakdown; penalty is 0.2·total without NPWP and 0 with it; total with penalty = total + penalty = 1.2·total without NPWP |
| PersonalTax.AssessmentNpwpIndependent | src/modules/taxCalculator/internal/personalTax.js:88-90 | the NPWP flag leaves taxable income, total tax and breakdown unchanged; it only adds a penalty making the total 1.2 times the tax |
| PersonalTax.CalculateGeneralPersonalIncomeTax | src/modules/taxCalculator/internal/personalTax.js:6-103 | net income = gross − deductions, echoes gross and deductions, and the assessment of that net income satisfies every property of Assess |
| PersonalTax.GetNPPNRate | src/modules/taxCalculator/internal/personalTax.js:254-267 | the presumed margin lies in 10..30 and an unmatched business type gets the default 12.5 |
| PersonalTax.NppnRateTable | src/modules/taxCalculator/internal/personalTax.js:254-267 | margins lie between 10 and 30; an unmatched business type gets 12.5, the same as "other"; agriculture 14.5, services 17.5 |
| PersonalTax.CalculateNPPN | src/modules/taxCalculator/internal/personalTax.js:131-230 | net income = turnover·margin/100, between 10% and 30% of a non-negative turnover, then assessed as in Assess |
| PersonalTax.CalculatePPh23Final | src/modules/taxCalculator/internal/personalTax.js:110-124 | rate 0.5 and tax = 0.005·turnover, between 0 and the turnover when the turnover is non-negative |
| PersonalTax.GetPPh4Ayat2Rate | src/modules/taxCalculator/internal/personalTax.js:270-283 | the personal final-tax rate lies in 0.1..25 and an unmatched income type gets the default 10 |
| PersonalTax.PPh4Ayat2RateTable | src/modules/taxCalculator/internal/personalTax.js:270-283 | personal final-tax rates lie between 0.1 and 25; unmatched → 10; land and building sale 2.5; IPO 0.5 |
| PersonalTax.CalculatePPh4Ayat2 | src/modules/taxCalculator/internal/personalTax.js:237-251 | the rate comes from the table with no NPWP surcharge; tax = amount·rate/100, between 0.1% and 25% of a non-negative amount |
| CorporatePPh4Ayat2.TableRate | src/modules/taxCalculator/ui/CorporateTaxCalculator/PPh4Ayat2Calculator.jsx:38-73 | the corporate table rate lies in 0.1..25 and an unmatched income type gets the default 10 |
| CorporatePPh4Ayat2.TableDescription | src/modules/taxCalculator/ui/CorporateTaxCalculator/PPh4Ayat2Calculator.jsx:38-73 | the description is empty exactly for an unmatched income type; every listed type has its own text |
| CorporatePPh4Ayat2.RateTable | src/modules/taxCalculator/ui/CorporateTaxCalculator/PPh4Ayat2Calculator.jsx:38-73 | the corporate table: propertyRental 10, construction 2, execution 3, supervision 4, private shares 0.1, bond interest 15, deposit 20, lottery 25; unmatched 10 with an empty description |
| CorporatePPh4Ayat2.CalculatePPh4Ayat2 | src/modules/taxCalculator/ui/CorporateTaxCalculator/PPh4Ayat2Calculator.jsx:31-85 | the rate is the table rate, times 1.2 only when NPWP is missing and the type is property rental or one of the three construction services; the suffix is appended to the description under the same condition; tax = amount·rate/100; the amount is echoed |
| CorporatePPh4Ayat2.NpwpIrrelevantOutsideSurchargeCategories | src/modules/taxCalculator/ui/CorporateTaxCalculator/PPh4Ayat2Calculator.jsx:76-79 | for shares, bonds, deposits, lottery and unmatched types the whole result is the same with or without NPWP |
| CorporatePPh4Ayat2.SurchargeNoteIffSurcharged | src/modules/taxCalculator/ui/CorporateTaxCalculator/PPh4Ayat2Calculator.jsx:76-79 | the description carries the surcharge suffix if and only if the surcharge applies, and the rate differs from the table rate if and only if it applies |
| PPh15.TableRate | src/modules/taxCalculator/ui/CorporateTaxCalculator/PPh15Calculator.jsx:36-54 | the deemed rate lies in 1.8..4.5 and an unmatched business type gets the default 2.64 |
| PPh15.RateTable | src/modules/taxCalculator/ui/CorporateTaxCalculator/PPh15Calculator.jsx:36-54 | an unmatched business type gets 2.64 like shipping; all rates lie between 1.8 and 4.5 |
| PPh15.CalculatePPh15 | src/modules/taxCalculator/ui/CorporateTaxCalculator/PPh15Calculator.jsx:31-65 | the rate is the table rate with NPWP and exactly 1.2 times it without; tax = gross·rate/100, between 0 and 5.4% of non-negative gross income; gross income is echoed |
| PPh15.TaxMonotoneInIncome | src/modules/taxCalculator/ui/CorporateTaxCalculator/PPh15Calculator.jsx:57-62 | for non-negative income, more gross income never gives less tax |
| PPh29.CorporateRate | src/modules/taxCalculator/ui/CorporateTaxCalculator/PPh29Calculator.jsx:41-49 | the corporate rate lies in 11%..22% and is 11% exactly for a small or medium enterprise (22% otherwise) |
| PPh29.CalculatePPh29 | src/modules/taxCalculator/ui/CorporateTaxCalculator/PPh29Calculator.jsx:32-65 | taxable income = max(0, net − loss) ≥ 0; corporate tax is 11% (SME) or 22% of it; remaining tax and overpayment are ≥ 0 and at most one is non-zero; remaining − overpayment = corporate tax − paid; isOverpaid ⇔ paid > corporate tax ⇔ overpayment > 0 |
| PPh29.SettledExactly | src/modules/taxCalculator/ui/CorporateTaxCalculator/PPh29Calculator.jsx:52-55 | nothing due and nothing overpaid exactly when the tax paid equals the corporate tax |
| PPh29.SettlementExample | src/modules/taxCalculator/ui/CorporateTaxCalculator/PPh29Calculator.jsx:36-63 | net income 500,000,000, no loss, 50,000,000 paid, not SME: corporate tax 110,000,000, remaining 60,000,000, no overpayment |

## Left out

- React state, form handling and the `parseFloat(...) || 0` / `parseInt(...) || 0` coercion in every calculator component. The model's operations take numeric arguments that have already been coerced.
- Navigation, selectors and static content (`App.jsx`, the routers, the tax-type selectors, header, footer, badge). They hold no calculation logic.
- Number formatting through `Intl.NumberFormat` (`formatLayerAmount`, `src/shared/utils/formatting.js`, `CurrencyInput.jsx`). It is a foreign library call. A breakdown line is modelled as (rate, amount, tax), not as its formatted description string.
- IEEE-754 rounding of JavaScript numbers. All arithmetic is exact `real`, so for example 0.5·1.2 is exactly 0.6.
- `parseInt` of the dependent count inside the core. Dependents are a `nat`, capped at three as the code does.
- Inputs that are read but never used have no behaviour. `isPermanent` (PPh 21), `transactionType` (PPN) and `incomeType` (PPh 26) are carried in the input records and ignored. The turnover argument of `getNPPNRate` is dropped.
- Lookups of JavaScript property names inherited by the rate tables' objects (a tag such as `toString`) are not modelled. Every unmatched tag gets the default rate.
- The general personal tax and the NPPN tax return one flat record in the source; the model groups the PTKP, taxable income, breakdown, tax and penalty fields into a nested `Assessment`, with the same values.
