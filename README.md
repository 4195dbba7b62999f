# APS normalisation, health check and feed routing — a Dafny model

This project models the core of the APS (Appreciated Property Score) data engine:

- **`normalize_and_score`** (`engine/aps_normalize.py`). It resolves each record's property value, loan balance and
  last loan date from vendor or canonical column names. From them it derives:
  - LTV %, Equity % and Equity Dollars;
  - the loan age in months;
  - the APS v2.0 score and the APS tier;
  - the CCI (Credit Confidence Index).

  It writes these into the caller's DataFrame, then returns a copy without its three working columns.
- **`health_check`** (`engine/aps_healthcheck.py`). It runs 17 data-quality checks, each graded PASS / WARN / FAIL,
  and two of them can also grade INFO. An 18th entry rolls them up as EXCELLENT / GOOD / FAIR / POOR.
- **The feed registry and router** (`engine/aps_feed_config.py`):
  - the five feed types and the colour themes;
  - `detect_feed_type`: an explicit `feed_type` column first, then filename keywords, then column-name keywords, then
    the `core_equity` default;
  - the configuration, page-list, theme and page-rendering lookups.

The modules follow that structure:

| file | module | what it holds |
|---|---|---|
| `wrappers.dfy` | `Wrappers` | `Option` |
| `frames.dfy` | `Frames` | cells (text, number, missing, timestamp), rows as maps from column name to cell, and the mutable `Frame` class standing for a pandas DataFrame (`SetColumn` for a column assignment, `Drop` for `df.drop(columns=…)`) |
| `rounding.dfy` | `Rounding` | round-half-to-even to a number of decimal places, on exact reals |
| `numeric.dfy` | `Numeric` | the decimal text that `pd.to_numeric(errors='coerce')` accepts, and the `$`/`,`/whitespace cleaning of money columns |
| `scoring.dfy` | `Scoring` | the per-record formulas: LTV, equity, loan age, age score, APS score, tier rules, CCI |
| `normalize.dfy` | `Normalize` | `NormalizeAndScore` on a `Frame`, the per-record function it is proved against, and the properties of that function |
| `healthcheck.dfy` | `HealthCheck` | the 18 report entries as functions, `RunHealthCheck` (the missing-value loop), and the verdict properties |
| `feed_config.dfy` | `FeedConfig` | the registries, `DetectFeedType` and the lookups |

A few modelling choices:

- Date parsing (`pd.to_datetime(..., errors='coerce')`) is a parameter `parse: string -> Option<Date>`.
- The evaluation clock (`datetime.now()`) is a parameter `today: Date`.
- Every number is an exact real, and rounding is exact round-half-to-even.

A zero property value does not always give an LTV of 0. A positive balance over a zero value divides to +inf, and
`clip(0, 100)` turns that into 100. Only 0/0, which is NaN filled with 0, and a non-positive balance over zero (−inf
or NaN) give 0. `Scoring.LtvDegenerateCases` states all three cases.

## Model

| member | source | states |
|---|---|---|
| Frames.Get | engine/aps_normalize.py:358-360 | reading a column a row lacks gives a missing cell; otherwise the row's own cell |
| Frames.NumberOf | engine/aps_normalize.py:335 | a cell has a numeric value exactly when it is a number (NaN and text take no part in arithmetic) |
| Frames.DateOf | engine/aps_normalize.py:345-347 | a cell has a date exactly when it is a timestamp (NaT gives none) |
| Frames.ToDatetime | engine/aps_normalize.py:328 | `parse` applied to text; a timestamp is kept and a missing cell stays NaT |
| Frames.WithName | engine/aps_normalize.py:312 | assigning a column keeps the existing names and adds the new one only if absent (same set plus the name, still distinct) |
| Frames.Without | engine/aps_normalize.py:425 | dropping columns keeps exactly the names not dropped, in order and still distinct |
| Frames.Frame.constructor | engine/aps_normalize.py:303 | a frame with the given columns and rows, whose rows carry every column |
| Frames.Frame.SetColumn | engine/aps_normalize.py:312-354 | a column assignment: the name list grows by `WithName`, row i gets `values[i]` under the name and nothing else changes |
| Frames.Frame.Drop | engine/aps_normalize.py:425-427 | a fresh frame whose names are `Without(names, cols)` and whose row i is row i minus those keys; the receiver is unchanged |
| Rounding.NearestEven | engine/aps_normalize.py:335 | the nearest integer, within 0.5, and the even one on a tie |
| Rounding.Round | engine/aps_normalize.py:335 | rounding to p places gives a value with p decimals, at most half a unit in the last place away from the input |
| Rounding.RoundWithin | engine/aps_normalize.py:335-336 | rounding a value between two integers stays between them |
| Rounding.RoundOnGrid | engine/aps_normalize.py:339 | a value already with p decimals is unchanged by rounding to p places (rounding is idempotent) |
| Rounding.ComplementOnGrid | engine/aps_normalize.py:339 | an integer minus a p-decimal value has p decimals |
| Numeric.DotIndex | engine/aps_normalize.py:312 | the position of the first `.`, or the length when there is none |
| Numeric.ParseDecimal | engine/aps_healthcheck.py:49 | text that `to_numeric` accepts is non-empty and holds only digits and dots, with a sign allowed only in front |
| Numeric.RemoveChar | engine/aps_normalize.py:312 | `str.replace(c, '')` removes every `c` and keeps every other character |
| Numeric.StripLeading | engine/aps_normalize.py:312 | no leading whitespace remains, and text not starting with whitespace is unchanged |
| Numeric.StripTrailing | engine/aps_normalize.py:312 | no trailing whitespace remains, and text not ending in whitespace is unchanged |
| Numeric.CleanMoney | engine/aps_normalize.py:312 | cleaned money text holds no `$` or `,`, and neither starts nor ends with whitespace |
| Numeric.ParseMoney | engine/aps_normalize.py:312 | text that `to_numeric` already accepts reads as the same number after the money clean-up |
| Numeric.NatText | engine/aps_normalize.py:312 | the decimal spelling of a natural number is non-empty and all digits |
| Numeric.DigitsOfNatText | engine/aps_normalize.py:312 | reading the digits of a number's decimal spelling gives the number back (round trip) |
| Numeric.ParseNatText | engine/aps_normalize.py:312 | `to_numeric` of a number's decimal spelling is that number |
| Numeric.ParseNegativeNatText | engine/aps_normalize.py:312 | `to_numeric` of `-` followed by a number's spelling is its negation |
| Numeric.UnsignedChars | engine/aps_normalize.py:312 | unsigned text that parses consists of digits and a dot only |
| Numeric.ParseRejectsCurrencyMarks | engine/aps_healthcheck.py:49 | text holding `$` or `,` does not parse as a number |
| Numeric.MoneyOfPlainNumber | engine/aps_normalize.py:312 | money cleaning and parsing of a plain number's spelling gives the number |
| Numeric.RemoveCharConcat | engine/aps_normalize.py:312 | removing a character from two joined pieces of text removes it from each piece and keeps their order |
| Numeric.Grouped | engine/aps_normalize.py:312 | a number written with thousands commas consists of digits and commas only |
| Numeric.NatTextSplit | engine/aps_normalize.py:312 | a number of 1000 or more is spelled as its thousands followed by exactly three digits |
| Numeric.UngroupedText | engine/aps_normalize.py:312 | removing the commas from a number written with thousands commas gives its plain spelling |
| Numeric.MoneyOfGrouped | engine/aps_normalize.py:312 | money text such as "$300,000" or "300,000" reads as the number it writes out |
| Scoring.Clip | engine/aps_normalize.py:336 | the result lies in [0, 100] and equals the input when the input already does |
| Scoring.LtvPct | engine/aps_normalize.py:335-336 | LTV % always lies in [0, 100] and has two decimals |
| Scoring.LtvDegenerateCases | engine/aps_normalize.py:335-336 | an absent value or balance gives 0; a zero value gives 100 with a positive balance and 0 otherwise |
| Scoring.LtvTracksRatio | engine/aps_normalize.py:335-336 | with a non-zero value, LTV is 100 above the true ratio's 100, 0 below 0, and within 0.005 of the ratio between |
| Scoring.EquityPct | engine/aps_normalize.py:339 | an LTV in [0, 100] gives an equity % in [0, 100] |
| Scoring.EquityComplementsLtv | engine/aps_normalize.py:335-339 | Equity % + LTV % == 100 exactly, for every input |
| Scoring.EquityDollars | engine/aps_normalize.py:342 | equity dollars exist exactly when the property value does, within $0.50 of value × equity % / 100 |
| Scoring.MonthIndex | engine/aps_normalize.py:349-351 | for a month from 1 to 12, the month index gives back the year and the month |
| Scoring.LoanAgeMonths | engine/aps_normalize.py:345-354 | no date gives 0; a future month gives 0; otherwise the whole months between the two year-months |
| Scoring.LoanAgeIgnoresDay | engine/aps_normalize.py:349-351 | the day of the month of either date plays no part in the age |
| Scoring.NextMonth | engine/aps_normalize.py:349-351 | the following calendar month has the next month index |
| Scoring.LoanAgeAdvances | engine/aps_normalize.py:345-354 | one month later, a past loan is one month older |
| Scoring.AgeScore | engine/aps_normalize.py:366-373 | a non-negative age scores in [0, 100] |
| Scoring.RawApsScore | engine/aps_normalize.py:375-379 | the weighted combination lies in [0, 100] when equity and LTV do and the age is not negative |
| Scoring.AgeScoreBreakpoints | engine/aps_normalize.py:366-373 | the score is 0 at age 0, 100 across 18-36 months, 70 at 60, 40 from 120, and under 50 before 18 |
| Scoring.AgeScoreNonIncreasing | engine/aps_normalize.py:368-373 | from 18 months on, an older loan never scores higher |
| Scoring.AgeScoreRampIncreasing | engine/aps_normalize.py:366-367 | below 18 months, an older loan never scores lower |
| Scoring.ApsScore | engine/aps_normalize.py:357-380 | inputs in range give an APS score in [0, 100] |
| Scoring.ApsScoreOfComplement | engine/aps_normalize.py:375-378 | when equity is the LTV complement, the score is 0.70 × equity + 0.30 × age score, and lies in [0, 100] |
| Scoring.ApsScoreNearRaw | engine/aps_normalize.py:380 | rounding to one decimal moves the score by at most 0.05 |
| Scoring.AssignTier | engine/aps_normalize.py:385-397 | the tier's rule holds, and no higher tier's rule holds (the first matching rule wins) |
| Scoring.TierRulesNested | engine/aps_normalize.py:390-395 | meeting Platinum's thresholds meets Gold's, and meeting Gold's meets Silver's |
| Scoring.TierMonotoneInScore | engine/aps_normalize.py:385-397 | a higher score never lowers the tier |
| Scoring.TierAntitoneInLtv | engine/aps_normalize.py:385-397 | a higher LTV never raises the tier |
| Scoring.TierMonotoneInEquity | engine/aps_normalize.py:385-397 | more equity dollars never lower the tier |
| Scoring.TierWithoutEquityDollars | engine/aps_normalize.py:385-397 | with NaN equity dollars every comparison is false, so the tier is Nurture |
| Scoring.TierExamples | engine/aps_normalize.py:390-397 | score 85, LTV 25 and $600,000 is Platinum; the same with $100,000 is Nurture |
| Scoring.Qualifies | engine/aps_normalize.py:390-395 | meeting a tier above Nurture needs the score, the LTV and the equity dollars all present, as NaN fails every comparison |
| Scoring.EquityComponent | engine/aps_normalize.py:407-408 | the equity component is at most 40, and not negative for a non-negative equity |
| Scoring.LtvComponent | engine/aps_normalize.py:410-411 | the LTV component is not negative, and at most 35 for a non-negative LTV |
| Scoring.AgeComponent | engine/aps_normalize.py:413-418 | a non-negative age gives a component in [0, 25] |
| Scoring.RawCci | engine/aps_normalize.py:407-419 | the three components sum to a value in [0, 100] for non-negative inputs |
| Scoring.CciAgeComponentShape | engine/aps_normalize.py:413-418 | the component drops at 18 months (above 14.16 at 17, 7.5 at 18), is 25 × m / 60 from 18 to 60 and 25 beyond |
| Scoring.Cci | engine/aps_normalize.py:402-420 | non-negative inputs give a CCI in [0, 100] |
| Scoring.CciOfComplement | engine/aps_normalize.py:407-418 | when equity is the LTV complement, the CCI before rounding is 75 − 0.75 × LTV + the age component |
| Normalize.MoneyCell | engine/aps_normalize.py:312 | a number passes through; text becomes a number exactly when the money reading accepts it, and then that number; any other cell becomes NaN |
| Normalize.Value | engine/aps_normalize.py:311-316 | 0 without either value column; NaN exactly when the column chosen (`EstValue` first) fails the money reading; a numeric `EstValue` passes through |
| Normalize.Balance | engine/aps_normalize.py:319-324 | 0 without either balance column; NaN exactly when the column chosen (`TotalLoanBal` first) fails the money reading; a numeric `TotalLoanBal` passes through |
| Normalize.LoanDate | engine/aps_normalize.py:327-332 | NaT without either date column; otherwise the conversion of `LastLoanDate` when present, else of `loan_date` |
| Normalize.Column | engine/aps_normalize.py:354 | `apply` over rows: one cell per row, the function of that row |
| Normalize.NormalizeAndScore | engine/aps_normalize.py:303-427 | the caller's frame gains the working and derived columns, row i becoming `Augment(row i)`; the fresh result has `NormalizedNames` and row i `Normalized(row i)` |
| Normalize.Derive | engine/aps_normalize.py:335-422 | a record's LTV, score and CCI lie in [0, 100], Equity + LTV == 100, and dollars exist iff the value does |
| Normalize.DeriveFrom | engine/aps_normalize.py:335-422 | the same bounds for any resolved value, balance and date |
| Normalize.KeysDistinct | engine/aps_normalize.py:309-425 | 3 working columns, 7 derived columns, and the working, derived and source column names are pairwise disjoint |
| Normalize.Augment | engine/aps_normalize.py:309-422 | the augmented row has the input's columns plus the 3 working and the 7 derived ones |
| Normalize.Normalized | engine/aps_normalize.py:425-427 | the returned row has the input's columns minus the working ones, plus the derived ones |
| Normalize.AugmentFrame | engine/aps_normalize.py:309-422 | every cell outside the working and derived columns is unchanged |
| Normalize.WorkingAgrees | engine/aps_normalize.py:309-332 | the working columns hold the resolved value, balance and date |
| Normalize.AugmentAgrees | engine/aps_normalize.py:335-422 | the seven derived cells of the augmented row are exactly the record's derived values |
| Normalize.SourcePrecedence | engine/aps_normalize.py:311-332 | the canonical column shadows its alias; without it the alias is read exactly as the canonical column would be; with neither the value and balance are 0 and the date is NaT |
| Normalize.NormalizedIsScored | engine/aps_normalize.py:303-427 | every normalized record carries all derived columns with LTV, Equity, score and CCI in range, and a tier label among the four |
| Normalize.SourcesAgree | engine/aps_normalize.py:311-332 | records that agree on the six source columns resolve to the same value, balance and date |
| Normalize.NormalizedKeepsSources | engine/aps_normalize.py:303-427 | normalizing leaves the resolved value, balance and date unchanged |
| Normalize.DerivedCellsBySources | engine/aps_normalize.py:335-422 | the derived cells depend only on the resolved value, balance and date |
| Normalize.NormalizeIdempotent | engine/aps_normalize.py:303-427 | normalizing an already-normalized record gives it back unchanged |
| Normalize.AugmentedNamesHaveDerived | engine/aps_normalize.py:335-422 | after the assignments every derived column is among the names |
| Normalize.NormalizedNamesHaveDerived | engine/aps_normalize.py:425-427 | the returned frame lists every derived column |
| Normalize.NormalizedNamesIdempotent | engine/aps_normalize.py:303-427 | normalizing twice gives the same column list as once |
| Normalize.NormalizedNamesOfScored | engine/aps_normalize.py:303-427 | a frame that already lists the derived columns and no working ones keeps its column list unchanged |
| Normalize.WithoutTemps | engine/aps_normalize.py:425 | dropping the three working columns appended at the end gives back the original names |
| Normalize.HalfEquityExample | engine/aps_normalize.py:311-354 | `EstValue` 2b and `TotalLoanBal` b with no date give LTV 50, Equity 50, Equity Dollars b and age 0 |
| Normalize.FormattedMoneyCell | engine/aps_normalize.py:312-314 | a money cell written "$300,000" or "300,000" reads as 300000 |
| Normalize.FormattedValue | engine/aps_normalize.py:311-312 | an `EstValue` written with `$` and thousands commas resolves to the amount it writes out |
| Normalize.FormattedBalance | engine/aps_normalize.py:319-320 | a `TotalLoanBal` written with `$` and thousands commas resolves to the amount it writes out |
| HealthCheck.Trues | engine/aps_healthcheck.py:50 | a count of true flags is at most the number of flags |
| HealthCheck.TruesAll | engine/aps_healthcheck.py:50 | the count equals the length exactly when every flag is true |
| HealthCheck.TruesNone | engine/aps_healthcheck.py:114 | the count is 0 exactly when no flag is true |
| HealthCheck.CountIfAll | engine/aps_healthcheck.py:50 | every row satisfies the test exactly when all of them are counted |
| HealthCheck.CountIfNone | engine/aps_healthcheck.py:50 | no row satisfies the test exactly when none is counted |
| HealthCheck.PctAtLeast | engine/aps_healthcheck.py:51-54 | over a non-empty dataset, the percentage reaches a bound exactly when count × 100 reaches bound × total |
| HealthCheck.PctAtMost | engine/aps_healthcheck.py:51-54 | over a non-empty dataset, the percentage stays under a bound exactly when count × 100 does |
| HealthCheck.PctZero | engine/aps_healthcheck.py:115-117 | the percentage is 0 exactly when the dataset or the count is empty |
| HealthCheck.PctAtLeastWhole | engine/aps_healthcheck.py:25-27 | a whole-number threshold on the percentage is the same threshold on count × 100 against threshold × total; an empty dataset is 0% |
| HealthCheck.GradedCheck | engine/aps_healthcheck.py:23-32 | FAIL without its column; otherwise it reports the count of rows meeting the test, PASS from `pass`% of the rows, FAIL below `warn`%, WARN between, FAIL on an empty dataset |
| HealthCheck.LenientCheck | engine/aps_healthcheck.py:139-149 | FAIL without its column; otherwise it reports the count, PASS from 95% of a non-empty dataset and WARN otherwise |
| HealthCheck.InformativeCheck | engine/aps_healthcheck.py:189-199 | FAIL without its columns; otherwise it reports the count, PASS from `pass`%, INFO below `warn`%, WARN between, INFO on an empty dataset |
| HealthCheck.RecordCount | engine/aps_healthcheck.py:15-20 | check 1 reports the record count and passes exactly when there is a record |
| HealthCheck.AddressCompleteness | engine/aps_healthcheck.py:22-32 | check 2 fails without the address column; otherwise PASS from 95% of records with an address, FAIL below 80% |
| HealthCheck.ZipValidity | engine/aps_healthcheck.py:34-44 | check 3 fails without the ZIP column; otherwise PASS from 95% five-digit ZIPs, FAIL below 80% |
| HealthCheck.ValueRange | engine/aps_healthcheck.py:46-59 | check 4 fails without `EstValue` and `property_value`; otherwise PASS from 90% of values in $50K-$10M, FAIL below 70% |
| HealthCheck.LtvRange | engine/aps_healthcheck.py:61-72 | check 5 fails without `LTV %`; otherwise PASS from 95% of LTVs in [0, 100], FAIL below 80% |
| HealthCheck.EquityAccuracy | engine/aps_healthcheck.py:74-84 | check 6 fails without `Equity %` or `LTV %`; otherwise PASS from 95% of records whose two add up to 100 within 1, FAIL below 80% |
| HealthCheck.DateFormat | engine/aps_healthcheck.py:86-97 | check 7 fails without a date column; otherwise PASS from 90% of dates that convert, FAIL below 70% |
| HealthCheck.AgeReasonable | engine/aps_healthcheck.py:99-110 | check 8 fails without `Loan_Age_Mo`; otherwise PASS from 95% of ages in [0, 360], FAIL below 80% |
| HealthCheck.Duplicates | engine/aps_healthcheck.py:112-122 | check 9 warns without the address or ZIP column; otherwise it reports the duplicate count, PASS exactly without duplicates, FAIL from 5% |
| HealthCheck.MissingValues | engine/aps_healthcheck.py:124-136 | check 10 reports the missing count; PASS below 5% of the critical cells or on an empty dataset, FAIL from 15% |
| HealthCheck.ScoreDistribution | engine/aps_healthcheck.py:138-149 | check 11 fails without the score column; otherwise PASS from 95% of scores in [0, 100], WARN below |
| HealthCheck.TierAssignment | engine/aps_healthcheck.py:151-162 | check 12 fails without the tier column; otherwise PASS from 95% of records with one of the four tier labels, WARN below |
| HealthCheck.CciValidity | engine/aps_healthcheck.py:164-175 | check 13 fails without the CCI column; otherwise PASS from 95% of CCIs in [0, 100], WARN below |
| HealthCheck.StateFormat | engine/aps_healthcheck.py:177-187 | check 14 fails without the state column; otherwise PASS from 95% two-capital-letter states, WARN below |
| HealthCheck.RefiEligibility | engine/aps_healthcheck.py:189-199 | check 15 fails without `LTV %` or `Loan_Age_Mo`; otherwise PASS from 50% eligible records, INFO below 25% |
| HealthCheck.OwnerPresent | engine/aps_healthcheck.py:201-211 | check 16 fails without the owner column; otherwise PASS from 90% of records with an owner, FAIL below 70% |
| HealthCheck.Freshness | engine/aps_healthcheck.py:213-225 | check 17 fails without a date column; otherwise PASS from 70% of loans dated 2020 or later, INFO below 40% |
| HealthCheck.Tally | engine/aps_healthcheck.py:228-230 | a tally is at most the number of entries; it is 0 exactly when no entry has the status, and the full count exactly when all do |
| HealthCheck.OverallQuality | engine/aps_healthcheck.py:227-247 | check 18 carries the PASS, WARN and FAIL tallies and grades the passes: 15 or more EXCELLENT, 12 or more GOOD, 9 or more FAIR, else POOR |
| HealthCheck.FirstChecks | engine/aps_healthcheck.py:15-225 | 17 entries, each a check named for its position |
| HealthCheck.Report | engine/aps_healthcheck.py:12-249 | 18 entries named in order; the first 17 are the checks and the 18th is the roll-up of those 17 |
| HealthCheck.PctAtMostHundred | engine/aps_healthcheck.py:51 | a percentage of a part lies in [0, 100] and is 100 for the whole |
| HealthCheck.RunHealthCheck | engine/aps_healthcheck.py:6-248 | the loop over the critical columns builds exactly `Report(names, rows)`, the missing count being the sum over the columns present |
| HealthCheck.RecordCountPassIff | engine/aps_healthcheck.py:16-20 | check 1 passes exactly when there is at least one record, and reports the record count |
| HealthCheck.MissingColumnVerdicts | engine/aps_healthcheck.py:23-225 | each check whose column is missing FAILs; check 9 WARNs without the address or ZIP column |
| HealthCheck.LenientNeverFails | engine/aps_healthcheck.py:139-187 | checks 11-14 with their column present are PASS or WARN, never FAIL |
| HealthCheck.InformativeNeverFails | engine/aps_healthcheck.py:190-225 | checks 15 and 17 with their columns present are never FAIL, and are INFO exactly below 25% and 40% |
| HealthCheck.FirstChecksGraded | engine/aps_healthcheck.py:15-225 | each of checks 1-17 is PASS, WARN, FAIL or INFO |
| HealthCheck.TallyPartition | engine/aps_healthcheck.py:228-230 | the PASS, WARN, FAIL and INFO tallies add up to the number of entries |
| HealthCheck.OverallTally | engine/aps_healthcheck.py:228-247 | the roll-up's pass, warn and fail counts add up to 17 minus the INFO entries |
| HealthCheck.OverallByPasses | engine/aps_healthcheck.py:232-242 | the band by passes: 15 or more EXCELLENT, 12-14 GOOD, 9-11 FAIR, fewer POOR |
| HealthCheck.TallyConcat | engine/aps_healthcheck.py:228 | the tally of two runs of entries is the sum of their tallies |
| HealthCheck.EmptyDatasetIsPoor | engine/aps_healthcheck.py:16-247 | an empty dataset fails check 1 and grades POOR overall |
| HealthCheck.EmptyPassesAtMostTwo | engine/aps_healthcheck.py:23-225 | on an empty dataset, at most two of checks 1-17 (9 and 10) pass |
| HealthCheck.DuplicateCountNotOne | engine/aps_healthcheck.py:114 | with `keep=False`, the duplicate count is never exactly 1 |
| HealthCheck.NoDuplicatesIff | engine/aps_healthcheck.py:114 | no row is flagged exactly when no two rows share an (address, ZIP) pair |
| HealthCheck.DuplicatesPassIff | engine/aps_healthcheck.py:113-122 | with both columns present, check 9 passes exactly when no (address, ZIP) pair repeats |
| HealthCheck.FormattedValueNotCounted | engine/aps_healthcheck.py:49-50 | check 4 parses the raw text, so a value written with `$` or `,` is never in range |
| HealthCheck.FormattedValuesFail | engine/aps_healthcheck.py:47-59 | a non-empty dataset whose values are all written with `$` or `,` fails check 4 |
| HealthCheck.MissingInBound | engine/aps_healthcheck.py:127-130 | the missing count is at most columns × rows |
| HealthCheck.MissingCriticalBound | engine/aps_healthcheck.py:125-132 | the missing count is at most rows × 5, so its percentage lies in [0, 100] |
| HealthCheck.MissingInNone | engine/aps_healthcheck.py:127-130 | a frame with no NaN cell has no missing values |
| HealthCheck.TextFrameHasNoMissing | engine/aps_healthcheck.py:23-211 | an all-text frame has no missing values, so check 10 passes, and checks 2 and 16 pass when their columns are present |
| HealthCheck.AllRowsPass | engine/aps_healthcheck.py:47-59 | a non-empty dataset where every row satisfies a check's test grades PASS |
| HealthCheck.ScoredRowsPass | engine/aps_healthcheck.py:62-175 | on rows carrying in-range derived columns, checks 5, 6, 11, 12 and 13 pass |
| HealthCheck.NormalizedFramePasses | engine/aps_healthcheck.py:62-175 | the output of normalize_and_score on a non-empty dataset passes checks 5, 6, 11, 12 and 13 |
| FeedConfig.Lower | engine/aps_feed_config.py:329 | lowercasing keeps the length |
| FeedConfig.FirstMatch | engine/aps_feed_config.py:328-357 | no match exactly when no rule hits; otherwise the key of the first rule that hits |
| FeedConfig.FilenameRules | engine/aps_feed_config.py:220-300 | one filename rule per feed type, in registry order |
| FeedConfig.ExplicitFeed | engine/aps_feed_config.py:322-325 | an explicit `feed_type` is taken only when it is a registered key |
| FeedConfig.DetectFeedType | engine/aps_feed_config.py:311-360 | detection always answers a registered feed key; an explicit registered `feed_type` wins; with no method answering it is `core_equity` |
| FeedConfig.RegistryShape | engine/aps_feed_config.py:220-309 | five feed types with distinct keys, `core_equity` first; each has seven pages, the cover first and the schema and sample pages last, and names a registered theme |
| FeedConfig.FirstMatchIsFirstHit | engine/aps_feed_config.py:328-357 | the first rule that hits decides the match |
| FeedConfig.LookupFinds | engine/aps_feed_config.py:362-372 | lookup finds the entry with the key when there is one, and nothing otherwise |
| FeedConfig.GetFeedConfig | engine/aps_feed_config.py:362-372 | the answer is a registry entry; a registered key gets its own entry and any other key gets `core_equity`'s |
| FeedConfig.GetPageList | engine/aps_feed_config.py:374-385 | seven pages, `cover_summary` first and `qa_schema`, `sample_data` last; a registered key gets its own feed's pages and any other key `core_equity`'s |
| FeedConfig.GetColorTheme | engine/aps_feed_config.py:387-399 | always one of the five themes, the one the feed names; an unregistered key gets teal |
| FeedConfig.ShouldRenderPage | engine/aps_feed_config.py:401-413 | the cover, schema and sample pages always render; for an unregistered key a page renders exactly when it is one of `core_equity`'s |
| FeedConfig.RuleKeysRegistered | engine/aps_feed_config.py:328-357 | every filename and column rule names a registered feed |
| FeedConfig.MatchIsRegistered | engine/aps_feed_config.py:328-357 | a match over registered rules names a registered feed |
| FeedConfig.ExplicitColumnWins | engine/aps_feed_config.py:322-325 | a registered `feed_type` in the first row wins over filename and columns |
| FeedConfig.FilenameFirstFeedWins | engine/aps_feed_config.py:328-333 | without an explicit feed, the first feed whose keywords occur in the lowercased filename wins |
| FeedConfig.ColumnFirstGroupWins | engine/aps_feed_config.py:336-357 | with neither, the first column-keyword group that hits decides |
| FeedConfig.DefaultWhenNothingMatches | engine/aps_feed_config.py:360 | when nothing matches the result is `core_equity` |
| FeedConfig.JoinContains | engine/aps_feed_config.py:337 | a word inside one column name is inside the joined names |
| FeedConfig.ColumnKeyword | engine/aps_feed_config.py:337 | a word in a lowercased column name is in the text the column rules search |
| FeedConfig.NormalizedFrameIsCoreEquity | engine/aps_feed_config.py:336-341 | a normalized frame with no explicit feed is routed to `core_equity` by its `Equity %` column |
| FeedConfig.EquityColumnOf | engine/aps_feed_config.py:336-341 | the normalized column list holds `Equity %` |
| FeedConfig.RoutedByColumns | engine/aps_feed_config.py:336-357 | with no explicit feed and no filename, the column rules decide |
| FeedConfig.EquityColumnHitsCoreEquity | engine/aps_feed_config.py:339-341 | a column list holding `Equity %` matches the core-equity group first |
| FeedConfig.EquityLowered | engine/aps_feed_config.py:337-340 | lowercased `Equity %` contains `equity` |
| FeedConfig.ThemeFound | engine/aps_feed_config.py:387-399 | a found theme is one of the registry's themes |

## Left out

- Floating point: values are exact reals, so binary representation error is not modelled. This covers pandas
  `.round`, Python `round` (both round half to even) and the division by `total_records`. Infinity and NaN arise only
  where the code produces them (zero property value), as explicit cases.
- `pd.to_numeric` also accepts exponents, `inf`, `nan` and surrounding whitespace. The model accepts only an optional
  `-` or `+`, then digits with at most one `.` and at least one digit. Text of the other forms parses to NaN here.
- `pd.to_datetime` is the parameter `parse`. Which date formats it accepts is not modelled.
- ToDatetime: a numeric cell converts to NaT here, whereas pandas reads a number as nanoseconds since 1970-01-01.
  This reaches `Normalize.DateSource` (and so `Normalize.LoanDate` and the loan age) and checks 7 and 17. The callers
  (`api.py`, `engine/aps_pipeline.py`) read CSV files with `dtype=str, keep_default_na=False`, so date cells arrive
  as text and the numeric case does not arise there.
- The evaluation clock (`datetime.now()` in `calculate_months`) is the parameter `today`.
- The `'value'` and `'message'` strings of each check (medians, `value_counts`, formatted percentages) are left out.
  Only the status, and the count a status depends on, are modelled.
- Comparing a text cell with a number raises `TypeError` in pandas. The checks model such a cell as not satisfying
  the comparison.
- Cells are text, number, missing or timestamp. A ZIP or State column read as numbers fails the regular-expression
  checks here: only text cells can match.
- Lowercasing (`str.lower`) is ASCII-only, and `\d` matches ASCII digits only. Unicode case folding is not modelled.
- `detect_feed_type`'s `csv_path` argument is unused in the code, and is not modelled.
- The roll-up guard `if len(checks) > 0` is always true at that point (17 entries exist), so the model drops it.
- The in-place update of a column inside one row of a pandas frame is modelled per column assignment (`SetColumn`).
  Aliasing between frames other than the caller's and the returned copy is not modelled.
