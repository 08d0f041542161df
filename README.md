# Vietnamese tax helper — a Dafny model of its calculators

This project models the computing core of a Vietnamese tax-helper web
application (React/TypeScript). It covers:

- the personal-income-tax (PIT) calculator, which compares the 2025 and
  the proposed 2026 bracket tables;
- the quick calculators for business, rental, capital, securities,
  crypto-asset and capital-contribution income, and the registration fee;
- the dependent manager;
- the household-business (HKD) module: the wizard that classifies a
  business into Group 1, 2 or 3, the page that routes between the wizard
  and the group dashboards, the Group 1 exemption tracker with its CSV
  export, and the Group 2 bookkeeping dashboard with its period filter,
  expense form and 01/CNKD declaration summary;
- the e-commerce reconciliation of a platform's sales report;
- the corporate-income-tax planner;
- the static tables the calculators use: brackets, deductions,
  thresholds, HKD rates and indicator codes, CIT incentives and
  e-commerce withholding rates.

Money is an unbounded integer number of VND. Rates and tax amounts are
exact reals, so the model has no floating-point rounding.

The amount fields share one text discipline. On each keystroke a field
keeps only the digits typed and regroups them with '.' as the vi-VN
thousands separator; the value is read back by removing the dots and
applying JavaScript's `Number`.

`NumberText` models the subset of `Number` that this discipline can
reach: optional surrounding whitespace, an optional sign and decimal
digits, and `""` reading as 0. Any other text is `None`, which stands for
NaN. `Text` models the string operations the core uses: removing a
character, trimming whitespace (every character JavaScript's `trim`
strips, the Unicode space separators and line separators included), and
splitting on and joining with a separator.

State that the source changes in place is modelled as classes:

- `HkdModule.HkdModuleState`: the selected group and sector, and their
  copies in local storage, with the invariant `Valid` (memory and storage
  agree, so a reload restores the page) established by the constructor
  and kept by `Select` and `Reset`;
- `HkdGroup1.Group1Tracker`;
- `HkdGroup2.ExpenseForm` and `HkdGroup2.Group2Ledger`;
- `Dependents.DependentManager`.

Two loops are proved against recursive specification functions: the PIT
bracket walk, and the e-commerce CSV reader. The declaration summary of
Group 2 updates an array of nine rows in place, and is proved against a
fold over the rows.

## Model

| member | source | states |
|---|---|---|
| Types.AllCategoriesComplete | src/types.ts:172-182 | The category list has nine distinct entries and holds every category, in declaration order. |
| Types.CategoryNamesDistinct | src/types.ts:172-182 | Different categories have different names. |
| Constants.BracketTablesValid | constants.ts:8-28 | Both bracket tables have strictly increasing finite limits above 0, an unbounded last bracket, non-negative and non-decreasing rates, and a top rate of 35%. |
| Constants.DeductionsIncrease | constants.ts:4-5 | The 2026 personal and dependent deductions exceed the 2025 ones. |
| Constants.ThresholdsOrdered | constants.ts:31-33 | 0 < Group 1 threshold < e-invoice threshold < Group 2 threshold. |
| Constants.HkdRatesBounded | constants.ts:35-45 | Every category's VAT and PIT rates are non-negative and sum to between 1.5% and 10%; asset rental is 5% + 5%. |
| Constants.IndicatorCodesInRange | constants.ts:48-58 | Every category's indicator code is one of [28], [29], [30] and [31]. |
| Constants.WithholdingTotals | constants.ts:118-119 | Each e-commerce withholding total equals its VAT rate plus its PIT rate: 1.5% for goods and 7% for services. |
| Constants.IncentivesWellFormed | constants.ts:64-114 | No sector has two incentives, and every preferential rate is either the sentinel -1 or a rate above 0 and below the standard 20%. |
| PitCalculator.MinLimit | components/pit/PITCalculator.tsx:12 | `Math.min(income, limit)`, where an infinite limit never binds: the result is at most the income, at most a finite limit and equal to one of the two, and the income itself under an infinite limit. |
| PitCalculator.CalculateProgressiveTax | components/pit/PITCalculator.tsx:5-20 | The loop with its early break returns 0 for a non-positive income, and otherwise the recursive band-by-band tax. |
| PitCalculator.TaxFromNonNegative | components/pit/PITCalculator.tsx:10-18 | The tax on a well-formed table is never negative. |
| PitCalculator.TaxFromMonotone | components/pit/PITCalculator.tsx:10-18 | More income never gives less tax. |
| PitCalculator.ProgressiveTaxMonotone | components/pit/PITCalculator.tsx:5-20 | On a valid table the progressive tax is non-negative and non-decreasing in income. |
| PitCalculator.TaxFromInBand | components/pit/PITCalculator.tsx:10-18 | For an income inside band k, the tax is the whole bands below k plus the band-k rate on the part above the band's start. |
| PitCalculator.ProgressiveTaxInBand | components/pit/PITCalculator.tsx:5-20 | Over a whole table the tax is piecewise linear: full lower bands plus the marginal rate on the excess. |
| PitCalculator.TaxAtLimit | components/pit/PITCalculator.tsx:11-17 | An income exactly at a band's limit is taxed wholly within that band, so the next band adds nothing. |
| PitCalculator.TaxFromBetweenRates | components/pit/PITCalculator.tsx:10-18 | The tax lies between the lowest and the highest marginal rate times the income. |
| PitCalculator.TaxableIncome | components/pit/PITCalculator.tsx:32 | `Math.max(0, income - deduction)`: the result is non-negative, at least the difference, and equal to 0 or to the difference. |
| PitCalculator.ComparePit | components/pit/PITCalculator.tsx:30-42 | Both taxable incomes are non-negative, and the saving is the 2025 tax minus the 2026 tax. |
| PitCalculator.Message | components/pit/PITCalculator.tsx:84-85 | The banner shows "saved" exactly when the saving is non-negative, with the absolute amount. |
| PitCalculator.DefaultComparison | components/pit/PITCalculator.tsx:24-42 | The default screen (50,000,000 VND, one dependent) computes 5,400,000 under 2025, 3,245,000 under 2026, and a saving of 2,155,000. |
| PitCalculator.Table2026NeverAbove2025 | constants.ts:8-28 | On the same taxable income, the 2026 table never charges more than the 2025 table. |
| PitCalculator.SavingsNeverNegative | components/pit/PITCalculator.tsx:30-42 | With a non-negative number of dependents, the 2026 proposal never costs more, so the banner always reports a saving. |
| PitCalculator.TaxBetweenFiveAndThirtyFivePercent | components/pit/PITCalculator.tsx:5-20 | Under both tables the tax lies between 5% and 35% of the taxable income. |
| NumberText.FormatGrouped | src/components/hkd/HKDWizard.tsx:14-17 | vi-VN grouping produces a digit first, then only digits and '.'. |
| NumberText.JsNumberOfDigits | src/components/hkd/HKDWizard.tsx:10-12 | `Number` of a digit string is its decimal value. |
| NumberText.ParseGrouped | src/components/pages/CorporateTaxModule.tsx:18-20 | Removing the dots from digit groups and reading the digits gives their value. |
| NumberText.ParseFormatRoundTrip | src/components/hkd/HKDWizard.tsx:10-17 | Reading back the grouped text of n gives n. |
| NumberText.KeepDigits | src/components/pages/CorporateTaxModule.tsx:9 | Keeping only the digits gives a digit string that is empty exactly when no digit was typed. |
| NumberText.NormalisedInputParses | src/components/pages/CorporateTaxModule.tsx:8-16 | A normalised field is empty exactly when nothing typed was a digit; otherwise it reads back as the value of the digits typed; it holds only digits and dots. |
| NumberText.NormaliseIdempotent | components/pit/QuickTaxCalculators.tsx:7-15 | Normalising a normalised field changes nothing. |
| Text.JoinSplit | components/pages/ECommerceModule.tsx:13 | Joining the parts of a split with the separator restores the text. |
| Text.SplitJoin | components/pages/ECommerceModule.tsx:16 | Splitting parts joined with a separator they do not contain restores the parts. |
| Text.TrimEmptyIffBlank | components/pit/DependentManager.tsx:19 | A trimmed text is empty exactly when every character is one that JavaScript's `trim` strips: ASCII whitespace, the byte-order mark, every Unicode space separator, and the line and paragraph separators. |
| Text.RemoveAllConcat | components/pages/ECommerceModule.tsx:13 | Removing a character distributes over concatenation. |
| HkdWizard.FormatVnd | src/components/hkd/HKDWizard.tsx:14-17 | Empty or NaN text formats to "". |
| HkdWizard.FormatVndRoundTrip | src/components/hkd/HKDWizard.tsx:10-17 | For a numeric value, parsing its formatted text gives the value back, negative values included. |
| HkdWizard.InputChangeIsAmountNormalisation | src/components/hkd/HKDWizard.tsx:50-53 | The wizard's revenue field applies the shared amount normalisation. |
| HkdWizard.Classify | src/components/hkd/HKDWizard.tsx:37-44 | Group 1 exactly up to 200M, Group 2 above that up to 3B, and Group 3 above 3B; never Undetermined. |
| HkdWizard.ClassifyMonotone | src/components/hkd/HKDWizard.tsx:37-44 | More revenue never gives a lower tier. |
| HkdWizard.ClassifyBoundaries | src/components/hkd/HKDWizard.tsx:38-44 | 200,000,000 is Group 1 and one more is Group 2; 3,000,000,000 is Group 2 and one more is Group 3. |
| HkdWizard.ChoiceTable | src/components/hkd/HKDWizard.tsx:55-124 | Eight choices with distinct categories cover every category but brokerage; a choice maps to the retail/restaurant sector exactly when its category is distribution, lodging and catering, or consumer services. |
| HkdWizard.Submit | src/components/hkd/HKDWizard.tsx:30-48 | Submission is refused exactly when the revenue is NaN or not positive, or no line was chosen; an accepted one carries a determined group. |
| HkdWizard.SubmitTypedRevenue | src/components/hkd/HKDWizard.tsx:30-53 | After typing, submission succeeds exactly when a line is chosen and the digits typed are positive, and classifies that value. |
| HkdModule.Dispatch | src/components/pages/HKDModule.tsx:33-51 | The wizard shows exactly when the group is undetermined or no sector is stored; otherwise the screen is the group's, and Group 2 receives the stored sector. |
| HkdModule.RestoreGroup | src/components/pages/HKDModule.tsx:10-13 | A missing stored group restores as Undetermined; a stored one restores as itself. |
| HkdModule.HkdModuleState.constructor | src/components/pages/HKDModule.tsx:10-17 | The state starts from what local storage holds. |
| HkdModule.HkdModuleState.Select | src/components/pages/HKDModule.tsx:19-24 | The selected group and sector are stored and become the state. |
| HkdModule.HkdModuleState.Reset | src/components/pages/HKDModule.tsx:26-31 | Storage is cleared, the state is Undetermined with no sector, and the wizard shows. |
| HkdModule.FreshPageShowsWizard | src/components/pages/HKDModule.tsx:10-17 | With empty storage the page shows the wizard. |
| HkdModule.SelectedTierScreen | src/components/pages/HKDModule.tsx:39-50 | Each group with a sector routes to its own screen. |
| HkdModule.WizardSubmissionRoutes | src/components/pages/HKDModule.tsx:19-51 | A wizard submission routes to the Group 1, 2 or 3 screen exactly by the revenue thresholds. |
| HkdGroup1.TotalRevenueBounds | components/hkd/HKDGroup1Dashboard.tsx:22-24 | With non-negative amounts the total is non-negative and at least every single amount. |
| HkdGroup1.Status | components/hkd/HKDGroup1Dashboard.tsx:26-29 | Over exactly from 200M up, Approaching exactly from 180M (90%) below 200M, and Normal below 180M. |
| HkdGroup1.ShowBanner | components/hkd/HKDGroup1Dashboard.tsx:106-130 | The banner shown matches the status, case for case. |
| HkdGroup1.BannerRemaining | components/hkd/HKDGroup1Dashboard.tsx:31 | On the approaching banner the remaining amount is positive and at most 20M; on the normal banner it is more than 20M. On both it is exactly the distance to the threshold, so the clamp at 0 never applies. |
| HkdGroup1.BarWidthBounds | components/hkd/HKDGroup1Dashboard.tsx:102 | The progress bar's width is between 0% and 100%, and is full exactly when over the threshold. |
| HkdGroup1.WizardAndTrackerAtThreshold | components/hkd/HKDGroup1Dashboard.tsx:28 | The wizard's Group 1 (revenue ≤ 200M) and the tracker's over-threshold (≥ 200M) overlap only at exactly 200M. |
| HkdGroup1.DescriptionOrDefault | components/hkd/HKDGroup1Dashboard.tsx:38 | The stored note is never empty, and is the typed note whenever one was typed. |
| HkdGroup1.Group1Tracker.AmountChange | components/hkd/HKDGroup1Dashboard.tsx:47-51 | The amount field becomes the normalised text, whose value is that of the digits typed. |
| HkdGroup1.Group1Tracker.AddTransaction | components/hkd/HKDGroup1Dashboard.tsx:33-45 | An empty amount adds nothing; otherwise the entry is prepended, the fields are cleared, and the total grows by the amount. |
| HkdGroup1.EscapeQuotes | components/hkd/HKDGroup1Dashboard.tsx:62 | Doubling quotes adds one character per quote and introduces no new characters. |
| HkdGroup1.UnescapeEscape | components/hkd/HKDGroup1Dashboard.tsx:62 | Collapsing doubled quotes undoes the escaping. |
| HkdGroup1.ExportCsv | components/hkd/HKDGroup1Dashboard.tsx:53-54 | Nothing is exported exactly when there are no transactions. |
| HkdGroup1.ExportLines | components/hkd/HKDGroup1Dashboard.tsx:56-69 | The exported text is the BOM-prefixed header line followed by one row per transaction, newest first. |
| HkdGroup2.FilterByPeriod | src/components/hkd/HKDGroup2Dashboard.tsx:363-378 | The filtered list keeps exactly the items dated in the selected day, month or year. |
| HkdGroup2.PeriodsNest | src/components/hkd/HKDGroup2Dashboard.tsx:364-371 | The day's items lie within the month's, and the month's lie within the year's. |
| HkdGroup2.FilterConcat | src/components/hkd/HKDGroup2Dashboard.tsx:364-371 | Filtering distributes over concatenation. |
| HkdGroup2.PeriodTaxSplits | src/components/hkd/HKDGroup2Dashboard.tsx:383 | The period tax is the VAT sum plus the PIT sum. |
| HkdGroup2.PeriodTaxBounds | src/components/hkd/HKDGroup2Dashboard.tsx:383 | The period tax lies between 1.5% and 10% of the period revenue. |
| HkdGroup2.DashboardMatchesDeclaration | src/components/hkd/HKDGroup2Dashboard.tsx:380-383 | For the month shown, the dashboard revenue and tax equal the declaration's totals. |
| HkdGroup2.NetProfitBelowProfit | src/components/hkd/HKDGroup2Dashboard.tsx:380-384 | Net profit never exceeds profit before tax, and falls short of it by at most 10% of the period revenue. |
| HkdGroup2.AlertPersists | src/components/hkd/HKDGroup2Dashboard.tsx:19-21 | A new sale adds its amount to the annual revenue when it is dated in the selected year, and nothing otherwise; it never clears the e-invoice alert. |
| HkdGroup2.SelectCategoryEntry | src/components/hkd/HKDGroup2Dashboard.tsx:170-180 | An entry is made exactly when a digit was typed; it carries the value of the digits typed and the chosen category, and its description names that category and no other. |
| HkdGroup2.LineItemsTotalUpdate | src/components/hkd/HKDGroup2Dashboard.tsx:191-200 | Editing one line changes the total by the new line amount minus the old one. |
| HkdGroup2.LineItemsTotalRemove | src/components/hkd/HKDGroup2Dashboard.tsx:198-200 | Removing a line lowers the total by that line's amount; an index out of range changes nothing. |
| HkdGroup2.RemoveAt | src/components/hkd/HKDGroup2Dashboard.tsx:198 | Filtering out an index in range removes one line; any other index keeps the list. |
| HkdGroup2.WithIdsTotal | src/components/hkd/HKDGroup2Dashboard.tsx:263 | Giving the lines ids does not change the total. |
| HkdGroup2.ExpenseForm.constructor | src/components/hkd/HKDGroup2Dashboard.tsx:185-187 | The form starts dated today, with empty fields, one blank line and a zero total. |
| HkdGroup2.ExpenseForm.ChangeLineItem | src/components/hkd/HKDGroup2Dashboard.tsx:191-196 | Only the edited line changes, and the total moves by its difference. |
| HkdGroup2.ExpenseForm.AddLineItem | src/components/hkd/HKDGroup2Dashboard.tsx:197 | A blank line is appended and the total is unchanged. |
| HkdGroup2.ExpenseForm.RemoveLineItem | src/components/hkd/HKDGroup2Dashboard.tsx:198 | The line is removed and the total drops by its amount. |
| HkdGroup2.ExpenseForm.Submit | src/components/hkd/HKDGroup2Dashboard.tsx:255-268 | Submission is refused exactly when the supplier is empty or the total is not positive; otherwise the invoice built by SubmitInvoice is returned. |
| HkdGroup2.SubmitInvoice | src/components/hkd/HKDGroup2Dashboard.tsx:255-268 | Refused exactly when the supplier is empty or the total is not positive. An accepted invoice's amount is its lines' positive total; it keeps the lines (with their new ids), the date, supplier name, tax code, description and category of the form, keeps a non-empty image and stores no empty one. |
| HkdGroup2.Group2Ledger.constructor | src/components/hkd/HKDGroup2Dashboard.tsx:337-338 | The lists start from storage, or empty when nothing is stored. |
| HkdGroup2.Group2Ledger.AddRevenue | src/components/hkd/HKDGroup2Dashboard.tsx:393 | The sale is prepended and the revenue total grows by its amount. |
| HkdGroup2.Group2Ledger.AddExpense | src/components/hkd/HKDGroup2Dashboard.tsx:394-396 | The invoice is prepended and the expense total grows by its amount. |
| HkdGroup2.NewSaleInTodaysFigures | src/components/hkd/HKDGroup2Dashboard.tsx:380-393 | A sale added today raises today's revenue by its amount and today's tax by its amount times its category's rates, and leaves today's expenses unchanged. |
| HkdDeclaration.InitialSummaryShape | src/components/hkd/HKDGroup2Dashboard.tsx:59-65 | The initial summary has one zero row per category, in declaration order. |
| HkdDeclaration.AccumulateRows | src/components/hkd/HKDGroup2Dashboard.tsx:67-76 | The in-place reduce over the row array leaves the fold of the transactions into the rows. |
| HkdDeclaration.KeepPositive | src/components/hkd/HKDGroup2Dashboard.tsx:79 | The loop keeps exactly the rows with positive revenue, in order. |
| HkdDeclaration.BuildSummary | src/components/hkd/HKDGroup2Dashboard.tsx:58-79 | The summary built is the specification summary. |
| HkdDeclaration.AddToRowsEffect | src/components/hkd/HKDGroup2Dashboard.tsx:68-74 | A transaction bumps only its category's row, and the rows' categories stay distinct. |
| HkdDeclaration.FoldedRows | src/components/hkd/HKDGroup2Dashboard.tsx:67-76 | After the reduce, each category's row holds that category's revenue, VAT and PIT. |
| HkdDeclaration.SummaryRows | src/components/hkd/HKDGroup2Dashboard.tsx:58-79 | A category appears in the summary exactly when its revenue is positive, and every row shown is that category's full row. |
| HkdDeclaration.CategoryTaxIsRate | src/components/hkd/HKDGroup2Dashboard.tsx:70-73 | A category's VAT and PIT are its revenue times its rates. |
| HkdDeclaration.PositiveRowsTotals | src/components/hkd/HKDGroup2Dashboard.tsx:79-82 | Dropping rows with zero revenue leaves the totals unchanged. |
| HkdDeclaration.DeclarationTotals | src/components/hkd/HKDGroup2Dashboard.tsx:82 | The declaration totals are the sums of revenue, VAT and PIT over all transactions. |
| HkdDeclaration.ColumnsMatchIndicator | src/components/hkd/HKDGroup2Dashboard.tsx:116-121 | A row's revenue appears in exactly the column of its indicator code, and the other columns hold 0. |
| HkdDeclaration.Quarter | src/components/hkd/HKDGroup2Dashboard.tsx:105 | The quarter of a month index is 1 to 4, and contains that month. |
| QuickTax.BusinessTax | components/pit/QuickTaxCalculators.tsx:30-39 | A result exists exactly when the revenue is a number. |
| QuickTax.BusinessTaxTotals | components/pit/QuickTaxCalculators.tsx:30-39 | The total is VAT plus PIT; nothing is due on a non-positive revenue; on a positive one the total lies between 1.5% and 10%. |
| QuickTax.TypedBusinessTax | components/pit/QuickTaxCalculators.tsx:7-39 | A typed revenue gives the category's rates applied to the value of the digits typed, or zeros when that value is 0. |
| QuickTax.RentalTaxIsTenPercent | components/pit/QuickTaxCalculators.tsx:70-80 | Rental income pays 5% VAT and 5% PIT, 10% in all. |
| QuickTax.FlatTaxProperties | components/pit/QuickTaxCalculators.tsx:104-107 | `x > 0 ? x * rate : 0` is never negative, is the rate's share of a positive amount, is 0 otherwise, and grows with the amount. |
| QuickTax.TypedFlatTax | components/pit/QuickTaxCalculators.tsx:128-133 | A typed amount pays the flat rate on the value of its digits, and an emptied field pays nothing. |
| QuickTax.TypedFlatCalculators | components/pit/QuickTaxCalculators.tsx:100-221 | On a typed amount: 5% of dividends, 0.1% of a securities or crypto-asset sale price, 0.5% of the state land price, and nothing on an amount of 0. |
| QuickTax.CapitalTransferTax | components/pit/QuickTaxCalculators.tsx:182-190 | A profit exists exactly when both prices are numbers. |
| QuickTax.CapitalTransferBounds | components/pit/QuickTaxCalculators.tsx:184-190 | The tax is 20% of a positive profit, 0 otherwise, never negative, and at most 20% of the sale price when the cost is not negative. |
| QuickTax.TypedCapitalTransfer | components/pit/QuickTaxCalculators.tsx:179-190 | Typed prices always give a profit: the typed sale value minus the typed cost value. |
| Dependents.AtRisk | components/pit/DependentManager.tsx:35-36 | The warned dependents are exactly those with an income above the 1,000,000 limit. |
| Dependents.UpdateIncomeAt | components/pit/DependentManager.tsx:12-16 | An edit keeps every dependent's id, name and place; dependents with the id get the new income, and the others are unchanged. |
| Dependents.UpdateAbsentId | components/pit/DependentManager.tsx:12-16 | Editing an id no dependent has changes nothing. |
| Dependents.UpdateOverwrites | components/pit/DependentManager.tsx:12-16 | Editing the same dependent twice keeps only the last income. |
| Dependents.UpdatesCommute | components/pit/DependentManager.tsx:12-16 | Edits to two different dependents can be applied in either order. |
| Dependents.UpdateRisk | components/pit/DependentManager.tsx:12-16 | An edited dependent is warned about exactly when the new income exceeds the limit. |
| Dependents.AddDependent | components/pit/DependentManager.tsx:18-27 | A name that trims to empty (all characters ones `trim` strips, Unicode spaces included) adds nothing; any other appends the name as typed, with no income. |
| Dependents.AddRefusesBlank | components/pit/DependentManager.tsx:19 | Adding is refused exactly when every character of the name is one `trim` strips, Unicode spaces included. |
| Dependents.UnicodeBlankRefused | components/pit/DependentManager.tsx:19 | A name of an ideographic and an em space is refused, as `trim` makes it empty. |
| Dependents.AddKeepsRisk | components/pit/DependentManager.tsx:18-27 | Adding a dependent never changes the list of warnings. |
| Dependents.InitialWarnings | components/pit/DependentManager.tsx:6-9 | Of the two starting dependents, only the mother (4,000,000 a month) is warned about. |
| Dependents.DependentManager.constructor | components/pit/DependentManager.tsx:6-10 | The manager starts with the two initial dependents and an empty name. |
| Dependents.DependentManager.IncomeChange | components/pit/DependentManager.tsx:12-16 | The list becomes the edited list and the name is kept. |
| Dependents.DependentManager.Add | components/pit/DependentManager.tsx:18-27 | The list becomes the list with the typed name added; the name is cleared only when it was accepted. |
| ECommerce.ParseStatus | components/pages/ECommerceModule.tsx:18-19 | A status is accepted exactly when the trimmed field is a status name, and it is then the status of that name. |
| ECommerce.StatusTrailingSpace | components/pages/ECommerceModule.tsx:18 | A status name followed by any character `trim` strips, a Unicode space included, is read as that status. |
| ECommerce.ParsedIdTrimmed | components/pages/ECommerceModule.tsx:19 | An accepted record's id is trimmed. |
| ECommerce.ParseCsv | components/pages/ECommerceModule.tsx:11-23 | The records are those of the data lines after the header, blank lines skipped. |
| ECommerce.ReadLines | components/pages/ECommerceModule.tsx:15-21 | The loop collects exactly the records of the specification reader, in line order. |
| ECommerce.HeaderIgnored | components/pages/ECommerceModule.tsx:13 | The first line is dropped whatever it holds. |
| ECommerce.ParseLinesConcat | components/pages/ECommerceModule.tsx:15-21 | Reading two blocks of lines gives the records of each, in order. |
| ECommerce.ParseSaleLine | components/pages/ECommerceModule.tsx:16-20 | A well-formed record written as a line reads back as itself. |
| ECommerce.ReadWrittenReport | components/pages/ECommerceModule.tsx:11-23 | A report of well-formed records, with or without a final newline, reads back as exactly those records. |
| ECommerce.ReportedSplits | components/pages/ECommerceModule.tsx:99-104 | The reported revenue is the completed revenue plus the cancelled revenue. |
| ECommerce.DiscrepancyIsCancelledTax | components/pages/ECommerceModule.tsx:99-110 | The discrepancy is 1.5% of the cancelled revenue; the status is Match exactly when cancelled revenue is at most 66 VND; the computed tax is 1.5% of completed revenue. |
| ECommerce.CancelledRevenueBounds | components/pages/ECommerceModule.tsx:99-104 | With non-negative revenues the cancelled revenue is non-negative, and it is 0 when nothing was cancelled. |
| ECommerce.DiscrepancySign | components/pages/ECommerceModule.tsx:107-110 | With non-negative revenues the platform never withholds less than computed, and a report without cancellations matches. |
| ECommerce.HandleReconciliation | components/pages/ECommerceModule.tsx:85-114 | Empty text is a read error; text without a valid record is "no data"; otherwise the result is the reconciliation of the records read, with their completed revenue. |
| ECommerce.SampleReconciliation | components/pages/ECommerceModule.tsx:126-132 | The sample file reads as its four records; it reconciles as a mismatch of 22,500 (427,500 withheld against 405,000 computed); and it qualifies for the refund offer. |
| ECommerce.SampleWritten | components/pages/ECommerceModule.tsx:127-132 | The sample file is the report writer's output for the four sample records. |
| ECommerce.SampleTotals | components/pages/ECommerceModule.tsx:126-132 | The sample's completed revenue is 27,000,000, its cancelled revenue 1,500,000, and its reported revenue 28,500,000. |
| CorporateTax.FindIncentive | src/components/pages/CorporateTaxModule.tsx:155-157 | The lookup is None exactly when no entry has the sector; a result comes from the table and has that sector. |
| CorporateTax.FindIncentiveFirst | src/components/pages/CorporateTaxModule.tsx:156 | The lookup returns the first entry for the sector. |
| CorporateTax.SectorRateTable | src/components/pages/CorporateTaxModule.tsx:159 | 10% for the four special sectors, 15% and 17% for the two SME tiers, and the standard 20% for startups and every other sector. |
| CorporateTax.SectorRateBounds | src/components/pages/CorporateTaxModule.tsx:159 | Every sector's rate is positive and at most the standard 20%. |
| CorporateTax.TaxableIncome | src/components/pages/CorporateTaxModule.tsx:162-164 | Taxable income exists exactly when both fields are numbers; it is non-negative, at least revenue minus expenses, and equal to 0 or to that difference. |
| CorporateTax.ResultPanel | src/components/pages/CorporateTaxModule.tsx:256 | The panel is hidden exactly when a field is empty; an estimate has non-negative taxable income, the rate in force, and the tax at that rate. |
| CorporateTax.EstimateBounds | src/components/pages/CorporateTaxModule.tsx:161-168 | The estimated tax is never negative and never above 20% of the taxable income. |
| CorporateTax.PanelOfValues | src/components/pages/CorporateTaxModule.tsx:161-168 | Two filled fields reading as numbers r and e show an estimate whose taxable income is r - e when positive and 0 otherwise. |
| CorporateTax.TypedFieldsEstimate | src/components/pages/CorporateTaxModule.tsx:8-20 | Typed fields always read as numbers: the estimate's taxable income is the excess of typed revenue over typed expenses, taxed at the rate in force. |

## Left out

- Number parsing is limited. JavaScript `Number` is modelled only on optional whitespace, an optional sign and decimal digits. Fractions, exponents, hexadecimal and `Infinity` text read as `None` (NaN). The amount fields can only hold digits and dots, so this limit does not affect them.
- Floating point is not modelled. Rates and tax amounts are exact reals, with no IEEE-754 rounding and no `Math.round` in display.
- Currency formatting is left out. `Intl.NumberFormat` is modelled only as '.' grouping of a natural number, and currency-style display (the "₫" suffix) is not modelled.
- Dates are inputs. `Date` parsing, `toDateString`, `toLocaleDateString` and time zones are not modelled: a date is a (year, month, day) value supplied by the caller.
- Local storage is modelled only as the optional values the constructors receive and the fields the methods set. JSON serialisation is left out.
- File I/O and generated ids are left out. FileReader, Blob downloads, `encodeURI`, `Date.now()` and `Math.random()` ids, and alerts are not modelled; ids and file text are parameters.
- The AI invoice-image analysis is an external service call and is not modelled.
- The 01/CNKD XML text, the print and PDF actions, the month picker, the profile modal and the gating of the declaration on a tax code are presentation or I/O, and are not modelled.
- The unresolved merge-conflict block at src/components/hkd/HKDGroup2Dashboard.tsx:387-392 is not modelled. It refers to a constant that the file does not import.
- The incentive conditions text and the exemption and reduction years are not modelled. They are display-only.
- The UI grouping of sectors (`sectorGroups`) is left out.
- Dependents.DependentManager.IncomeChange takes the income as an integer. `Number` of the number-input text (which may be fractional, or NaN) is not modelled.
- HkdGroup2.ExpenseForm.ChangeLineItem does not model the `@ts-ignore` in-place write through a shallow copy. That write also mutates the previous state's line objects; the model replaces the line by value.
- HkdGroup2.ExpenseForm.ChangeLineItem takes a line's quantity and unit price as integers. The number inputs pass `Number` of their text, which may be fractional or NaN; HkdGroup2.LineItemsTotal and the invoice amount are therefore modelled on integer lines only.
- PitCalculator.ComparePit takes the monthly income and the number of dependents as integers. The page passes `Number` of the input text, which may be fractional (1.5 dependents) or NaN; those inputs are not modelled.
- JSX rendering is not modelled; only the values it shows are. This includes the rule that a quick calculator shows its result only once its field holds text.
- Components named in the repository but outside this core are not part of this model: the chatbot, the compliance roadmap, the header, the footer and the Group 3 information page.
