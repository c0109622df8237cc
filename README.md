# Household-business tax engine: a Dafny model

This project models the tax and accounting engine of a household-business
tax assistant (an Angular component, `src/app.component.ts`). It covers:

- **Ledger store**: the seven statutory books S1 to S7 and the invoice list.
  Rows are appended by "add entry" and removed by id by "delete entry".
- **Declaration aggregator**: totals of the four S1 revenue columns, sectors
  010 to 040. Each column total is charged that sector's flat presumptive
  VAT and PIT rate.
- **Declaration validator**: an `info` warning when revenue is below
  10,000,000 and a `warning` when the tax is above 5,000,000, in that order.
- **Quick calculator**: flat VAT on the 10% and 5% revenue buckets, plus
  progressive PIT on net income over seven brackets.
- **Penalty calculator**: days late, a four-step fine and 0.03% simple daily
  interest.
- **Declaration records**: "submit" is an upsert keyed by period id.

Files, one module each:

| file | module | contents |
|---|---|---|
| `common.dfy` | `Common` | optional fields, ids (`Key`), the id filter `RemoveKey` and its lemmas |
| `ledger.dfy` | `Ledger` | one datatype per book, the default new rows, derived-field predicates, the starting books |
| `declaration.dfy` | `Declaration` | sector table, `DeclareSummary`, its lemmas, the validator method |
| `quickcalc.dfy` | `QuickCalc` | bracket table, reference bracket tax, the walk, the calculator methods |
| `penalty.dfy` | `Penalty` | fine schedule, interest, `Compute` and its lemmas |
| `store.dfy` | `Store` | declaration records, `Upsert` and its lemmas, the `LedgerStore` class |

How the model represents the source:

- Money is an exact `real`, and rates are exact decimals such as `0.005`.
- Penalty dates are calendar day numbers, so the days late are
  `submit - due`.
- The source reads the clock for new row ids (`Date.now()`) and for
  today's date. Here both are parameters.
- A revenue field that may be missing is `Option<real>`, and a missing
  field reads as 0, as `field || 0` does.
- The book, invoice, declaration-record and wizard signals become fields
  of the `LedgerStore` class, and "add entry", "delete entry", "start
  declaration" and "submit declaration" become its methods. The summary is
  computed from the S1 field (`CurrentSummary`).
- The other engine parts take their inputs as arguments:
  - the quick-calculator signals become the `QuickCalcInput` argument of
    `QuickCalc.Calculate`;
  - the penalty signals become the due day, submission day and tax amount
    given to `Penalty.Compute`;
  - `DeclareValidation` takes a `Summary`, not the store.
- Progressive PIT has two forms:
  - `BracketTax` is the reference. It sums each bracket's share of income
    times that bracket's rate.
  - `ClampWalk` is the source's algorithm, which clamps the taxable amount
    from the highest floor down.

  `WalkIsBracketTax` proves the two equal for any well-formed schedule.
  `WalkBrackets` is the source's seven-step straight-line code, proved to
  compute the reference.

The model follows what the component's code does:

- "Delete entry" reports nothing back: it returns no value, whether or not
  a row carried the id.
- "Add entry" takes no field values. It appends a fixed default row, and
  only for S1, S3, S4, S5 and S7.
- "Start declaration" only opens the wizard. It does not create a draft
  record.
- The quick calculator keeps the 0% VAT bucket in its input but never uses
  it (only `rev10` and `rev5` enter the VAT) and never checks its sign.

## Model

| member | source | states |
|---|---|---|
| Common.OrZero | src/app.component.ts:99-102 | the zero default of the four reduces: a missing field reads as 0 and a present one as its value |
| Common.Max | src/app.component.ts:149 | `Math.max`: the result is one of the two arguments and at least both |
| Common.RemoveKey | src/app.component.ts:289-296 | the filtered book holds exactly the rows of the old book whose id is not strictly equal to the given id |
| Common.RemoveKeyAppend | src/app.component.ts:289-296 | filtering distributes over concatenation, so surviving rows keep their order |
| Common.RemoveKeyCount | src/app.component.ts:289-296 | the book shrinks by exactly the number of rows carrying the id |
| Common.RemoveKeyAbsent | src/app.component.ts:289-296 | deleting an id no row carries leaves the book unchanged |
| Common.RemoveKeyIdempotent | src/app.component.ts:289-296 | deleting the same id twice is the same as deleting it once |
| Common.RemoveKeyUnique | src/app.component.ts:306 | filtering keeps ids unique |
| Ledger.NewS1Entry | src/app.component.ts:274 | the new S1 row carries the supplied id and date, 1,000,000 in column 010, and a total equal to the sum of its columns |
| Ledger.NewS3Entry | src/app.component.ts:277 | the new S3 row costs 500,000 and its total is raw + labour + management |
| Ledger.NewS4Entry | src/app.component.ts:279 | the new S4 row records 500,000 paid and nothing payable |
| Ledger.NewS5Entry | src/app.component.ts:281 | the new S5 row has net pay 0 = salary + bonus |
| Ledger.NewS7Entry | src/app.component.ts:283 | the new S7 row has zero deposit, withdrawal and balance |
| Declaration.CategoryTotal | src/app.component.ts:99-102 | one of the four reduces: a column summed over the book from 0 in row order; a column with nothing in it totals 0 |
| Declaration.DeclareSummary | src/app.component.ts:96-116 | `declareSummary`: each column figure is that column's total, totalRev is the sum of the four and totalTax is VAT + PIT |
| Declaration.SummaryUsesSectorRates | src/app.component.ts:89-116 | each category total is that column summed over S1; VAT and PIT use exactly the sector table's rates column by column; totalRev is the sum of the four totals and totalTax is VAT + PIT |
| Declaration.SummaryOfEmpty | src/app.component.ts:96-116 | an empty S1 book gives all zeros |
| Declaration.CategoryTotalAppend | src/app.component.ts:99-102 | a column total over two stretches of the book is the sum of the two totals |
| Declaration.SummaryAppend | src/app.component.ts:96-116 | the summary of a concatenated book is the field-wise sum of the two summaries |
| Declaration.MissingFieldsCountZero | src/app.component.ts:99-102 | a row with all four revenue fields missing contributes 0 to every figure |
| Declaration.SummaryAfterNewS1Entry | src/app.component.ts:273-275 | adding the default S1 row raises column 010 and revenue by 1,000,000, VAT by 10,000, PIT by 5,000 and the tax by 15,000, and changes no other column |
| Declaration.TotalRevenueIsRowSum | src/app.component.ts:107 | the sum of the four column totals equals the sum of each row's revenue |
| Declaration.TotalRevenueMatchesStoredTotals | src/app.component.ts:50-53 | when every row's stored total matches its columns, the declared revenue equals the sum of the stored totals |
| Declaration.CategoryTotalNonNegative | src/app.component.ts:99-102 | non-negative rows give a non-negative column total |
| Declaration.SummaryTaxRange | src/app.component.ts:105-106 | with non-negative revenue, every figure is non-negative and the tax is between 1.5% and 10% of revenue |
| Declaration.DeclareValidation | src/app.component.ts:118-136 | the info warning appears iff revenue < 10,000,000 and the tax warning iff tax > 5,000,000; there are at most two, and info comes first |
| QuickCalc.PitBracketsWellFormed | src/app.component.ts:155-161 | the schedule's floors fall strictly to 0 and its rates lie between 5% and 35% |
| QuickCalc.WalkIsBracketTax | src/app.component.ts:152-162 | the clamp-and-descend walk equals the sum over brackets of portion times rate, for any well-formed schedule |
| QuickCalc.PortionsCoverIncome | src/app.component.ts:152-162 | the bracket portions of a non-negative income add up to the income, with no gap or overlap |
| QuickCalc.BracketTaxBetweenRates | src/app.component.ts:152-162 | rates of 5% to 35% put the tax between 5% and 35% of the income taxed |
| QuickCalc.BracketTaxMonotone | src/app.component.ts:152-162 | with non-negative rates, more income never gives less tax |
| QuickCalc.PitIsWalk | src/app.component.ts:152-162 | the walk over the PIT schedule computes the progressive PIT |
| QuickCalc.PitBounds | src/app.component.ts:152-162 | for net income n >= 0, 0.05 n <= PIT <= 0.35 n, and PIT is 0 when n is 0 |
| QuickCalc.ClampWalk | src/app.component.ts:152-161 | the clamp-and-descend walk over any schedule; with non-negative rates it is never negative |
| QuickCalc.NoIncomeNoPit | src/app.component.ts:151-162 | a net income of 0 or less gives no PIT, as the `netIncome > 0` guard does |
| QuickCalc.PitMonotone | src/app.component.ts:152-162 | PIT is non-decreasing in net income |
| QuickCalc.PitAtTenMillion | src/app.component.ts:159-161 | net income 10,000,000 gives PIT 750,000 |
| QuickCalc.PitAtTopFloor | src/app.component.ts:156-161 | PIT at 160,000,000 is the sum of every lower bracket's full width times its rate |
| QuickCalc.WalkStep | src/app.component.ts:155-161 | one guarded clamp of the walk, with the bracket's literal floor and rate |
| QuickCalc.WalkBrackets | src/app.component.ts:151-162 | the `netIncome > 0` guard and the seven clamps leave exactly the progressive PIT, for every net income |
| QuickCalc.Calculate | src/app.component.ts:143-165 | VAT = 10% of rev10 + 5% of rev5, so rev0 plays no part; net income = max(0, revenue - expense) >= 0; PIT is the progressive PIT of it and lies within 5% to 35% of it; total = VAT + PIT |
| QuickCalc.DefaultInputPit | src/app.component.ts:139-141 | the widget's starting inputs give net income 50,000,000 and PIT 8,250,000 |
| Penalty.Fine | src/app.component.ts:179-183 | the fine schedule: between 3,500,000 and 20,000,000, and the top fine exactly when more than 90 days late |
| Penalty.LateInterest | src/app.component.ts:185 | tax x days x 0.0003: 0 for no days or no tax, never negative for a non-negative tax and days |
| Penalty.Compute | src/app.component.ts:172-187 | days late is max(0, submit - due); the level is on-time iff submit <= due and maximum iff more than 90 days late; total = fine + interest |
| Penalty.OnTimeIsFree | src/app.component.ts:177 | filing on or before the due day gives 0 days, 0 fine, 0 interest and 0 total, at the on-time level |
| Penalty.LateFilingCharges | src/app.component.ts:179-186 | late filing is fined 3,500,000, 6,500,000, 11,500,000 or 20,000,000 by tier (up to 30, 60 or 90 days, or beyond), with interest = tax x days x 0.0003 |
| Penalty.FineMonotone | src/app.component.ts:179-183 | the fine never decreases with days late |
| Penalty.InterestMonotone | src/app.component.ts:185 | for a non-negative tax, interest is non-negative and non-decreasing in days |
| Penalty.TotalMonotone | src/app.component.ts:177-186 | for a non-negative tax, filing later never lowers the total, including the step from on time to late |
| Penalty.FifteenDaysLate | src/app.component.ts:168-170 | 15 days late on a tax of 5,000,000 gives a fine of 3,500,000, interest of 22,500 and a total of 3,522,500 |
| Store.Upsert | src/app.component.ts:306 | the record list update on submission: the new record first, the list grows by at most one |
| Store.SubmittedRecord | src/app.component.ts:306 | the submitted record has id DK-2026-Q2, status Submitted and the given tax snapshot |
| Store.UpsertLeavesOneRecordPerId | src/app.component.ts:306 | after the upsert the new record is first and is the only record with its id |
| Store.UpsertKeepsOtherRecords | src/app.component.ts:306 | every record with another id survives, and nothing else is added |
| Store.UpsertKeepsOrder | src/app.component.ts:306 | surviving records keep their relative order |
| Store.UpsertTwice | src/app.component.ts:306 | two upserts with the same id equal the second one alone |
| Store.UpsertKeepsIdsUnique | src/app.component.ts:306 | upserting keeps record ids unique |
| Store.SubmitTwice | src/app.component.ts:303-307 | submitting twice leaves exactly one DK-2026-Q2 record, first, with the later tax |
| Store.RemoveKeepsS1Consistent | src/app.component.ts:289 | deleting from S1 keeps every remaining row's total equal to its columns |
| Store.RemoveKeepsS2Consistent | src/app.component.ts:290 | deleting from S2 keeps the inventory totals consistent |
| Store.RemoveKeepsS3Consistent | src/app.component.ts:291 | deleting from S3 keeps cost totals consistent |
| Store.RemoveKeepsS5Consistent | src/app.component.ts:293 | deleting from S5 keeps net pay = salary + bonus |
| Store.LedgerStore.constructor | src/app.component.ts:50-86 | the store starts with the component's initial books and records (and the invoice list of lines 193-196), and its invariant holds |
| Store.LedgerStore.DeclaredRevenueIsStored | src/app.component.ts:96-116 | in a store whose invariant holds, the declared revenue equals the sum of the S1 book's stored totals |
| Store.LedgerStore.AddEntry | src/app.component.ts:270-285 | S1, S3, S4, S5 and S7 get exactly their default row appended at the end; S2, S6 and unknown book ids change nothing; all other state is unchanged and the invariant is kept |
| Store.LedgerStore.DeleteEntry | src/app.component.ts:287-299 | the named book (or the invoice list for "INV") becomes its id-filtered self; everything else is unchanged and the invariant is kept |
| Store.LedgerStore.StartDeclaration | src/app.component.ts:301 | the wizard opens at step 1 and no book or record changes |
| Store.LedgerStore.SubmitDeclaration | src/app.component.ts:303-307 | the records become the upsert of the submitted record with the current summary's tax; the wizard closes; the books are unchanged; record ids stay unique |

## Left out

- Notification banners and their timers are UI plumbing and are not modelled (`notify` and every `setTimeout`).
- The `confirm()` dialog in "delete entry" is a UI prompt. Only the confirmed branch is modelled.
- Date parsing (`new Date`), the millisecond difference and `Math.ceil` are not modelled. Penalty dates are day numbers, which give the same day count for the midnight dates the calculator receives.
- `Date.now()` and today's ISO date are not modelled; they come in as parameters.
- Floating-point rounding of JavaScript numbers is not modelled. All arithmetic is exact.
- `field || 0` also turns NaN or null into 0. Only a missing field is modelled.
- Quick-calculator VAT inputs are always present here. A key missing from the input map (NaN in the source) is not modelled.
- Not every stored derived field is in the store invariant:
  - S4 balance: the starting data gives no rule for it (balance 0 with 1,500,000 paid).
  - S6 running balance: deleting a row breaks it in the source too.
  - S7 balance: the row "add entry" appends always has balance 0, whatever the previous balance, so an insert breaks the running balance (src/app.component.ts:283).
  - The invariant covers S1, S2, S3, S5 and record-id uniqueness.
- Warning titles and descriptions, sector names and record labels are display text. They are kept as string data with no properties.
- Chart rendering (d3), navigation and menus, integration toggles and tax-office sync, chat, OCR simulation, and export stubs are UI or simulated services outside the engine.
- `updateQuickCalcVatRevenue` reads an HTML input element, which is UI plumbing.
- The Angular signal, `computed` and `effect` mechanism is replaced by plain fields and calls.
