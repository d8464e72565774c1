# PersonalFinCalc in Dafny

PersonalFinCalc is a personal-finance dashboard: loan, amortization and
refinance calculators, an investment portfolio, a monthly budget and a
net-worth tracker, all stored per signed-in user in a hosted database.
This project models its computational core in Dafny and proves what the
screens rely on:

- **The amortization engine** (`calculateAmortization`) and the pages built on it:
  - the amortization page with its presets, its save and load records and its CSV export;
  - the milestone analysis;
  - the refinance analysis;
  - the payoff calculator;
  - the loan comparison.
- **The data hooks** that hold the user's records and update them after each backend answer:
  - loans;
  - investments;
  - assets and liabilities;
  - budget categories, transactions and budgets.
- **The derived views**:
  - the diversification analysis, the portfolio breakdown, the performance and investment metrics, and the investment chart;
  - the budget insights and spending trends;
  - the net-worth page's category breakdowns, its save offer and chart;
  - the financial insights;
  - the dashboard's summary, goals, recent transactions and recent documents.

Numbers are exact `real`s rather than IEEE doubles. A JavaScript object used
as an accumulator (`acc[key] = (acc[key] || 0) + x`) is a list of
(key, total) pairs in first-insertion order. `Array.prototype.sort` is a
stable insertion sort. The backend is not modelled. Each hook operation
receives the backend's answer (`Ok(row)` or `Err(code)`) as a parameter, and
whether a user is signed in as a flag. Where a source computation divides by
zero, the model either returns `None` or requires what the screen guarantees
before the division happens; each such case is named below.

Modules follow the source files. `types.dfy` holds the entities and label
tables. `sums.dfy`, `grouping.dfy`, `sorting.dfy`, `lists.dfy`, `text.dfy`
and `rounding.dfy` hold the shared idioms:
- `reduce` sums;
- `filter`, `find` and `slice`;
- accumulator objects;
- sorting;
- string splitting;
- `Math.ceil`.

## Model

| member | source | states |
|---|---|---|
| Types.AssetCategoryOrder | src/lib/types.ts:46-52 | the asset category table lists five categories, none twice |
| Types.AssetCategoryListed | src/lib/types.ts:1-6 | every asset category has a row in the table |
| Types.AssetLabel | src/lib/types.ts:46-52 | every asset category has a non-empty display label |
| Types.LiabilityCategoryOrder | src/lib/types.ts:54-59 | the liability category table lists four categories, none twice |
| Types.LiabilityCategoryListed | src/lib/types.ts:8-12 | every liability category has a row in the table |
| Types.LiabilityLabel | src/lib/types.ts:54-59 | every liability category has a non-empty display label |
| Types.LabelsDistinct | src/lib/types.ts:46-59 | different categories have different labels, so a label identifies its category |
| Types.DocumentCategories | src/lib/types.ts:113-121 | the document category table has exactly the seven keys, each with a non-empty label |
| Annuity.MonthlyRate | src/lib/utils.ts:80 | the monthly rate times 1200 is the annual percentage |
| Annuity.Formula | src/lib/utils.ts:81-83 | wherever `(1+r)^n` is not 1, the formula's value m satisfies `m * ((1+r)^n - 1) == P * r * (1+r)^n` |
| Annuity.PowIsOne | src/lib/utils.ts:83 | above -100% a month the formula's divisor is zero exactly at a zero rate |
| Annuity.PaymentEquation | src/lib/utils.ts:81-83 | for every rate above -100% a month but zero, the payment m satisfies `m * ((1+r)^n - 1) == P * r * (1+r)^n`; for a positive principal it exceeds the first month's interest, which is negative for a negative rate |
| Annuity.PaymentAsGeomSum | src/lib/utils.ts:81-83 | the same payment without dividing by r: `m * (1 + q + ... + q^(n-1)) == P * q^n` |
| Annuity.PaymentIncreasingInRate | src/lib/utils.ts:81-83 | for a positive principal, a higher rate gives a strictly higher payment, across all non-zero rates above -100% a month |
| Amortization.Max0 | src/lib/utils.ts:98 | `Math.max(0, x)` is at least 0 and at least x, and is one of the two |
| Amortization.Schedule | src/lib/utils.ts:88-101 | the loop pushes exactly one row per month |
| Amortization.AmortizationOf | src/lib/utils.ts:75-109 | the returned schedule has one row per month of the term |
| Amortization.CalculateAmortization | src/lib/utils.ts:75-109 | the loop returns exactly the value AmortizationOf specifies |
| Amortization.SchedulePrefix | src/lib/utils.ts:88-101 | later months never rewrite earlier rows |
| Amortization.LastRow | src/lib/utils.ts:89-100 | the row month j+1 pushes: interest on the previous balance, the payment split into interest and principal, and the new balance clamped at 0 |
| Amortization.ScheduleRow | src/lib/utils.ts:88-101 | every row has its month number, the payment split into interest and principal, the clamped balance and the running interest total up to that row |
| Amortization.PrincipalRepaid | src/lib/utils.ts:90-91 | the principal column of the first k rows is what the balance has gone down by |
| Amortization.PaymentsSplit | src/lib/utils.ts:89-90 | interest plus principal over the first k rows is k payments |
| Amortization.ExcessClosedForm | src/lib/utils.ts:89-91 | the gap between the month's interest and the payment grows by a factor (1+r) each month |
| Amortization.FinalBalanceZero | src/lib/utils.ts:80-91 | with the annuity payment the balance after the last month is exactly zero |
| Amortization.BalanceFalls | src/lib/utils.ts:89-91 | a payment above the first month's interest stays above every month's interest, so the balance falls strictly every month |
| Amortization.BalanceFallsBetween | src/lib/utils.ts:85-91 | under the same condition the balance is strictly decreasing over the months |
| Amortization.BalancePositiveBeforeEnd | src/lib/utils.ts:80-91 | for a positive principal the loan is still owed before the last month |
| Amortization.TotalPaymentIsPayments | src/lib/utils.ts:105 | the total payment is the monthly payment times the number of months |
| Amortization.TotalInterestIsRest | src/lib/utils.ts:106 | the reported total interest is the total payment minus the principal |
| Amortization.LoanPaidOff | src/lib/utils.ts:98 | the last row of the returned schedule shows a zero balance |
| Amortization.InterestTotal | src/lib/utils.ts:99 | the last row's running interest is n payments minus the principal |
| Amortization.InterestOnceRepaid | src/lib/utils.ts:99 | whenever n payments clear the balance, the interest paid is those payments minus the principal |
| Amortization.FinalBalance | src/lib/utils.ts:98 | the last schedule row's balance is zero |
| Amortization.FinalRow | src/lib/utils.ts:98-99 | the last row carries the interest total of all rows and the clamped final balance |
| Amortization.AmortizationRows | src/lib/utils.ts:88-101 | every returned row: month i+1, the fixed payment split into principal and interest; for a positive principal every row repays some principal and every row before the last leaves a positive balance |
| AmortizationPage.SaveRecord | src/pages/amortization.tsx:40-62 | nothing is saved without a signed-in user; otherwise the record holds the form's principal, rate and term and the payment computed from them |
| AmortizationPage.SavedPaymentReproducible | src/pages/amortization.tsx:57-60 | a saved record's payment is the annuity payment of its own amount, rate and term |
| AmortizationPage.Page.constructor | src/pages/amortization.tsx:32-37 | the page starts with neither values nor a result |
| AmortizationPage.Page.HandleCalculate | src/pages/amortization.tsx:72-84 | the inputs are stored with the schedule computed from them, so the result shown always belongs to the values shown |
| AmortizationPage.Page.HandleLoad | src/pages/amortization.tsx:86-96 | loading recomputes from the saved inputs and ignores any saved result |
| AmortizationPage.Presets | src/pages/amortization.tsx:130-149 | the 30-year mortgage (200000 at 6.5% over 360 months) and the 5-year auto loan (25000 at 4.5% over 60 months), both valid inputs with a positive principal |
| AmortizationPage.CostIsPrincipalPlusInterest | src/pages/amortization.tsx:170-179 | the cost per $1000 borrowed is $1000 plus ten times the interest-to-principal percentage |
| AmortizationPage.CostIsPayments | src/pages/amortization.tsx:176-185 | the cost per $1000 borrowed is n times the monthly payment per $1000 |
| AmortizationPage.RowLines | src/pages/amortization.tsx:207-216 | the export has one CSV line per schedule row, in schedule order |
| AmortizationPage.HeaderFree | src/pages/amortization.tsx:206 | no column name contains ',' or a newline |
| AmortizationPage.LineFree | src/pages/amortization.tsx:207-216 | a row line has no newline, and splitting it at ',' gives the row's six fields |
| AmortizationPage.RowLinesRead | src/pages/amortization.tsx:207-216 | every row line reads back to its row's fields |
| AmortizationPage.CsvReadsBack | src/pages/amortization.tsx:205-217 | splitting the export at newlines gives the header and then one line per row; each line splits at ',' into the header's names or its row's six fields |
| Text.SplitJoin | src/pages/amortization.tsx:216-217 | when no part contains the separator, splitting a join at that separator gives the parts back |
| Text.JoinFree | src/pages/amortization.tsx:216-217 | joining with one character introduces no other character |
| Milestones.Analyse | src/components/amortization/milestone-analysis.tsx:21-29 | each milestone is found exactly when some row meets its condition: balance at most half the principal, at most a quarter of it, or running interest at least the principal |
| Milestones.EarliestMilestones | src/components/amortization/milestone-analysis.tsx:21-29 | each row found is the first row meeting its condition |
| Milestones.HalfwayNoLaterThanQuarter | src/components/amortization/milestone-analysis.tsx:21-26 | for a non-negative principal, when the 75% milestone is reached the halfway milestone is reached too, no later |
| Milestones.Cards | src/components/amortization/milestone-analysis.tsx:38-68 | a card is shown for a milestone exactly when it was found, and there are at most three |
| Milestones.PaidOffMilestonesReached | src/components/amortization/milestone-analysis.tsx:21-26 | on a computed schedule with a positive principal both paid-off milestones are always reached, and the month shown is the row's position plus one |
| Refinance.Defaults | src/components/loans/refinance-analysis.tsx:14-15 | the form starts one point below the loan's rate with $2000 of closing costs, so the summary is shown at first |
| Refinance.CurrentTotals | src/components/loans/refinance-analysis.tsx:18-20 | the current figures use the stored monthly payment; the interest is the total cost less the amount |
| Refinance.NewTotals | src/components/loans/refinance-analysis.tsx:23-28 | for any new rate, figures exist exactly when the formula's divisor `(1+r)^n - 1` is not zero; above -100% a month that is every rate but zero, and the payment is then the annuity payment at the new rate, negative rates included; the interest is the total cost less the amount |
| Refinance.BreakEven | src/components/loans/refinance-analysis.tsx:33 | a break-even month exists exactly when the monthly saving is not zero |
| Refinance.BreakEvenCovers | src/components/loans/refinance-analysis.tsx:33 | for a positive saving the break-even month is the first month whose accumulated savings cover the closing costs |
| Refinance.Analyse | src/components/loans/refinance-analysis.tsx:17-33 | the summary has figures exactly when the new figures exist; the monthly saving compares the two payments, the total saving is the cost saved less closing costs, and the break-even month is computed from them |
| Refinance.DefaultsAnalysed | src/components/loans/refinance-analysis.tsx:14-33 | the first form state has figures for every loan rate above -1199% except exactly 1%, including the loans below 1% whose first new rate is negative |
| Refinance.CurrentCostIsPayments | src/components/loans/refinance-analysis.tsx:19 | the current total cost is n stored payments |
| Refinance.NewPaymentIsSchedule | src/components/loans/refinance-analysis.tsx:23-26 | the new payment equals the amortization calculator's payment for the same loan at the new rate; this holds by definition, since both use `Annuity.Payment` |
| Refinance.NewCostIsSchedule | src/components/loans/refinance-analysis.tsx:27 | the new total cost equals the amortization calculator's total payment; this holds by definition, since both multiply the same payment by the term |
| Refinance.NewInterestIsSchedule | src/components/loans/refinance-analysis.tsx:28 | the new total interest equals the interest the amortization schedule accumulates |
| Refinance.LowerRateSaves | src/components/loans/refinance-analysis.tsx:73 | when the stored payment is the formula's, a lower rate (non-zero and above -100% a month, as is the loan's) saves money every month and has a break-even month |
| Refinance.LowerRateSavesInterest | src/components/loans/refinance-analysis.tsx:31-32 | under the same conditions the total cost saved is positive |
| LoanCosts.TotalsOf | src/components/loans/payoff-calculator.tsx:17-18 | the interest is the total cost less the amount, for the stored or the new payment |
| Payoff.Term | src/components/loans/payoff-calculator.tsx:23-28 | `ceil(log x / log(1+r))` is the least whole n with `(1+r)^n >= x`; it is non-negative for x >= 1 and non-positive for x <= 1 |
| Payoff.TermLeast | src/components/loans/payoff-calculator.tsx:23-28 | no whole number below the term reaches x |
| Payoff.NewPayment | src/components/loans/payoff-calculator.tsx:21 | the new payment is the stored payment plus the extra payment |
| Payoff.Ratio | src/components/loans/payoff-calculator.tsx:24-27 | the argument of the first logarithm exists exactly when the new payment differs from the first month's interest |
| Payoff.NewTerm | src/components/loans/payoff-calculator.tsx:22-28 | the new term is a number exactly when the monthly rate is non-zero and at least -100% and the ratio is defined and positive; for a positive rate it is the least n with `(1+r)^n >= ratio`, for a rate between -100% and 0 the term of the reciprocal factor and ratio, and 0 at exactly -100% |
| Payoff.Flipped | src/components/loans/payoff-calculator.tsx:27 | for a negative rate above -100%, a positive rate whose growth factor is the reciprocal of `1 + r` |
| Payoff.CoversReciprocal | src/components/loans/payoff-calculator.tsx:23-28 | reaching 1/x with factor 1/q is the same as coming down to x with factor q |
| Payoff.NegativeRateTerm | src/components/loans/payoff-calculator.tsx:23-28 | for a rate between -100% and 0 the term is a whole n with `(1+r)^n <= ratio` where n - 1 does not come down that far, which is what the ceiling of the two negative logarithms gives |
| Payoff.NegativeRateTermLeast | src/components/loans/payoff-calculator.tsx:23-28 | no whole number below that term comes down to the ratio |
| Payoff.FiguresFor | src/components/loans/payoff-calculator.tsx:17-34 | the original totals use the stored payment, the new totals the new payment over the new term; months saved and interest saved are the differences |
| Payoff.Analyse | src/components/loans/payoff-calculator.tsx:16-34 | the figures exist exactly when the new term is a number, and are then the figures for that term |
| Payoff.YearsAndMonths | src/components/loans/payoff-calculator.tsx:66-67 | for a term of 0 or more the years and months rebuild it with months below 12; for a negative term both parts are non-positive |
| Payoff.NewTermRepays | src/components/loans/payoff-calculator.tsx:23-28 | when the new payment exceeds the first month's interest, the new term is the first month after which paying it every month leaves nothing owed |
| Payoff.RepaidAtTerm | src/components/loans/payoff-calculator.tsx:23-28 | the least n with `(1+r)^n >= m/(m - P*r)` is the month the balance first reaches 0 |
| Payoff.CoversIffRepaid | src/components/loans/payoff-calculator.tsx:24-27 | reaching the ratio after k months is the same as having repaid the loan after k months |
| Payoff.MorePaymentLowerBalance | src/components/loans/payoff-calculator.tsx:21 | a larger monthly payment leaves no more owed after any number of months |
| Payoff.MoreExtraShortens | src/components/loans/payoff-calculator.tsx:21-28 | a larger extra payment never gives a longer term |
| Payoff.FirstRepaidUnique | src/components/loans/payoff-calculator.tsx:23-28 | the month at which the balance first reaches 0 is unique |
| Payoff.ZeroExtraKeepsTerm | src/components/loans/payoff-calculator.tsx:33-34 | with no extra payment and the annuity payment stored, the term is the loan's own and nothing is saved |
| Payoff.ExtraNeverLengthens | src/components/loans/payoff-calculator.tsx:33 | under the same conditions any extra payment of 0 or more gives a term between 0 and the loan's own, so the months saved are never negative |
| Payoff.StoredPaymentCoversInterest | src/components/loans/payoff-calculator.tsx:26 | the annuity payment exceeds the first month's interest, so the ratio's denominator is positive |
| Payoff.UnchangedTermCostsMore | src/components/loans/payoff-calculator.tsx:29-34 | when the term does not shorten, the interest saved is minus the extra payments over the whole term, negative for a positive extra |
| LoanComparison.Ranked | src/components/loans/loan-comparison.tsx:11-15 | the sorted copy holds the same loans |
| LoanComparison.RankedByCost | src/components/loans/loan-comparison.tsx:11-15 | the loans appear in non-decreasing order of payment times term |
| LoanComparison.RankedStable | src/components/loans/loan-comparison.tsx:11-15 | loans with equal total cost keep their relative order |
| LoanComparison.RowFor | src/components/loans/loan-comparison.tsx:27-29 | each row's total cost is payment times term, its interest is that less the amount, and its ratio exists exactly for a non-zero amount, as interest over amount in percent |
| LoanComparison.Widths | src/components/loans/loan-comparison.tsx:42-46 | the principal and interest bars' widths add up to 100% and the interest bar is the ratio |
| LoanComparison.WidthsInRange | src/components/loans/loan-comparison.tsx:42-46 | for a positive amount both widths lie in [0, 100] exactly when the total cost is between the amount and twice the amount |
| LoanComparison.View | src/components/loans/loan-comparison.tsx:17-29 | nothing is rendered for no loans; otherwise one row per loan in ranked order |
| LoanComparison.ViewRanked | src/components/loans/loan-comparison.tsx:11-29 | the rows show every loan once and their total costs do not decrease down the list |
| Rounding.Ceil | src/components/loans/refinance-analysis.tsx:33 | `Math.ceil(x)` is the least whole number not below x |
| Rounding.CoverBounds | src/components/loans/refinance-analysis.tsx:33 | the ceiling of c/s steps of size s reach c, and one step fewer does not |
| Lists.FindFirst | src/components/amortization/milestone-analysis.tsx:21-23 | `find` returns the earliest matching position, and nothing exactly when no element matches |
| Lists.Find | src/components/amortization/milestone-analysis.tsx:21-23 | the element found matches and is the element at the earliest matching index; none exactly when no element matches |
| Lists.FindFirstWeaker | src/components/amortization/milestone-analysis.tsx:21-26 | a weaker condition matches no later than a stronger one |
| Lists.Take | src/components/dashboard/recent-transactions.tsx:23 | `slice(0, k)` keeps the first k elements, or all of them when there are fewer |
| Lists.ReplaceWhere | src/hooks/use-loans.ts:65 | the map replaces exactly the matching elements and keeps the length |
| Lists.RemoveWhere | src/hooks/use-loans.ts:77 | the filter keeps exactly the non-matching elements |
| Lists.RemoveWhereAppend | src/hooks/use-loans.ts:77 | removing from a concatenation removes from each part, in order, so the kept elements keep their order |
| Lists.RemoveWhereSplits | src/hooks/use-loans.ts:77 | the same for every way of cutting the list in two |
| Lists.RemoveWhereIsFilter | src/hooks/use-loans.ts:77 | removal is `filter` with the negated predicate |
| Lists.RemoveWhereAbsent | src/hooks/use-loans.ts:77 | removing what nothing matches changes nothing |
| Lists.SumRemoveWhere | src/hooks/use-loans.ts:77-85 | the total after a removal is the old total less the total of what was removed |
| Lists.ReplaceWhereAbsent | src/hooks/use-loans.ts:65 | replacing where nothing matches changes nothing |
| Lists.ReplaceWhereOnly | src/hooks/use-loans.ts:65 | replacing the single matching element is an update at its index and shifts the total by the difference |
| LoansHook.LoanStore.constructor | src/hooks/use-loans.ts:9-10 | the hook starts with no loans and loading |
| LoansHook.LoanStore.Fetch | src/hooks/use-loans.ts:12-30 | without a user nothing changes; otherwise the list becomes the rows read, or stays on an error, and loading ends either way |
| LoansHook.LoanStore.AddLoan | src/hooks/use-loans.ts:36-53 | with a user and a successful insert the returned row is appended, and both totals grow by its figures; otherwise nothing changes |
| LoansHook.LoanStore.UpdateLoan | src/hooks/use-loans.ts:55-71 | on success every loan with the id is replaced in place by the returned row, the length and other loans unchanged; on an error nothing changes |
| LoansHook.LoanStore.DeleteLoan | src/hooks/use-loans.ts:73-85 | on success exactly the loans with the id are dropped, the rest kept in their order, and the amount owed falls by the amounts dropped; on an error nothing changes |
| InvestmentsHook.InvestmentStore.constructor | src/hooks/use-investments.ts:9-10 | the hook starts with no holdings and loading |
| InvestmentsHook.InvestmentStore.Fetch | src/hooks/use-investments.ts:12-30 | without a user nothing changes; otherwise the list becomes the rows read, or stays on an error, and loading ends either way |
| InvestmentsHook.InvestmentStore.AddInvestment | src/hooks/use-investments.ts:36-53 | with a user and a successful insert the row is appended and the total invested grows by its value |
| InvestmentsHook.InvestmentStore.UpdateInvestment | src/hooks/use-investments.ts:55-71 | on success the holdings with the id become the returned row, in place; on an error nothing changes |
| InvestmentsHook.InvestmentStore.DeleteInvestment | src/hooks/use-investments.ts:73-88 | on success exactly the holdings with the id are dropped, the rest kept in their order, and the total falls by their value; on an error nothing changes |
| InvestmentsHook.UpdateShiftsTotal | src/hooks/use-investments.ts:65-88 | with unique ids an update replaces the one holding and moves the total by the difference of the two values |
| NetWorthHook.Loaded | src/hooks/use-net-worth.ts:43-51 | the fetch stores data exactly when assets and liabilities were read and the history was read or its table is missing, in which case the history is empty |
| NetWorthHook.NetWorthStore.constructor | src/hooks/use-net-worth.ts:9-12 | the hook starts with empty lists and loading |
| NetWorthHook.NetWorthStore.Fetch | src/hooks/use-net-worth.ts:21-58 | without a user nothing changes; otherwise the three lists are replaced together or all kept, and loading ends either way |
| NetWorthHook.NetWorthStore.AddAsset | src/hooks/use-net-worth.ts:89-106 | a successful insert with a user appends the asset and raises the net worth by its amount; nothing else changes |
| NetWorthHook.NetWorthStore.AddLiability | src/hooks/use-net-worth.ts:108-125 | a successful insert with a user appends the liability and lowers the net worth by its amount |
| NetWorthHook.NetWorthStore.UpdateAsset | src/hooks/use-net-worth.ts:127-143 | on success the assets with the id become the returned row, in place |
| NetWorthHook.NetWorthStore.UpdateLiability | src/hooks/use-net-worth.ts:145-161 | on success the liabilities with the id become the returned row, in place |
| NetWorthHook.NetWorthStore.DeleteAsset | src/hooks/use-net-worth.ts:163-173 | on success exactly the assets with the id are dropped, the rest kept in their order, and the net worth falls by their amounts; liabilities and history are untouched |
| NetWorthHook.NetWorthStore.DeleteLiability | src/hooks/use-net-worth.ts:175-185 | on success exactly the liabilities with the id are dropped, the rest kept in their order, and the net worth grows by their amounts; assets and history are untouched |
| NetWorthHook.DeleteThenAddAsset | src/hooks/use-net-worth.ts:89-173 | deleting an asset with a unique id and adding it back restores the total assets, wherever it was |
| BudgetHook.RequestFor | src/hooks/use-budget.ts:101-134 | no write without a user or for an unknown category; an amount update of the category's first budget when one exists; else an insert with the category's type for the month |
| BudgetHook.BudgetStore.constructor | src/hooks/use-budget.ts:10-13 | the hook starts with empty lists and loading |
| BudgetHook.BudgetStore.Fetch | src/hooks/use-budget.ts:15-56 | without a user nothing changes; otherwise the three lists are replaced together when all three reads succeed and all kept otherwise, and loading ends |
| BudgetHook.BudgetStore.AddCategory | src/hooks/use-budget.ts:62-80 | a successful insert with a user is appended and returned; otherwise nothing changes and nothing is returned |
| BudgetHook.BudgetStore.AddTransaction | src/hooks/use-budget.ts:82-99 | a successful insert with a user goes to the front of the list, and the income or expense total grows by its amount according to its category's type |
| BudgetHook.BudgetStore.UpdateBudget | src/hooks/use-budget.ts:101-141 | sends RequestFor's write; after an update the budgets with the returned id become the row, after an insert the row is appended, otherwise nothing changes |
| BudgetHook.BudgetStore.DeleteTransaction | src/hooks/use-budget.ts:143-153 | on success exactly the transactions with the id are dropped and the rest kept in their order; budgets and categories are untouched |
| BudgetHook.SecondUpdateUpdates | src/hooks/use-budget.ts:109-134 | setting a budget twice for the same category inserts once and then updates the inserted row |
| Ledger.CategoryOf | src/hooks/use-budget.ts:157 | a transaction's category is the first one with its id, and none exactly when no category has it |
| Ledger.Partition | src/hooks/use-budget.ts:155-169 | every transaction counts once: income plus expenses plus the uncategorised ones is the whole |
| Ledger.AllCategorised | src/hooks/use-budget.ts:155-169 | with every transaction categorised, income plus expenses is the sum of all transactions |
| Sums.Filter | src/hooks/use-budget.ts:155-159 | `filter` keeps only elements of the input that satisfy the predicate |
| Sums.SumPermutation | src/components/investments/diversification-analysis.tsx:26-32 | reordering does not change a sum |
| Grouping.AddTo | src/lib/utils.ts:30-33 | adding to a present key keeps the length, a new key adds one pair |
| Grouping.AddToLookup | src/lib/utils.ts:31 | after `acc[k] = (acc[k] or 0) + v`, key k's total grows by v and every other key's stays |
| Grouping.Accumulate | src/lib/utils.ts:30-33 | the reduce loop returns the accumulator GroupBy specifies |
| Grouping.GroupByLookup | src/lib/utils.ts:30-33 | each key's total is the sum over the elements with that key |
| Grouping.GroupByKeys | src/lib/utils.ts:30-33 | the keys are distinct, every element's key is among them, and each key comes from an element |
| Grouping.GroupBySum | src/lib/utils.ts:30-35 | the totals add up to the sum over all elements |
| Grouping.GroupByTotals | src/lib/utils.ts:30-33 | each pair holds the sum over the elements with its key |
| Sorting.Insert | src/components/loans/loan-comparison.tsx:11-15 | insertion keeps every element and adds one |
| Sorting.InsertSorted | src/components/loans/loan-comparison.tsx:11-15 | inserting into a sorted list keeps it sorted |
| Sorting.SortBy | src/components/loans/loan-comparison.tsx:11-15 | the sorted copy is a permutation of the input |
| Sorting.SortBySorted | src/components/loans/loan-comparison.tsx:11-15 | the sorted copy is in non-decreasing key order |
| Sorting.SortBySortedInput | src/components/loans/loan-comparison.tsx:11-15 | sorting an already ordered list leaves it as it is |
| Sorting.SortDownBy | src/components/investments/diversification-analysis.tsx:32 | the descending copy is a permutation of the input |
| Sorting.SortDownBySorted | src/components/investments/diversification-analysis.tsx:32 | the descending copy is in non-increasing key order |
| Sorting.SortByStable | src/components/loans/loan-comparison.tsx:11-15 | the sort is stable: elements sharing a key keep their relative order |
| Growth.GrowthRate | src/lib/utils.ts:17-20 | 0 when the previous value is 0; otherwise positive exactly when the value rose and negative exactly when it fell, whatever the previous value's sign |
| Growth.GrowthRateInverse | src/lib/utils.ts:17-20 | from the rate and the previous value the current value is recovered |
| Holdings.Key | src/components/investments/diversification-analysis.tsx:17 | the grouping key is the symbol unless it is null or empty, else the name |
| Holdings.ValuesNonNegative | src/components/investments/diversification-analysis.tsx:10-13 | non-negative quantities and prices give non-negative values and total |
| Holdings.GroupsNonNegative | src/components/investments/diversification-analysis.tsx:16-23 | non-negative holdings give non-negative group totals |
| Diversification.ToAllocations | src/components/investments/diversification-analysis.tsx:26-31 | one allocation per group, with its name, value and `value / total * 100` as percentage |
| Diversification.AllocationsSum | src/components/investments/diversification-analysis.tsx:26-31 | the percentages add up to the groups' total over the total, times 100 |
| Diversification.Analyse | src/components/investments/diversification-analysis.tsx:9-34 | no analysis exactly when there are holdings whose values add up to 0; no holdings give empty lists |
| Diversification.AnalysisShape | src/components/investments/diversification-analysis.tsx:26-34 | one allocation per group, in non-increasing share, the shares adding up to 100, and the high-concentration list holding exactly the allocations above 20% |
| Diversification.AtMostFourHigh | src/components/investments/diversification-analysis.tsx:34 | with non-negative holdings at most four groups are above 20% |
| PortfolioBreakdown.Slices | src/components/investments/portfolio-breakdown.tsx:19-38 | nothing is rendered exactly when there are no holdings; otherwise the slices are the groups, reordered |
| PortfolioBreakdown.SlicesOrdered | src/components/investments/portfolio-breakdown.tsx:21-33 | the slices are in non-increasing order of value, one per key, and add up to the total invested |
| PortfolioBreakdown.SlicesTotals | src/components/investments/portfolio-breakdown.tsx:21-31 | each slice holds the sum of the values of the holdings with its key |
| PortfolioBreakdown.SlicesCover | src/components/investments/portfolio-breakdown.tsx:21-31 | every holding's key has a slice |
| PerformanceMetrics.CurrentPrice | src/components/investments/performance-metrics.tsx:18 | the quoted price when there is a non-zero quote for the holding's key, else the purchase price |
| PerformanceMetrics.MetricsOf | src/components/investments/performance-metrics.tsx:12-23 | the current value sums quantity times current price, the gain is that less the total invested, the rate is calculateGrowthRate of the two, and each arrow points up exactly when its figure is not negative |
| PerformanceMetrics.NoPricesNoGain | src/components/investments/performance-metrics.tsx:17-23 | without quotes the current value is the total invested, with no gain and a rate of 0 |
| PerformanceMetrics.ArrowsAgree | src/components/investments/performance-metrics.tsx:40-61 | the gain arrow and the rate arrow agree whenever something was invested; with nothing invested the rate arrow points up |
| PerformanceMetrics.RisingPricesGain | src/components/investments/performance-metrics.tsx:17-22 | holdings of non-negative quantity quoted at or above their purchase price show no loss |
| InvestmentMetrics.Average | src/components/investments/investment-metrics.tsx:16 | no holdings give an average of 0; otherwise the average times the count is the total invested |
| InvestmentMetrics.LargestFrom | src/components/investments/investment-metrics.tsx:18-21 | the running maximum is at least its start and every value, and is either its start or some holding's value |
| InvestmentMetrics.Largest | src/components/investments/investment-metrics.tsx:18-21 | the largest holding is at least 0 and every value, and is 0 or some holding's value |
| InvestmentMetrics.AverageAtMostLargest | src/components/investments/investment-metrics.tsx:16-21 | the average never exceeds the largest holding |
| InvestmentMetrics.TotalAtMostLargest | src/components/investments/investment-metrics.tsx:11-21 | the total invested is at most the largest holding times the count |
| InvestmentChart.ByDate | src/components/investments/investment-chart.tsx:23-25 | the holdings in chart order are the same holdings |
| InvestmentChart.Points | src/components/investments/investment-chart.tsx:27-34 | one point per holding |
| InvestmentChart.PointAt | src/components/investments/investment-chart.tsx:27-34 | point k carries holding k's date and the values of the first k+1 holdings added up |
| InvestmentChart.ChartOf | src/components/investments/investment-chart.tsx:22-39 | nothing is rendered exactly when there are no holdings |
| InvestmentChart.Chart | src/components/investments/investment-chart.tsx:22-39 | the map with its running total returns exactly the chart ChartOf specifies |
| InvestmentChart.LastPointIsTotal | src/components/investments/investment-chart.tsx:27-34 | one point per holding, and the last one is the total invested |
| InvestmentChart.DatesInOrder | src/components/investments/investment-chart.tsx:23-25 | the points go forward in time |
| InvestmentChart.ValuesNeverFall | src/components/investments/investment-chart.tsx:27-34 | with non-negative holdings the running total never falls |
| InvestmentPerformance.ByValue | src/components/dashboard/investment-performance.tsx:16-17 | the holdings by value are the same holdings |
| InvestmentPerformance.Top | src/components/dashboard/investment-performance.tsx:16-18 | at most three holdings are shown, exactly three when there are at least three |
| InvestmentPerformance.TopIsLargest | src/components/dashboard/investment-performance.tsx:16-18 | the top holdings and the ones left out are all the holdings, and none left out is worth more than one shown |
| InvestmentPerformance.HoldingOf | src/components/dashboard/investment-performance.tsx:39-40 | each line shows the holding's value and, for a non-zero total, its share of the total in percent |
| InvestmentPerformance.TopHoldings | src/components/dashboard/investment-performance.tsx:35-40 | the list is not rendered exactly when there are no holdings; otherwise one line per top holding |
| BudgetInsights.AlertFor | src/components/budget/budget-insights.tsx:41-56 | danger from 90% of the budget used, warning from 75%, nothing below; with a zero budget, danger for positive spending and nothing otherwise |
| BudgetInsights.Thresholds | src/components/budget/budget-insights.tsx:42-55 | for a positive budget: danger exactly when spending is at least 90% of it, warning exactly between 75% and 90%, nothing exactly below 75% |
| BudgetInsights.EntryAlert | src/components/budget/budget-insights.tsx:37-58 | at most one alert per spending entry, never a success, about the entry's category and only when the category has a budget |
| BudgetInsights.Alerts | src/components/budget/budget-insights.tsx:37-58 | at most one alert per entry, and none of them a success |
| BudgetInsights.BudgetSuccess | src/components/budget/budget-insights.tsx:61-70 | a budget is praised only when its category exists and nothing was spent in it |
| BudgetInsights.Successes | src/components/budget/budget-insights.tsx:61-70 | at most one success per budget, all of them successes |
| BudgetInsights.SpendingLoop | src/components/budget/budget-insights.tsx:28-34 | the reduce returns exactly the per-category spending Spending specifies |
| BudgetInsights.AlertsLoop | src/components/budget/budget-insights.tsx:37-58 | the first forEach pushes exactly the alerts Alerts specifies |
| BudgetInsights.SuccessesLoop | src/components/budget/budget-insights.tsx:61-70 | the second forEach appends exactly the successes Successes specifies |
| BudgetInsights.Insights | src/components/budget/budget-insights.tsx:20-74 | the three passes produce exactly InsightsOf |
| BudgetInsights.AlertsBeforeSuccesses | src/components/budget/budget-insights.tsx:37-70 | every danger or warning insight comes before every success insight |
| BudgetInsights.SpendingKeys | src/components/budget/budget-insights.tsx:28-34 | spending is keyed only by ids whose category is an expense category |
| BudgetInsights.IncomeUnspent | src/components/budget/budget-insights.tsx:28-34 | nothing is ever spent in an income category |
| BudgetInsights.SuccessListed | src/components/budget/budget-insights.tsx:61-70 | every budget whose category exists and has nothing spent is praised |
| BudgetInsights.IncomeBudgetPraised | src/components/budget/budget-insights.tsx:28-70 | every budget of an income category is praised |
| SpendingTrends.EntryFor | src/components/budget/spending-trends.tsx:23-28 | each bar has its category's name and the sum of the transactions filed under the category's id |
| SpendingTrends.Entries | src/components/budget/spending-trends.tsx:23-28 | one bar per category, in order |
| SpendingTrends.Trends | src/components/budget/spending-trends.tsx:21-33 | nothing is rendered exactly when there is no expense category; otherwise one bar per expense category |
| SpendingTrends.EntriesSum | src/components/budget/spending-trends.tsx:23-28 | over categories with distinct ids the bars add up to the transactions filed under any of them |
| SpendingTrends.FiledUnderExpense | src/components/budget/spending-trends.tsx:22-26 | with distinct ids a transaction is filed under an expense category exactly when its category is an expense category |
| SpendingTrends.TrendsTotal | src/components/budget/spending-trends.tsx:21-28 | with distinct ids the bars add up to the month's expense total that the budget hook reports |
| NetWorthPage.Breakdown | src/pages/net-worth.tsx:48-68 | one entry per table key in table order, each with the key's label and the sum of the elements filed under that key |
| NetWorthPage.BreakdownSum | src/pages/net-worth.tsx:48-68 | over distinct keys the entries add up to the sum over the elements whose key is listed |
| NetWorthPage.BreakdownTotal | src/pages/net-worth.tsx:48-68 | when every element's key is listed the entries add up to the sum over all elements |
| NetWorthPage.AssetEntries | src/pages/net-worth.tsx:48-57 | five entries labelled in table order; every asset category is listed; the entry with a category's label holds that category's sum, which is 0 when no asset has that category |
| NetWorthPage.LiabilityEntries | src/pages/net-worth.tsx:59-68 | the same for the four liability categories |
| NetWorthPage.AssetBreakdownTotal | src/pages/net-worth.tsx:48-57 | the asset breakdown adds up to the hook's total assets |
| NetWorthPage.LiabilityBreakdownTotal | src/pages/net-worth.tsx:59-68 | the liability breakdown adds up to the hook's total liabilities |
| NetWorthPage.SaveOffer | src/pages/net-worth.tsx:114-126 | a save is offered exactly when there is an asset or a liability, and the saved net worth is assets minus liabilities |
| NetWorthPage.SavedMatchesBreakdown | src/pages/net-worth.tsx:114-126 | the saved net worth equals the asset breakdown's sum minus the liability breakdown's sum |
| CategoryBreakdown.Slices | src/components/net-worth/category-breakdown.tsx:27-30 | one slice per entry, named by its label and sized by its amount |
| CategoryBreakdown.ChartData | src/components/net-worth/category-breakdown.tsx:23-36 | no chart exactly when no entry is positive; otherwise between one slice and one slice per entry |
| CategoryBreakdown.ChartDataShape | src/components/net-worth/category-breakdown.tsx:25-30 | the slices are exactly the positive entries: every slice is positive and comes from an entry, and every positive entry has its slice |
| CategoryBreakdown.SlicesSum | src/components/net-worth/category-breakdown.tsx:27-30 | the slices add up to the entries they come from |
| CategoryBreakdown.ChartKeepsTotal | src/components/net-worth/category-breakdown.tsx:25-36 | with no negative entry the chart's slices add up to all the entries, and a missing chart means they add up to 0 |
| CategoryBreakdown.AssetChartTotal | src/components/net-worth/category-breakdown.tsx:25-36 | with no negative asset the asset chart adds up to the total assets, and is missing only when that total is 0 |
| NetWorthChart.Series | src/components/net-worth/net-worth-chart.tsx:22-35 | nothing is drawn exactly when the history is empty; otherwise one point per row with its date, its assets, its liabilities negated and its net worth |
| NetWorthChart.SeriesStacks | src/components/net-worth/net-worth-chart.tsx:24-29 | for rows whose net worth is assets minus liabilities every point's assets plus liabilities is its net worth, and a non-negative liability is drawn at or below the axis |
| FinancialGoals.Progress | src/components/dashboard/financial-goals.tsx:33 | no progress value exactly when the target is 0; otherwise progress times target is current amount times 100 |
| FinancialGoals.Rows | src/components/dashboard/financial-goals.tsx:17-45 | nothing is rendered exactly when there are no goals; otherwise one row per goal with its name, amounts and progress |
| FinancialGoals.ProgressMeaning | src/components/dashboard/financial-goals.tsx:33 | for a positive target the bar is full exactly when the target is reached, and between 0 and 100 exactly when the amount is between 0 and the target |
| DashboardPage.Goals | src/pages/dashboard.tsx:36-49 | the emergency fund at a tenth of the assets against 10000, and the debt goal at the liabilities against 0 |
| DashboardPage.SummaryOf | src/pages/dashboard.tsx:27-34 | the invested total, the monthly loan payments, the two goals, and the month's income and expense totals by category kind |
| DashboardPage.IncomeExpensesPartition | src/pages/dashboard.tsx:146-163 | income, expenses and the uncategorised transactions add up to all the transactions |
| DashboardPage.GoalProgress | src/pages/dashboard.tsx:36-49 | the emergency bar shows a thousandth of the assets and is full exactly at 100000 of assets; the debt goal has no progress value |
| RecentTransactions.LineFor | src/components/dashboard/recent-transactions.tsx:24-48 | each line carries its transaction and the category found for it; the sign is `+` exactly for an income category, and the arrow points up exactly then |
| RecentTransactions.Lines | src/components/dashboard/recent-transactions.tsx:23-48 | one line per transaction, in order |
| RecentTransactions.Recent | src/components/dashboard/recent-transactions.tsx:23 | at most five lines, exactly five when there are five transactions, each the transaction at its position |
| RecentTransactions.CreditsAreIncome | src/components/dashboard/recent-transactions.tsx:44-48 | the amounts shown with `+` add up to the income total of those transactions |
| RecentTransactions.RecentCredits | src/components/dashboard/recent-transactions.tsx:23-48 | the `+` amounts shown add up to the income among the first five transactions |
| RecentDocuments.SizeInMb | src/components/dashboard/recent-documents.tsx:34 | megabytes times 1048576 give back the bytes |
| RecentDocuments.SizeOrder | src/components/dashboard/recent-documents.tsx:34 | sizes in megabytes are ordered as the byte counts are |
| RecentDocuments.CategoryLabel | src/components/dashboard/recent-documents.tsx:30 | a label exactly for a known category, the table's non-empty label |
| RecentDocuments.ViewOf | src/components/dashboard/recent-documents.tsx:22-42 | at most five lines, five when there are five documents, each for the document at its position; the empty message shows exactly when there are no documents, which is exactly when there are no lines |
| RecentDocuments.KnownCategoriesLabelled | src/components/dashboard/recent-documents.tsx:30 | each of the seven categories a document can have shows a label |
| FinancialInsights.HotMeaning | src/lib/utils.ts:39-40 | for a positive total a category is reported exactly when it holds more than half of the total |
| FinancialInsights.EntryInsight | src/lib/utils.ts:38-45 | a message exactly when the entry is above the threshold: one concentration message naming the category and its label, with no percentage exactly when the total is 0 and otherwise a percentage that times the total is the amount times 100 |
| FinancialInsights.Concentration | src/lib/utils.ts:38-45 | at most one message per entry, all of them concentration messages |
| FinancialInsights.RefinanceInsight | src/lib/utils.ts:67-70 | a refinancing message naming the liability with its rate, which is above 10 |
| FinancialInsights.Refinances | src/lib/utils.ts:65-71 | one refinancing message per high-interest liability, in order |
| FinancialInsights.GrowthInsight | src/lib/utils.ts:48-62 | at most one growth message, present exactly when there are two or more rows and the growth rate of the last over the one before is not 0; it reports growth for a positive rate and a decrease by the rate's magnitude otherwise |
| FinancialInsights.GrowthMessage | src/lib/utils.ts:48-62 | with two or more rows there is a message exactly when the previous net worth is not 0 and the latest differs from it; it reports growth exactly when the latest is higher, and its rate is positive either way |
| FinancialInsights.GroupAssets | src/lib/utils.ts:30-33 | the reduce builds the per-category accumulator |
| FinancialInsights.TotalOf | src/lib/utils.ts:35 | the loop computes the sum of the accumulated values |
| FinancialInsights.ConcentrationLoop | src/lib/utils.ts:38-45 | the first `forEach` pushes exactly the concentration messages |
| FinancialInsights.RefinanceLoop | src/lib/utils.ts:65-71 | the second `forEach` appends exactly the refinancing messages of the filtered liabilities |
| FinancialInsights.Insights | src/lib/utils.ts:22-74 | the whole function returns the concentration, growth and refinancing messages in that order |
| FinancialInsights.GroupsTotal | src/lib/utils.ts:30-35 | the total the shares are taken of is the total of the assets |
| FinancialInsights.ConcentrationSource | src/lib/utils.ts:38-45 | every concentration message names a category whose entry is above the threshold |
| FinancialInsights.ConcentrationNone | src/lib/utils.ts:38-45 | with no entry above the threshold there is no concentration message |
| FinancialInsights.ConcentrationAtMostOne | src/lib/utils.ts:38-45 | when no two entries are both above the threshold there is at most one concentration message |
| FinancialInsights.AtMostOneConcentrated | src/lib/utils.ts:30-45 | with no negative asset at most one category is reported as concentrated |
| FinancialInsights.GroupsNonNegative | src/lib/utils.ts:30-35 | with no negative asset every category total and the overall total are non-negative |
| FinancialInsights.RefinancesRank | src/lib/utils.ts:65-71 | every refinancing message belongs to the last block |
| FinancialInsights.GrowthRank | src/lib/utils.ts:48-62 | the growth message belongs to the middle block |
| FinancialInsights.InsightsOrder | src/lib/utils.ts:22-74 | no message of a later block comes before one of an earlier block |
| FinancialInsights.RefinanceBlock | src/lib/utils.ts:65-74 | the messages end with one refinancing message per high-interest liability, in input order |

## Left out

- Amortization.AmortizationOf and Amortization.CalculateAmortization: require a positive rate and at least one month. At a zero rate the payment formula divides 0 by 0, giving NaN. With no months the source reads a row that does not exist.
- AmortizationPage.Page.HandleCalculate and AmortizationPage.Page.HandleLoad: carry the same precondition, through `Computable`.
- Refinance.NewTotals and Refinance.Analyse: where the formula divides by zero (a zero new rate, or a rate below -100% a month whose `(1+r)^n` is 1) the source shows NaN or Infinity; the model gives no figures. Both require a term of at least one month, which the loan form demands (src/components/loans/loan-form.tsx:129).
- AmortizationPage.CostIsPrincipalPlusInterest and AmortizationPage.CostIsPayments: require a non-zero principal. For a zero principal the page shows NaN or Infinity as the key metrics, and the model leaves those metrics undefined.
- Floating point: all arithmetic is exact `real` arithmetic. Rounding, overflow and NaN propagation of JavaScript numbers are not modelled. Where the source divides by zero, the model returns `None` or an error outcome, or the member requires a non-zero divisor.
- `Math.log` in the payoff calculator: replaced by its exact meaning. For a positive rate that is the least whole number of months n with (1+r)^n at least the payment ratio; for a rate between -100% and 0 it is the least n with (1+r)^n at most the ratio. Both agree with `ceil(log(x)/log(1+r))` in exact arithmetic.
- Text formatting: `formatCurrency`, `toFixed`, `Intl` number and date formats, and the wording of the insight messages. Messages are modelled by what they report.
- The CSV export writes numbers through a `show` parameter, so the digits printed are not modelled. Building the Blob, the object URL and the download link is not modelled either.
- Clock and dates: the current date enters as a parameter. This covers the selected month string of the budget hook and the purchase-date order of the investment chart, through a `time` parameter.
- The loan name and start date that `handleSave` derives from the clock are left out of the saved record.
- Toasts, `console.error` and the `loading` spinner's rendering are not modelled. Only the `loading` flag's value after a fetch is.
- React rendering: state batching, effects, stale closures and the order in which concurrent async calls finish are not modelled. Each hook call is one atomic step from the state it starts in.
- Backend: the queries, their filters and ordering, row-level security and authentication are not modelled. Each answer enters as an `Outcome` parameter, and the signed-in user as a flag.
- JavaScript objects used as dictionaries keep their keys in first-insertion order in the model. JavaScript lists integer-like string keys first, in numeric order, and category ids and symbols of that form would be reordered; this is not modelled.
- Inherited members of JavaScript objects are not modelled. A key such as `constructor` or `toString` makes `acc[key]` in the accumulations, `!spendingByCategory[id]` in the budget insights and `currentPrices?.[key]` in the performance metrics read a member of `Object.prototype`. The model treats such keys as absent: Grouping.AddTo, BudgetInsights.BudgetSuccess, PortfolioBreakdown.Slices, PerformanceMetrics.CurrentPrice.
- `updateHistory` in src/hooks/use-net-worth.ts:60-86 only writes a history row to the backend and changes no state of the hook. It is not modelled.
- src/hooks/use-documents.ts is not part of this model: the documents list enters the dashboard as a value.
- The net-worth page's loader (src/pages/net-worth.tsx:103-112) is not modelled. It calls `addAsset` and `addLiability` once per saved row. Every call appends to the same captured list (src/hooks/use-net-worth.ts:100 and 119), so only the last row of each kind survives. That is the stale-closure behaviour listed above, and a sequence of `AddAsset` steps does not reproduce it.
- Chart layout, colours, icons and tooltips are modelled only where the source derives them from the data (arrow direction, sign, bar widths).
