# Optometry services financial model in Dafny

This project models the computational core of a small financial-modelling
tool for a specialised optometry practice. From one record of business
assumptions (`Inputs`), the tool builds three things:

1. a twelve-month profit-and-loss projection (`build_projection`);
2. a twelve-month cash-flow statement that reads the projection (`build_cashflow`);
3. a one-row summary of key ratios that reads both tables (`calculate_ratios`).

Money is modelled exactly as `real`. The visit count and the receivable and
payable days stay whole numbers, as in the `Inputs` record. Tables are
sequences of row records, one per month of the `Months` axis (Jan 2025 to
Dec 2025).

- `financial_model.dfy` (module `FinancialModel`): the month axis, `Inputs`,
  `Option`, and the column sum `Sum`.
- `projection.dfy` (module `Projection`): the projection as a function.
  Every money column is a closed-form expression of the inputs, so the twelve
  rows differ only in their label (`Uniform`).
- `cashflow.dfy` (module `CashFlow`): the statement as a function,
  `CashFlowTable`, and the builder as a method, `BuildCashFlow`, proved equal to
  it. The builder works column by column as the source does:
  - CapEx is written as the full purchase in every row;
  - it is then overwritten with 0 from the second month on;
  - the net change is computed;
  - `RunningBalances` runs the month-by-month opening/closing balance loop
    over arrays.
- `ratios.dfy` (module `Ratios`): the ratios row. Each division returns `None`
  where its denominator is zero.

## Model

| member | source | states |
|---|---|---|
| `FinancialModel.SumOfConstant` | financial_model.py:84-88 | a yearly total of a column that holds one value in every month is the month count times that value |
| `FinancialModel.Sum` | financial_model.py:86-88 | a column's yearly total, adding the months in order (a definition without a contract of its own; `SumCons`, `SumNonNegative` and `SumOfConstant` state its properties) |
| `FinancialModel.SumCons` | financial_model.py:84-88 | adding the first month to the total of the remaining months gives the same sum as the in-order total |
| `FinancialModel.SumNonNegative` | financial_model.py:86-88 | a column with no negative month has a yearly total that is not negative |
| `Projection.Tax` | financial_model.py:53 | the monthly tax is never negative, is at least 25% of EBIT, is either 0 or exactly 25% of EBIT, and is 0 exactly when EBIT is not positive |
| `Projection.BuildProjection` | financial_model.py:32-55 | twelve rows labelled by the month axis in order. In every row: patient revenue is visits times revenue per visit; product revenue, fixed overheads and variable costs come from the inputs; depreciation is the purchase over 60; interest is equity times rate over 12; the column identities (total, gross profit, EBITDA, EBIT, tax, net profit) hold. All rows are equal apart from the label |
| `Projection.ProjectionMonthColumn` | financial_model.py:10-13 | the projection's Month column is exactly the month list, in order |
| `Projection.RowDeterminedByInputs` | financial_model.py:35-54 | the input columns and the identities fix a row: two rows that satisfy both for the same inputs and month are equal |
| `Projection.NetProfitByCase` | financial_model.py:53-54 | net profit is three quarters of EBIT less interest when EBIT is positive, and EBIT less interest otherwise; it never exceeds EBIT less interest |
| `Projection.NetProfitMonotoneInEbit` | financial_model.py:53-54 | net profit never falls as EBIT rises, and keeps at least three quarters of any rise |
| `Projection.HigherPriceNeverLowersNetProfit` | financial_model.py:35-54 | with a non-negative visit count, raising the revenue per visit never lowers any month's net profit |
| `Projection.ReferenceProjection` | financial_model.py:32-55 | for the input form's default assumptions, January's figures to the exact fraction (depreciation 25000/3, EBIT 3575000/3, interest 21250/3, taxes 893750/3, net profit 2660000/3) |
| `CashFlow.CashFlowTable` | financial_model.py:58-80 | twelve rows labelled by the month axis. Each row: net profit and depreciation are copied from the projection row of its month; the receivables change is minus revenue times receivable days over 365; the payables change is variable costs times payable days over 365; equity is injected every month; net borrowing is 0. Cash from operations and net change add up their parts. CapEx is minus the purchase in January and 0 after. Each month's closing cash is its opening cash plus its net change. January opens with the equity injection, and every later month opens with the previous month's close |
| `CashFlow.BuildCashFlow` | financial_model.py:58-80 | the column-by-column builder, with the CapEx overwrite and the balance loop, produces exactly `CashFlowTable` |
| `CashFlow.RunningBalances` | financial_model.py:73-79 | the balance loop yields, for every month, the opening cash (the starting cash in the first month, the previous close after it) and the closing cash (opening plus net change) of the recurrence |
| `CashFlow.BuiltNetChanges` | financial_model.py:67-72 | the net change the builder computes from its overwritten CapEx column equals the statement's Net Change in Cash column |
| `CashFlow.AssembledRow` | financial_model.py:68-72 | a row put together from the operating columns and the CapEx, equity, borrowing and net-change columns is the statement's row of that month |
| `CashFlow.AssembledTable` | financial_model.py:58-80 | the columns as the builder computes them assemble into the statement |
| `CashFlow.ClosingCash` | financial_model.py:74-79 | a month's closing cash: the start plus that month's change in January, the previous close plus the change after (the recurrence the balance loop is proved equal to; `ClosingCashIsRunningSum` gives its closed form) |
| `CashFlow.OpeningCash` | financial_model.py:74-78 | a month's opening cash: the starting cash in January, the previous month's closing cash after |
| `CashFlow.ClosingCashNeverBelowStart` | financial_model.py:74-79 | while no month so far has a negative net change, neither that month's opening nor its closing cash is below the starting cash |
| `CashFlow.ClosingCashIsRunningSum` | financial_model.py:73-79 | each month's closing cash is the starting cash plus every net change up to and including that month |
| `CashFlow.FinalClosingCash` | financial_model.py:73-79 | December's closing cash is the equity injection plus the sum of the year's net changes |
| `CashFlow.WorkingCapitalRowSigns` | financial_model.py:65-66 | with non-negative revenue, costs and days, the receivables change is never positive and the payables change never negative |
| `CashFlow.WorkingCapitalSigns` | financial_model.py:65-66 | for non-negative inputs, every month of the statement has a receivables change of at most 0 and a payables change of at least 0 |
| `CashFlow.SameOperatingCash` | financial_model.py:60-67 | cash from operations depends only on the projection row's net profit, depreciation, revenue and variable costs, not on the month |
| `CashFlow.NetChangesOfUniform` | financial_model.py:67-72 | over a projection of equal months: January's net change is operating cash less the purchase plus equity; every later month's is operating cash plus equity |
| `CashFlow.ConstantOperatingCash` | financial_model.py:60-67 | over a projection of equal months, every month has the same cash from operations |
| `CashFlow.YearEndClosingCash` | financial_model.py:68-79 | over a projection of equal months, December closes at 13 times the equity injection plus 12 months of operating cash less the one equipment purchase |
| `CashFlow.ReferenceCashFlow` | financial_model.py:58-80 | for the default assumptions, January's opening cash is 1000000, CapEx -500000, receivables change -51000000/365, payables change 13500000/365, and operating and closing cash are given as exact fractions |
| `Ratios.Quotient` | financial_model.py:86-88 | a quotient is present exactly when the denominator is not zero, and then times the denominator gives back the numerator |
| `Ratios.AnnualDebtService` | financial_model.py:88 | the DSCR denominator, rate times equity over 12 times 12, equals rate times equity exactly |
| `Ratios.CalculateRatios` | financial_model.py:83-90 | the current ratio is always 1.5. Operating margin is present exactly when the year's revenue is not zero, and times that revenue gives the year's EBITDA. ROE is present exactly when the equity is not zero, and times the equity gives the year's net profit. DSCR is present exactly when rate and equity are both nonzero, and times rate × equity gives the year's cash from operations; the /12 and *12 cancel |
| `Ratios.ProjectionTotalsOfUniform` | financial_model.py:86-87 | over a projection of equal months, the year's revenue, EBITDA and net profit are each twelve times the month's |
| `Ratios.OperatingCashTotalOfUniform` | financial_model.py:88 | over a projection of equal months, the year's cash from operations is twelve times the month's |
| `Ratios.QuotientOfTwelfths` | financial_model.py:86-88 | a ratio of two twelve-month totals is the ratio of the monthly figures, including when the denominator is zero |
| `Ratios.AnnualOverMonthlyInterest` | financial_model.py:88 | twelve months of a figure over the yearly debt service is one month of it over one month's interest expense |
| `Ratios.OperatingMarginOfUniform` | financial_model.py:86 | over a projection of equal months, the operating margin is one month's EBITDA over that month's revenue |
| `Ratios.ReturnOnEquityOfUniform` | financial_model.py:87 | over a projection of equal months, ROE is twelve months of net profit over the equity injection |
| `Ratios.DebtServiceCoverageOfUniform` | financial_model.py:88 | over a projection of equal months with the model's interest, DSCR is one month's operating cash over one month's interest expense |
| `Ratios.NoEquityNoReturnRatios` | financial_model.py:87-88 | without equity there is no ROE and no DSCR |

## Left out

- The command-line entry point (financial_model.py:93-109): argument parsing, JSON loading and CSV writing are I/O.
- app.py: the interactive UI around the core. This includes the scenario factor, which scales the visits, the revenue per visit and the product sales before `Inputs` is built. It runs before the computation and is not part of it.
- `Inputs.to_dict` (financial_model.py:28-29): a reflection helper with no logic.
- Floating-point rounding: money is exact `real`, so the model shows no rounding error and no display rounding.
- Division by zero in the ratios: pandas gives an infinity or NaN, and the model gives `None` instead.
- `CashFlow.CashFlowTable` and `CashFlow.BuildCashFlow`: stated only for a projection of twelve rows. For other lengths, the source's pandas index alignment would fill missing cells with NaN, and that is not modelled.
- `CashFlow.RunningBalances`: the Opening Cash column is created as an integer column (financial_model.py:73), and the loop then writes fractional balances into it cell by cell. The model assumes pandas widens the column to float on that write; a pandas version that refuses the write is not modelled.
- `CashFlow.BuildCashFlow`: before the balance loop, the source has no Closing Cash column (the loop creates it cell by cell); the builder's closing array starts at 0, like Opening Cash. Every cell is overwritten before the result is read.
- `CashFlow.BuildCashFlow`: the statement is modelled as separate column arrays that are assembled into rows at the end, not as one mutable table, so the DataFrame's in-place column assignment is not modelled as such.
