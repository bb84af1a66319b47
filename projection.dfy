/** The monthly profit-and-loss projection (build_projection). Every money
    column is a closed-form expression of the inputs, so all twelve rows carry
    the same figures and differ only in their month label. */
module Projection {
  import opened FinancialModel

  datatype ProjectionRow = ProjectionRow(
    month: string,
    patientRevenue: real,
    productRevenue: real,
    totalRevenue: real,
    variableCosts: real,
    grossProfit: real,
    fixedOverheads: real,
    ebitda: real,
    depreciation: real,
    ebit: real,
    interestExpense: real,
    taxes: real,
    netProfit: real)

  /** Straight-line depreciation over five years, charged monthly. */
  const DepreciationMonths: real := 60.0
  const TaxRate: real := 0.25

  /** The tax on a month's EBIT: the larger of 25% of it and zero, so a loss
      earns no tax credit. */
  function Tax(ebit: real): (t: real)
    ensures t >= 0.0 && t >= ebit * TaxRate
    ensures t == 0.0 || t == ebit * TaxRate
    ensures t == 0.0 <==> ebit <= 0.0
  {
    if ebit * TaxRate >= 0.0 then ebit * TaxRate else 0.0
  }

  /** The columns of a row that come straight from the inputs. The debt
      principal behind the interest expense is the equity injection. */
  predicate TakenFromInputs(r: ProjectionRow, inp: Inputs)
  {
    r.patientRevenue == inp.avgPatientVisits as real * inp.avgRevenuePerVisit &&
    r.productRevenue == inp.monthlyProductSales &&
    r.variableCosts == inp.avgPatientVisits as real * inp.variableCostPerVisit &&
    r.fixedOverheads == inp.fixedOverheads &&
    r.depreciation == inp.equipmentPurchase / DepreciationMonths &&
    r.interestExpense == inp.equityInjection * inp.debtInterestRate / 12.0
  }

  /** The accounting identities between the columns of one row. */
  predicate Consistent(r: ProjectionRow)
  {
    r.totalRevenue == r.patientRevenue + r.productRevenue &&
    r.grossProfit == r.totalRevenue - r.variableCosts &&
    r.ebitda == r.grossProfit - r.fixedOverheads &&
    r.ebit == r.ebitda - r.depreciation &&
    r.taxes == Tax(r.ebit) &&
    r.netProfit == r.ebit - r.interestExpense - r.taxes
  }

  /** Twelve rows, one per month in order, carrying the same figures. */
  predicate Uniform(t: seq<ProjectionRow>)
  {
    |t| == MonthCount && forall i :: 0 <= i < |t| ==> t[i] == t[0].(month := MonthLabel(i))
  }

  /** One month of the projection, column by column in the order the Python projection builder computes them. */
  function MonthRow(inp: Inputs, month: string): ProjectionRow
  {
    var patient := inp.avgPatientVisits as real * inp.avgRevenuePerVisit;
    var product := inp.monthlyProductSales;
    var total := patient + product;
    var variable := inp.avgPatientVisits as real * inp.variableCostPerVisit;
    var gross := total - variable;
    var ebitda := gross - inp.fixedOverheads;
    var dep := inp.equipmentPurchase / DepreciationMonths;
    var ebit := ebitda - dep;
    var interest := inp.equityInjection * inp.debtInterestRate / 12.0;
    var taxes := Tax(ebit);
    ProjectionRow(month, patient, product, total, variable, gross, inp.fixedOverheads,
                  ebitda, dep, ebit, interest, taxes, ebit - interest - taxes)
  }

  /** The twelve-month projection: one row per month in order, each satisfying
      the column identities, and all rows equal apart from the label. */
  function BuildProjection(inp: Inputs): (t: seq<ProjectionRow>)
    ensures |t| == MonthCount == 12
    ensures forall i :: 0 <= i < |t| ==> t[i].month == MonthLabel(i)
    ensures forall i :: 0 <= i < |t| ==> TakenFromInputs(t[i], inp) && Consistent(t[i])
    ensures Uniform(t)
  {
    seq(MonthCount, i requires 0 <= i < MonthCount => MonthRow(inp, MonthLabel(i)))
  }

  /** The Month column of the projection is the month axis, in order. */
  lemma ProjectionMonthColumn(inp: Inputs)
    ensures var t := BuildProjection(inp);
      |t| == |Months| && forall i :: 0 <= i < |t| ==> t[i].month == Months[i]
  {
  }

  /** The input columns and the identities fix a row completely: two rows that
      satisfy both for the same inputs and month are equal. */
  lemma RowDeterminedByInputs(inp: Inputs, r1: ProjectionRow, r2: ProjectionRow)
    requires TakenFromInputs(r1, inp) && Consistent(r1)
    requires TakenFromInputs(r2, inp) && Consistent(r2)
    requires r1.month == r2.month
    ensures r1 == r2
  {
  }

  /** Net profit in closed form: a profitable month keeps three quarters of
      its EBIT, a loss-making month keeps all of it, and interest comes off both. */
  lemma NetProfitByCase(r: ProjectionRow)
    requires Consistent(r)
    ensures r.ebit > 0.0 ==> r.netProfit == 0.75 * r.ebit - r.interestExpense
    ensures r.ebit <= 0.0 ==> r.netProfit == r.ebit - r.interestExpense
    ensures r.netProfit <= r.ebit - r.interestExpense
  {
  }

  /** Net profit never falls when EBIT rises: the tax takes at most a quarter
      of any increase. */
  lemma NetProfitMonotoneInEbit(e1: real, e2: real, interest: real)
    requires e1 <= e2
    ensures e1 - interest - Tax(e1) <= e2 - interest - Tax(e2)
    ensures (e2 - interest - Tax(e2)) - (e1 - interest - Tax(e1)) >= 0.75 * (e2 - e1)
  {
  }

  /** A higher revenue per visit never lowers any month's net profit, as long
      as the visit count is not negative. */
  lemma HigherPriceNeverLowersNetProfit(inp: Inputs, price: real)
    requires inp.avgPatientVisits >= 0 && price >= inp.avgRevenuePerVisit
    ensures forall i :: 0 <= i < MonthCount ==>
      BuildProjection(inp)[i].netProfit <= BuildProjection(inp.(avgRevenuePerVisit := price))[i].netProfit
  {
    var a := BuildProjection(inp)[0];
    var b := BuildProjection(inp.(avgRevenuePerVisit := price))[0];
    var visits := inp.avgPatientVisits as real;
    assert visits * inp.avgRevenuePerVisit <= visits * price by {
      assert visits * (price - inp.avgRevenuePerVisit) >= 0.0;
    }
    assert a.ebit <= b.ebit;
    NetProfitMonotoneInEbit(a.ebit, b.ebit, a.interestExpense);
  }

  /** The default assumptions of the input form: 1000 visits at 1500, product
      sales 200000, overheads 200000, variable cost 300 per visit, equipment
      500000, 30 receivable and 45 payable days, 8.5% on 1000000 of equity. */
  function ReferenceInputs(): Inputs
  {
    Inputs(1000, 1500.0, 200000.0, 200000.0, 300.0, 500000.0, 30, 45, 0.085, 1000000.0)
  }

  /** The example's first projection month, to the exact fraction. */
  lemma ReferenceProjection()
    ensures var r := BuildProjection(ReferenceInputs())[0];
      r.month == "Jan 2025" &&
      r.patientRevenue == 1500000.0 && r.productRevenue == 200000.0 &&
      r.totalRevenue == 1700000.0 && r.variableCosts == 300000.0 &&
      r.grossProfit == 1400000.0 && r.ebitda == 1200000.0 &&
      r.depreciation == 25000.0 / 3.0 && r.ebit == 3575000.0 / 3.0 &&
      r.interestExpense == 21250.0 / 3.0 && r.taxes == 893750.0 / 3.0 &&
      r.netProfit == 2660000.0 / 3.0
  {
  }
}
