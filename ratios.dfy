/** The one-row summary of key ratios (calculate_ratios). Each ratio divides
    a yearly total by a denominator the Python ratio builder never checks; where that
    denominator is zero the model gives None instead of an infinity or NaN. */
module Ratios {
  import opened FinancialModel
  import opened Projection
  import opened CashFlow

  datatype Ratios = Ratios(
    currentRatio: real,
    operatingMargin: Option<real>,
    roe: Option<real>,
    dscr: Option<real>)

  /** A fixed stand-in: there is no balance sheet to compute it from. */
  const PlaceholderCurrentRatio: real := 1.5

  /** `num / den`, or None when the denominator is zero. */
  function Quotient(num: real, den: real): (q: Option<real>)
    ensures q.Some? <==> den != 0.0
    ensures q.Some? ==> q.value * den == num
  {
    if den == 0.0 then None else Some(num / den)
  }

  /** The columns the ratios add up, and their yearly totals. */
  function RevenueColumn(proj: seq<ProjectionRow>): seq<real>
  {
    seq(|proj|, i requires 0 <= i < |proj| => proj[i].totalRevenue)
  }

  function EbitdaColumn(proj: seq<ProjectionRow>): seq<real>
  {
    seq(|proj|, i requires 0 <= i < |proj| => proj[i].ebitda)
  }

  function NetProfitColumn(proj: seq<ProjectionRow>): seq<real>
  {
    seq(|proj|, i requires 0 <= i < |proj| => proj[i].netProfit)
  }

  function OperatingCashColumn(cf: seq<CashFlowRow>): seq<real>
  {
    seq(|cf|, i requires 0 <= i < |cf| => cf[i].cashFromOperations)
  }

  function TotalRevenue(proj: seq<ProjectionRow>): real { Sum(RevenueColumn(proj)) }

  function TotalEbitda(proj: seq<ProjectionRow>): real { Sum(EbitdaColumn(proj)) }

  function TotalNetProfit(proj: seq<ProjectionRow>): real { Sum(NetProfitColumn(proj)) }

  function TotalCashFromOperations(cf: seq<CashFlowRow>): real { Sum(OperatingCashColumn(cf)) }

  /** The yearly debt service: twelve months of interest on the equity
      injection, which stands in for the debt principal. Dividing by twelve
      and multiplying back cancel exactly, leaving rate times equity. */
  function AnnualDebtService(inp: Inputs): (d: real)
    ensures d == inp.debtInterestRate * inp.equityInjection
  {
    inp.debtInterestRate * inp.equityInjection / 12.0 * 12.0
  }

  /** The ratios row. Operating margin is EBITDA over revenue and ROE net
      profit over equity, both for the year; DSCR is the year's operating cash
      over the yearly interest, in which the monthly /12 and the *12 cancel.
      Each is present exactly when its denominator is not zero. */
  function CalculateRatios(inp: Inputs, proj: seq<ProjectionRow>, cf: seq<CashFlowRow>): (r: Ratios)
    ensures r.currentRatio == 1.5
    ensures r.operatingMargin.Some? <==> TotalRevenue(proj) != 0.0
    ensures r.operatingMargin.Some? ==> r.operatingMargin.value * TotalRevenue(proj) == TotalEbitda(proj)
    ensures r.roe.Some? <==> inp.equityInjection != 0.0
    ensures r.roe.Some? ==> r.roe.value * inp.equityInjection == TotalNetProfit(proj)
    ensures r.dscr.Some? <==> inp.debtInterestRate != 0.0 && inp.equityInjection != 0.0
    ensures r.dscr.Some? ==>
      r.dscr.value * (inp.debtInterestRate * inp.equityInjection) == TotalCashFromOperations(cf)
  {
    Ratios(
      PlaceholderCurrentRatio,
      Quotient(TotalEbitda(proj), TotalRevenue(proj)),
      Quotient(TotalNetProfit(proj), inp.equityInjection),
      Quotient(TotalCashFromOperations(cf), AnnualDebtService(inp)))
  }

  /** Over a projection of equal months (the model's own among them), every
      yearly total of the projection is twelve times the month's figure. */
  lemma ProjectionTotalsOfUniform(proj: seq<ProjectionRow>)
    requires Uniform(proj)
    ensures TotalRevenue(proj) == 12.0 * proj[0].totalRevenue
    ensures TotalEbitda(proj) == 12.0 * proj[0].ebitda
    ensures TotalNetProfit(proj) == 12.0 * proj[0].netProfit
  {
    var p := proj[0];
    SumOfConstant(RevenueColumn(proj), p.totalRevenue);
    SumOfConstant(EbitdaColumn(proj), p.ebitda);
    SumOfConstant(NetProfitColumn(proj), p.netProfit);
  }

  /** ... and the year's cash from operations is twelve times the month's. */
  lemma OperatingCashTotalOfUniform(inp: Inputs, proj: seq<ProjectionRow>)
    requires Uniform(proj)
    ensures var cf := CashFlowTable(inp, proj);
      TotalCashFromOperations(cf) == 12.0 * cf[0].cashFromOperations
  {
    var cf := CashFlowTable(inp, proj);
    ConstantOperatingCash(inp, proj);
    SumOfConstant(OperatingCashColumn(cf), cf[0].cashFromOperations);
  }

  /** A ratio of two yearly totals of equal months is the monthly ratio. */
  lemma QuotientOfTwelfths(a: real, b: real)
    ensures Quotient(12.0 * a, 12.0 * b) == Quotient(a, b)
  {
    if b != 0.0 {
      assert (12.0 * a) / (12.0 * b) == a / b;
    }
  }

  /** Twelve months of a figure over the yearly debt service is one month of
      it over one month's interest. */
  lemma AnnualOverMonthlyInterest(inp: Inputs, total: real, monthly: real)
    requires total == 12.0 * monthly
    ensures Quotient(total, AnnualDebtService(inp))
         == Quotient(monthly, inp.equityInjection * inp.debtInterestRate / 12.0)
  {
    var interest := inp.equityInjection * inp.debtInterestRate / 12.0;
    assert AnnualDebtService(inp) == 12.0 * interest;
    QuotientOfTwelfths(monthly, interest);
  }

  /** Over a projection of equal months, the yearly operating margin is one
      month's EBITDA over that month's revenue. */
  lemma OperatingMarginOfUniform(inp: Inputs, proj: seq<ProjectionRow>, cf: seq<CashFlowRow>)
    requires Uniform(proj)
    ensures CalculateRatios(inp, proj, cf).operatingMargin == Quotient(proj[0].ebitda, proj[0].totalRevenue)
  {
    ProjectionTotalsOfUniform(proj);
    QuotientOfTwelfths(proj[0].ebitda, proj[0].totalRevenue);
  }

  /** Over a projection of equal months, ROE is twelve months of net profit
      over the equity injection. */
  lemma ReturnOnEquityOfUniform(inp: Inputs, proj: seq<ProjectionRow>, cf: seq<CashFlowRow>)
    requires Uniform(proj)
    ensures CalculateRatios(inp, proj, cf).roe == Quotient(12.0 * proj[0].netProfit, inp.equityInjection)
  {
    ProjectionTotalsOfUniform(proj);
  }

  /** Over a projection of equal months whose interest is the monthly interest
      on the equity (the model's own among them), DSCR is one month's cash
      from operations over one month's interest expense. */
  lemma DebtServiceCoverageOfUniform(inp: Inputs, proj: seq<ProjectionRow>)
    requires Uniform(proj)
    requires proj[0].interestExpense == inp.equityInjection * inp.debtInterestRate / 12.0
    ensures var cf := CashFlowTable(inp, proj);
      CalculateRatios(inp, proj, cf).dscr == Quotient(cf[0].cashFromOperations, proj[0].interestExpense)
  {
    var cf := CashFlowTable(inp, proj);
    OperatingCashTotalOfUniform(inp, proj);
    AnnualOverMonthlyInterest(inp, TotalCashFromOperations(cf), cf[0].cashFromOperations);
  }

  /** Without equity there is neither a return on it nor any debt to service. */
  lemma NoEquityNoReturnRatios(inp: Inputs, proj: seq<ProjectionRow>, cf: seq<CashFlowRow>)
    requires inp.equityInjection == 0.0
    ensures CalculateRatios(inp, proj, cf).roe == None
    ensures CalculateRatios(inp, proj, cf).dscr == None
  {
  }
}
