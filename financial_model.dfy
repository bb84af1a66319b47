/** Shared definitions of the optometry financial model: the month axis every
    table is keyed by, the record of business assumptions, and column sums. */
module FinancialModel {

  datatype Option<T> = None | Some(value: T)

  /** The twelve month labels, in time order; every table's Month column. */
  const Months: seq<string> := [
    "Jan 2025", "Feb 2025", "Mar 2025", "Apr 2025", "May 2025", "Jun 2025",
    "Jul 2025", "Aug 2025", "Sep 2025", "Oct 2025", "Nov 2025", "Dec 2025"
  ]

  /** The length of the horizon; every table has this many rows. */
  const MonthCount: nat := 12

  /** The label of month `i` (0 is January). */
  function MonthLabel(i: nat): string
    requires i < MonthCount
  {
    Months[i]
  }

  /** The business assumptions of one run. Money is modelled exactly as `real`;
      the visit count and the receivable and payable days are whole numbers. */
  datatype Inputs = Inputs(
    avgPatientVisits: int,
    avgRevenuePerVisit: real,
    monthlyProductSales: real,
    fixedOverheads: real,
    variableCostPerVisit: real,
    equipmentPurchase: real,
    receivableDays: int,
    payableDays: int,
    debtInterestRate: real,   // annual fraction, e.g. 0.085
    equityInjection: real)

  /** The range the input forms allow. The computation never checks it: the
      tables are defined for every record, and only some properties need it. */
  predicate NonNegative(inp: Inputs)
  {
    inp.avgPatientVisits >= 0 && inp.avgRevenuePerVisit >= 0.0 &&
    inp.monthlyProductSales >= 0.0 && inp.fixedOverheads >= 0.0 &&
    inp.variableCostPerVisit >= 0.0 && inp.equipmentPurchase >= 0.0 &&
    inp.receivableDays >= 0 && inp.payableDays >= 0 &&
    inp.debtInterestRate >= 0.0 && inp.equityInjection >= 0.0
  }

  /** The sum of a column, adding the rows in order. */
  function Sum(xs: seq<real>): real
    decreases |xs|
  {
    if xs == [] then 0.0 else Sum(xs[..|xs| - 1]) + xs[|xs| - 1]
  }

  /** Summing from the front gives the same total. */
  lemma {:induction false} SumCons(x: real, xs: seq<real>)
    ensures Sum([x] + xs) == x + Sum(xs)
    decreases |xs|
  {
    if xs != [] {
      var init := xs[..|xs| - 1];
      assert ([x] + xs)[..|xs|] == [x] + init;
      SumCons(x, init);
    }
  }

  /** A column with no negative entry has a total that is not negative. */
  lemma {:induction false} SumNonNegative(xs: seq<real>)
    requires forall i :: 0 <= i < |xs| ==> xs[i] >= 0.0
    ensures Sum(xs) >= 0.0
    decreases |xs|
  {
    if xs != [] {
      SumNonNegative(xs[..|xs| - 1]);
    }
  }

  /** A column holding one value in every row sums to that value times the row count. */
  lemma {:induction false} SumOfConstant(xs: seq<real>, c: real)
    requires forall i :: 0 <= i < |xs| ==> xs[i] == c
    ensures Sum(xs) == |xs| as real * c
    decreases |xs|
  {
    if xs != [] {
      SumOfConstant(xs[..|xs| - 1], c);
    }
  }
}
