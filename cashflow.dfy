/** The monthly cash-flow statement (build_cashflow). Each row starts from the
    projection row of the same month; the opening and closing balances form a
    running chain, the one place where a row depends on the row before it. */
module CashFlow {
  import opened FinancialModel
  import opened Projection

  datatype CashFlowRow = CashFlowRow(
    month: string,
    netProfit: real,
    depreciation: real,        // the "+ Depreciation" add-back
    deltaReceivables: real,
    deltaPayables: real,
    cashFromOperations: real,
    capEx: real,
    equityInjection: real,
    netBorrowing: real,
    netChangeInCash: real,
    openingCash: real,
    closingCash: real)

  const DaysPerYear: real := 365.0

  /** The working-capital proxy shared by both adjustments: a monthly amount
      scaled by a number of days over a 365-day year. */
  function DaysOfYear(amount: real, days: int): real
  {
    amount * days as real / DaysPerYear
  }

  /** The columns as they stand once Cash from Operations and CapEx are first
      written: CapEx is the full purchase in every row, and the columns not
      yet computed hold 0. */
  function OperatingRow(inp: Inputs, p: ProjectionRow, month: string): CashFlowRow
  {
    var dRec := DaysOfYear(-p.totalRevenue, inp.receivableDays);
    var dPay := DaysOfYear(p.variableCosts, inp.payableDays);
    var cfo := p.netProfit + p.depreciation + dRec + dPay;
    CashFlowRow(month, p.netProfit, p.depreciation, dRec, dPay, cfo,
                -inp.equipmentPurchase, 0.0, 0.0, 0.0, 0.0, 0.0)
  }

  /** Row `i` with every column that does not depend on another row: CapEx
      only in the first month, equity injected in every month, no borrowing. */
  function FlowRow(inp: Inputs, p: ProjectionRow, month: string, i: nat): CashFlowRow
  {
    var r := OperatingRow(inp, p, month);
    var capEx := if i == 0 then -inp.equipmentPurchase else 0.0;
    r.(capEx := capEx, equityInjection := inp.equityInjection, netBorrowing := 0.0,
       netChangeInCash := r.cashFromOperations + capEx + inp.equityInjection + 0.0)
  }

  /** The Net Change in Cash column. */
  function NetChanges(inp: Inputs, proj: seq<ProjectionRow>): (c: seq<real>)
    requires |proj| == MonthCount
    ensures |c| == MonthCount
  {
    seq(MonthCount, i requires 0 <= i < MonthCount => FlowRow(inp, proj[i], MonthLabel(i), i).netChangeInCash)
  }

  /** Closing balance of month `i`, carried forward from `opening`: the first
      month closes at the opening plus its change, every later month at the
      previous close plus its change. */
  function ClosingCash(opening: real, changes: seq<real>, i: nat): real
    requires i < |changes|
    decreases i
  {
    if i == 0 then opening + changes[0] else ClosingCash(opening, changes, i - 1) + changes[i]
  }

  /** Opening balance of month `i`: the starting cash, then last month's close. */
  function OpeningCash(opening: real, changes: seq<real>, i: nat): real
    requires i < |changes|
  {
    if i == 0 then opening else ClosingCash(opening, changes, i - 1)
  }

  /** The columns of a row copied or derived from the projection row of the
      same month and from the inputs. */
  predicate TakenFromProjection(r: CashFlowRow, p: ProjectionRow, inp: Inputs)
  {
    r.netProfit == p.netProfit && r.depreciation == p.depreciation &&
    r.deltaReceivables == DaysOfYear(-p.totalRevenue, inp.receivableDays) &&
    r.deltaPayables == DaysOfYear(p.variableCosts, inp.payableDays) &&
    r.equityInjection == inp.equityInjection && r.netBorrowing == 0.0
  }

  /** The identities that tie a row's totals to its parts. */
  predicate Reconciles(r: CashFlowRow)
  {
    r.cashFromOperations == r.netProfit + r.depreciation + r.deltaReceivables + r.deltaPayables &&
    r.netChangeInCash == r.cashFromOperations + r.capEx + r.equityInjection + r.netBorrowing &&
    r.closingCash == r.openingCash + r.netChangeInCash
  }

  /** The running balance: the first month opens with `opening`, and every
      later month opens with the previous month's closing cash. */
  predicate CashChain(t: seq<CashFlowRow>, opening: real)
  {
    |t| > 0 && t[0].openingCash == opening &&
    forall i :: 1 <= i < |t| ==> t[i].openingCash == t[i - 1].closingCash
  }

  /** The cash-flow statement as a value: per-month columns from the
      projection, CapEx only in the first month, and the balance chain
      starting from the equity injection. */
  function CashFlowTable(inp: Inputs, proj: seq<ProjectionRow>): (t: seq<CashFlowRow>)
    requires |proj| == MonthCount
    ensures |t| == MonthCount
    ensures forall i :: 0 <= i < |t| ==>
      t[i].month == MonthLabel(i) && TakenFromProjection(t[i], proj[i], inp) && Reconciles(t[i])
    ensures forall i :: 0 <= i < |t| ==> t[i].capEx == if i == 0 then -inp.equipmentPurchase else 0.0
    ensures CashChain(t, inp.equityInjection)
  {
    var changes := NetChanges(inp, proj);
    seq(MonthCount, i requires 0 <= i < MonthCount =>
      FlowRow(inp, proj[i], MonthLabel(i), i).(
        openingCash := OpeningCash(inp.equityInjection, changes, i),
        closingCash := ClosingCash(inp.equityInjection, changes, i)))
  }

  /** The operating columns of every month, as first written (before the CapEx overwrite). */
  function OperatingColumns(inp: Inputs, proj: seq<ProjectionRow>): (rows: seq<CashFlowRow>)
    requires |proj| == MonthCount
    ensures |rows| == MonthCount
  {
    seq(MonthCount, k requires 0 <= k < MonthCount => OperatingRow(inp, proj[k], MonthLabel(k)))
  }

  /** Puts the separately computed columns back into rows. */
  function Assemble(operating: seq<CashFlowRow>, equity: real, capEx: seq<real>, netChange: seq<real>,
                    opening: seq<real>, closing: seq<real>): (rows: seq<CashFlowRow>)
    requires |capEx| == |netChange| == |opening| == |closing| == |operating|
    ensures |rows| == |operating|
  {
    seq(|operating|, k requires 0 <= k < |operating| =>
      operating[k].(capEx := capEx[k], equityInjection := equity, netBorrowing := 0.0,
                    netChangeInCash := netChange[k], openingCash := opening[k], closingCash := closing[k]))
  }

  /** Builds the statement the way the Python cash-flow builder does, column by column: the
      operating columns of every month; CapEx as the full purchase in every
      row, then overwritten with 0 from the second month on; the net change;
      and finally the opening and closing balances, month by month, each
      month opening with the previous month's close (RunningBalances). */
  method BuildCashFlow(inp: Inputs, proj: seq<ProjectionRow>) returns (cf: seq<CashFlowRow>)
    requires |proj| == MonthCount
    ensures cf == CashFlowTable(inp, proj)
  {
    var n := MonthCount;
    var operating := OperatingColumns(inp, proj);
    var capEx := new real[n](_ => -inp.equipmentPurchase);
    forall k | 1 <= k < n {
      capEx[k] := 0.0;
    }
    var netChange := new real[n];
    forall k | 0 <= k < n {
      netChange[k] := operating[k].cashFromOperations + capEx[k] + inp.equityInjection + 0.0;
    }
    var changes, capExColumn := netChange[..], capEx[..];
    var opening, closing := RunningBalances(inp.equityInjection, changes);
    cf := Assemble(operating, inp.equityInjection, capExColumn, changes, opening, closing);
    AssembledTable(inp, proj, capExColumn, changes, opening, closing);
  }

  /** The balance loop: month by month, the opening cash is the starting cash
      in the first month and the previous month's closing cash after it, and
      the closing cash is the opening cash plus the month's net change. */
  method RunningBalances(start: real, changes: seq<real>) returns (opening: seq<real>, closing: seq<real>)
    ensures |opening| == |closing| == |changes|
    ensures forall k :: 0 <= k < |changes| ==>
      opening[k] == OpeningCash(start, changes, k) && closing[k] == ClosingCash(start, changes, k)
  {
    var n := |changes|;
    var openingCol := new real[n](_ => 0.0);
    var closingCol := new real[n](_ => 0.0);
    var i := 0;
    while i < n
      invariant 0 <= i <= n
      invariant forall k :: 0 <= k < i ==>
        openingCol[k] == OpeningCash(start, changes, k) && closingCol[k] == ClosingCash(start, changes, k)
    {
      if i == 0 {
        openingCol[i] := start;
      } else {
        openingCol[i] := closingCol[i - 1];
      }
      closingCol[i] := openingCol[i] + changes[i];
      i := i + 1;
    }
    opening, closing := openingCol[..], closingCol[..];
  }

  /** The net changes the builder computes from its CapEx column are the
      statement's Net Change in Cash column. */
  lemma BuiltNetChanges(inp: Inputs, proj: seq<ProjectionRow>, capEx: seq<real>, netChange: seq<real>)
    requires |proj| == |capEx| == |netChange| == MonthCount
    requires forall k :: 0 <= k < |capEx| ==> capEx[k] == if k == 0 then -inp.equipmentPurchase else 0.0
    requires forall k :: 0 <= k < |netChange| ==>
      netChange[k] == OperatingColumns(inp, proj)[k].cashFromOperations + capEx[k] + inp.equityInjection + 0.0
    ensures netChange == NetChanges(inp, proj)
  {
    var changes := NetChanges(inp, proj);
    forall k | 0 <= k < MonthCount
      ensures netChange[k] == changes[k]
    {
      assert OperatingColumns(inp, proj)[k] == OperatingRow(inp, proj[k], MonthLabel(k));
      assert changes[k] == FlowRow(inp, proj[k], MonthLabel(k), k).netChangeInCash;
    }
  }

  /** One assembled row is the statement's row of that month. */
  lemma AssembledRow(inp: Inputs, p: ProjectionRow, month: string, k: nat,
                     capEx: real, netChange: real, opening: real, closing: real)
    requires capEx == if k == 0 then -inp.equipmentPurchase else 0.0
    requires netChange == FlowRow(inp, p, month, k).netChangeInCash
    ensures OperatingRow(inp, p, month).(capEx := capEx, equityInjection := inp.equityInjection,
              netBorrowing := 0.0, netChangeInCash := netChange, openingCash := opening, closingCash := closing)
         == FlowRow(inp, p, month, k).(openingCash := opening, closingCash := closing)
  {
  }

  /** The columns as the builder computes them assemble into the statement. */
  lemma AssembledTable(inp: Inputs, proj: seq<ProjectionRow>, capEx: seq<real>, netChange: seq<real>,
                       opening: seq<real>, closing: seq<real>)
    requires |proj| == |capEx| == |netChange| == |opening| == |closing| == MonthCount
    requires forall k :: 0 <= k < |capEx| ==> capEx[k] == if k == 0 then -inp.equipmentPurchase else 0.0
    requires forall k :: 0 <= k < |netChange| ==>
      netChange[k] == OperatingColumns(inp, proj)[k].cashFromOperations + capEx[k] + inp.equityInjection + 0.0
    requires forall k :: 0 <= k < |opening| ==>
      opening[k] == OpeningCash(inp.equityInjection, netChange, k) &&
      closing[k] == ClosingCash(inp.equityInjection, netChange, k)
    ensures Assemble(OperatingColumns(inp, proj), inp.equityInjection, capEx, netChange, opening, closing)
            == CashFlowTable(inp, proj)
  {
    BuiltNetChanges(inp, proj, capEx, netChange);
    var operating := OperatingColumns(inp, proj);
    var t := CashFlowTable(inp, proj);
    var a := Assemble(operating, inp.equityInjection, capEx, netChange, opening, closing);
    forall k | 0 <= k < MonthCount
      ensures a[k] == t[k]
    {
      assert operating[k] == OperatingRow(inp, proj[k], MonthLabel(k));
      AssembledRow(inp, proj[k], MonthLabel(k), k, capEx[k], netChange[k], opening[k], closing[k]);
    }
  }

  /** Each closing balance is the starting cash plus every net change up to and
      including that month. */
  lemma {:induction false} ClosingCashIsRunningSum(opening: real, changes: seq<real>, i: nat)
    requires i < |changes|
    ensures ClosingCash(opening, changes, i) == opening + Sum(changes[..i + 1])
    decreases i
  {
    if i > 0 {
      ClosingCashIsRunningSum(opening, changes, i - 1);
      assert changes[..i + 1][..i] == changes[..i];
    } else {
      assert changes[..1][..0] == [];
    }
  }

  /** While no month so far has lost cash, neither balance of the month is
      below the starting cash. */
  lemma {:induction false} ClosingCashNeverBelowStart(opening: real, changes: seq<real>, i: nat)
    requires i < |changes|
    requires forall k :: 0 <= k <= i ==> changes[k] >= 0.0
    ensures OpeningCash(opening, changes, i) >= opening
    ensures ClosingCash(opening, changes, i) >= opening
    decreases i
  {
    if i > 0 {
      ClosingCashNeverBelowStart(opening, changes, i - 1);
    }
  }

  /** December's closing cash is the equity injection plus the year's net changes. */
  lemma FinalClosingCash(inp: Inputs, proj: seq<ProjectionRow>)
    requires |proj| == MonthCount
    ensures CashFlowTable(inp, proj)[MonthCount - 1].closingCash
            == inp.equityInjection + Sum(NetChanges(inp, proj))
  {
    var changes := NetChanges(inp, proj);
    ClosingCashIsRunningSum(inp.equityInjection, changes, MonthCount - 1);
    assert changes[..MonthCount] == changes;
  }

  /** Receivables tied up by revenue are never an inflow, and payables left
      unpaid on costs never an outflow, while revenue, costs and days are not negative. */
  lemma WorkingCapitalRowSigns(inp: Inputs, p: ProjectionRow, month: string)
    requires p.totalRevenue >= 0.0 && p.variableCosts >= 0.0
    requires inp.receivableDays >= 0 && inp.payableDays >= 0
    ensures OperatingRow(inp, p, month).deltaReceivables <= 0.0
    ensures OperatingRow(inp, p, month).deltaPayables >= 0.0
  {
    assert p.totalRevenue * inp.receivableDays as real >= 0.0;
    assert p.variableCosts * inp.payableDays as real >= 0.0;
  }

  /** With non-negative inputs, every month of the statement has a
      non-positive receivables change and a non-negative payables change. */
  lemma WorkingCapitalSigns(inp: Inputs)
    requires NonNegative(inp)
    ensures var t := CashFlowTable(inp, BuildProjection(inp));
      forall i :: 0 <= i < |t| ==> t[i].deltaReceivables <= 0.0 && t[i].deltaPayables >= 0.0
  {
    var proj := BuildProjection(inp);
    var t := CashFlowTable(inp, proj);
    var p := proj[0];
    var visits := inp.avgPatientVisits as real;
    assert visits * inp.avgRevenuePerVisit >= 0.0;
    assert visits * inp.variableCostPerVisit >= 0.0;
    assert p.totalRevenue >= 0.0 && p.variableCosts >= 0.0;
    forall i | 0 <= i < |t|
      ensures t[i].deltaReceivables <= 0.0 && t[i].deltaPayables >= 0.0
    {
      assert proj[i].totalRevenue == p.totalRevenue && proj[i].variableCosts == p.variableCosts;
      WorkingCapitalRowSigns(inp, proj[i], MonthLabel(i));
      assert t[i].deltaReceivables == OperatingRow(inp, proj[i], MonthLabel(i)).deltaReceivables;
      assert t[i].deltaPayables == OperatingRow(inp, proj[i], MonthLabel(i)).deltaPayables;
    }
  }

  /** Cash from operations depends only on the money columns of the
      projection row, not on the month. */
  lemma SameOperatingCash(inp: Inputs, p: ProjectionRow, q: ProjectionRow, m1: string, m2: string)
    requires p.netProfit == q.netProfit && p.depreciation == q.depreciation
    requires p.totalRevenue == q.totalRevenue && p.variableCosts == q.variableCosts
    ensures OperatingRow(inp, p, m1).cashFromOperations == OperatingRow(inp, q, m2).cashFromOperations
  {
  }

  /** Over a projection of equal months, the net change is the same operating
      cash plus the equity injection in every month, less the equipment in January. */
  lemma NetChangesOfUniform(inp: Inputs, proj: seq<ProjectionRow>)
    requires Uniform(proj)
    ensures var changes := NetChanges(inp, proj);
      var cfo := CashFlowTable(inp, proj)[0].cashFromOperations;
      changes[0] == cfo - inp.equipmentPurchase + inp.equityInjection &&
      forall k :: 1 <= k < MonthCount ==> changes[k] == cfo + inp.equityInjection
  {
    var changes := NetChanges(inp, proj);
    var first := OperatingRow(inp, proj[0], MonthLabel(0));
    assert CashFlowTable(inp, proj)[0].cashFromOperations == first.cashFromOperations;
    forall k | 1 <= k < MonthCount
      ensures changes[k] == first.cashFromOperations + inp.equityInjection
    {
      assert proj[k] == proj[0].(month := MonthLabel(k));
      SameOperatingCash(inp, proj[k], proj[0], MonthLabel(k), MonthLabel(0));
      assert changes[k] == FlowRow(inp, proj[k], MonthLabel(k), k).netChangeInCash;
    }
  }

  /** Over a projection of equal months, every month of the statement has the
      same cash from operations. */
  lemma ConstantOperatingCash(inp: Inputs, proj: seq<ProjectionRow>)
    requires Uniform(proj)
    ensures var t := CashFlowTable(inp, proj);
      forall k :: 0 <= k < |t| ==> t[k].cashFromOperations == t[0].cashFromOperations
  {
    var t := CashFlowTable(inp, proj);
    forall k | 0 <= k < |t|
      ensures t[k].cashFromOperations == t[0].cashFromOperations
    {
      assert proj[k] == proj[0].(month := MonthLabel(k));
      SameOperatingCash(inp, proj[k], proj[0], MonthLabel(k), MonthLabel(0));
      assert t[k].cashFromOperations == OperatingRow(inp, proj[k], MonthLabel(k)).cashFromOperations;
      assert t[0].cashFromOperations == OperatingRow(inp, proj[0], MonthLabel(0)).cashFromOperations;
    }
  }

  /** Over a projection of equal months (the model's own among them), the
      year ends with the equity injection thirteen times over (once as
      opening cash and once in each month's net change), twelve months of
      operating cash, and the one equipment purchase spent. */
  lemma YearEndClosingCash(inp: Inputs, proj: seq<ProjectionRow>)
    requires Uniform(proj)
    ensures var t := CashFlowTable(inp, proj);
      t[MonthCount - 1].closingCash
        == 13.0 * inp.equityInjection + 12.0 * t[0].cashFromOperations - inp.equipmentPurchase
  {
    var changes := NetChanges(inp, proj);
    var monthly := CashFlowTable(inp, proj)[0].cashFromOperations + inp.equityInjection;
    FinalClosingCash(inp, proj);
    NetChangesOfUniform(inp, proj);
    assert changes == [changes[0]] + changes[1..];
    SumCons(changes[0], changes[1..]);
    SumOfConstant(changes[1..], monthly);
    assert |changes[1..]| as real == 11.0;
  }

  /** The example's first cash-flow month, to the exact fraction. */
  lemma ReferenceCashFlow()
    ensures var t := CashFlowTable(ReferenceInputs(), BuildProjection(ReferenceInputs()));
      t[0].openingCash == 1000000.0 && t[0].capEx == -500000.0 &&
      t[0].deltaReceivables == -51000000.0 / 365.0 && t[0].deltaPayables == 13500000.0 / 365.0 &&
      t[0].cashFromOperations == 895000.0 - 7500000.0 / 73.0 &&
      t[0].closingCash == 2395000.0 - 7500000.0 / 73.0
  {
    ReferenceProjection();
  }
}
