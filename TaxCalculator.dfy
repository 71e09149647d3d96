/** The take-home pay calculation: from the form's inputs to gross income,
    federal and state tax, take-home pay per year, month, week and hour,
    and the spending allocations of both taxes.

    `Compute` follows the calculation step by step; `Breakdown` is the same
    result as a function of the inputs, about which the lemmas below are
    stated. */
module TaxCalculator {
  import opened Brackets
  import opened Allocations
  import opened TaxTables

  /** How the gross income is entered. */
  datatype Mode = Annual | Monthly | Hourly

  /** The form's fields. Only the fields of the selected mode feed the
      gross; `hours` and `weeks` also feed the hourly take-home figure. */
  datatype Inputs = Inputs(
    mode: Mode,
    status: FilingStatus,
    state: string,
    annual: real,
    monthly: real,
    hourly: real,
    hours: real,
    weeks: real)

  datatype TaxBreakdown = TaxBreakdown(
    gross: real,
    federalTax: real,
    stateTax: real,
    takeHome: real,
    monthly: real,
    weekly: real,
    hourly: real,
    fedAlloc: seq<Allocation>,
    stateAlloc: seq<Allocation>)

  /** Take-home pay per year and spread over a month, a week and an hour. */
  datatype NetPay = NetPay(takeHome: real, monthly: real, weekly: real, hourly: real)

  /** The figures of a breakdown, without its allocations. */
  datatype TaxFigures = TaxFigures(gross: real, federalTax: real, stateTax: real, net: NetPay)

  /** Annual gross income for the selected mode. */
  function Gross(inp: Inputs): real {
    match inp.mode
    case Annual => inp.annual
    case Monthly => inp.monthly * 12.0
    case Hourly => inp.hourly * inp.hours * inp.weeks
  }

  /** The gross resolver: starts from 0 and lets the test for each mode in
      turn overwrite it. */
  method ResolveGross(inp: Inputs) returns (gross: real)
    ensures inp.mode == Annual ==> gross == inp.annual
    ensures inp.mode == Monthly ==> gross == inp.monthly * 12.0
    ensures inp.mode == Hourly ==> gross == inp.hourly * inp.hours * inp.weeks
    ensures gross == Gross(inp)
  {
    gross := 0.0;
    if inp.mode == Annual {
      gross := inp.annual;
    }
    if inp.mode == Monthly {
      gross := inp.monthly * 12.0;
    }
    if inp.mode == Hourly {
      gross := inp.hourly * inp.hours * inp.weeks;
    }
  }

  /** The state's flat rate, or 0 for a state the rate table does not
      list. */
  function StateRate(state: string): (r: real)
    ensures 0.0 <= r <= 0.093
    ensures StateTaxRates(state).None? ==> r == 0.0
    ensures StateTaxRates(state).Some? ==> r == StateTaxRates(state).value
  {
    match StateTaxRates(state)
    case Some(rate) => StateRatesInRange(state); rate
    case None => 0.0
  }

  /** Flat state tax on the whole gross. */
  function StateTax(gross: real, state: string): real {
    gross * StateRate(state)
  }

  /** A state without a rate entry is not taxed, whatever the gross. */
  lemma UnlistedStateUntaxed(gross: real, state: string)
    requires StateTaxRates(state).None?
    ensures StateTax(gross, state) == 0.0
  {
  }

  /** On a non-negative gross, state tax lies between nothing and 9.3% of
      the gross. */
  lemma StateTaxBounds(gross: real, state: string)
    requires 0.0 <= gross
    ensures 0.0 <= StateTax(gross, state) <= 0.093 * gross
  {
    var r := StateRate(state);
    assert 0.0 <= gross * r;
    assert (0.093 - r) * gross >= 0.0;
  }

  /** Take-home pay, and its share per month (of 12), per week (of 52) and
      per hour worked; the hourly figure is 0 unless both the hours per
      week and the weeks per year are positive. */
  function Net(gross: real, fedTax: real, stateTax: real, hours: real, weeks: real): (n: NetPay)
    ensures n.takeHome + fedTax + stateTax == gross
    ensures n.monthly * 12.0 == n.takeHome
    ensures n.weekly * 52.0 == n.takeHome
    ensures hours <= 0.0 || weeks <= 0.0 ==> n.hourly == 0.0
    ensures hours > 0.0 && weeks > 0.0 ==> n.hourly * (hours * weeks) == n.takeHome
  {
    var takeHome := gross - fedTax - stateTax;
    NetPay(
      takeHome,
      takeHome / 12.0,
      takeHome / 52.0,
      if hours > 0.0 && weeks > 0.0 then takeHome / (hours * weeks) else 0.0)
  }

  /** The federal tax spread over the eight federal spending categories;
      the rounded amounts add up to the tax within four cents. */
  function FederalAllocation(fedTax: real): (r: seq<Allocation>)
    ensures |r| == 8
    ensures forall i | 0 <= i < 8 ::
      r[i].category == Spending("fed").value[i].category
      && r[i].amount == Round2(Spending("fed").value[i].percent * fedTax)
    ensures -0.04 <= AmountSum(r) - fedTax <= 0.04
  {
    FederalSharesSumToOne();
    var shares := Spending("fed").value;
    AllocationTotalWithinRounding(shares, fedTax);
    Allocate(shares, fedTax)
  }

  /** The state tax spread over the state's spending categories, or no
      rows at all for a state without a spending table. */
  function StateAllocation(state: string, stateTax: real): (r: seq<Allocation>)
    ensures Spending(state).None? ==> r == []
    ensures Spending(state).Some? ==>
      var shares := Spending(state).value;
      |r| == |shares|
      && (forall i | 0 <= i < |shares| ::
            r[i].category == shares[i].category && r[i].amount == Round2(shares[i].percent * stateTax))
  {
    match Spending(state)
    case Some(shares) => Allocate(shares, stateTax)
    case None => []
  }

  /** The figures of the calculation, from the inputs: gross, both taxes
      and the take-home pay. */
  function Figures(inp: Inputs): TaxFigures {
    var gross := Gross(inp);
    FederalBracketsWellFormed(inp.status);
    var fedTax := BracketTax(FederalBrackets(inp.status), gross);
    var stateTax := StateTax(gross, inp.state);
    TaxFigures(gross, fedTax, stateTax, Net(gross, fedTax, stateTax, inp.hours, inp.weeks))
  }

  /** The whole result: the figures and the allocations of both taxes. */
  function Breakdown(inp: Inputs): TaxBreakdown {
    var f := Figures(inp);
    TaxBreakdown(f.gross, f.federalTax, f.stateTax,
                 f.net.takeHome, f.net.monthly, f.net.weekly, f.net.hourly,
                 FederalAllocation(f.federalTax), StateAllocation(inp.state, f.stateTax))
  }

  /** The calculation run when the form is submitted: resolve the gross,
      run the bracket loop over the filing status's table, apply the state
      rate, project the take-home pay and expand both allocations. */
  method Compute(inp: Inputs) returns (r: TaxBreakdown)
    ensures r == Breakdown(inp)
  {
    var gross := ResolveGross(inp);
    var brackets := FederalBrackets(inp.status);
    FederalBracketsWellFormed(inp.status);
    var fedTax, _ := ComputeFederalTax(brackets, gross);
    var stateTax := StateTax(gross, inp.state);
    var net := Net(gross, fedTax, stateTax, inp.hours, inp.weeks);
    var fedAlloc := FederalAllocation(fedTax);
    var stateAlloc := StateAllocation(inp.state, stateTax);
    r := TaxBreakdown(gross, fedTax, stateTax, net.takeHome, net.monthly, net.weekly, net.hourly,
                      fedAlloc, stateAlloc);
  }

  /** The federal tax on a non-negative gross lies between the lowest
      bracket's 10% and the top bracket's 37% of the gross. */
  lemma FederalTaxBounds(inp: Inputs)
    requires 0.0 <= Gross(inp)
    ensures 0.1 * Gross(inp) <= Figures(inp).federalTax <= 0.37 * Gross(inp)
  {
    FederalBracketsWellFormed(inp.status);
    BracketTaxBounds(FederalBrackets(inp.status), Gross(inp));
  }

  /** A gross of zero or less owes no federal tax. */
  lemma NoFederalTaxWithoutIncome(inp: Inputs)
    requires Gross(inp) <= 0.0
    ensures Figures(inp).federalTax == 0.0
  {
    FederalBracketsWellFormed(inp.status);
    NonPositiveGrossUntaxed(FederalBrackets(inp.status), Gross(inp));
  }

  /** For one filing status, a higher gross never owes less federal tax. */
  lemma FederalTaxNonDecreasing(lower: Inputs, higher: Inputs)
    requires lower.status == higher.status && Gross(lower) <= Gross(higher)
    ensures Figures(lower).federalTax <= Figures(higher).federalTax
  {
    FederalBracketsWellFormed(lower.status);
    BracketTaxMonotone(FederalBrackets(lower.status), Gross(lower), Gross(higher));
  }

  /** On a non-negative gross, take-home pay keeps at least 53.7% (top
      federal rate 37% plus top state rate 9.3%) and at most 90% of it. */
  lemma TakeHomeBounds(inp: Inputs)
    requires 0.0 <= Gross(inp)
    ensures 0.537 * Gross(inp) <= Figures(inp).net.takeHome <= 0.9 * Gross(inp)
  {
    FederalTaxBounds(inp);
    StateTaxBounds(Gross(inp), inp.state);
  }

  /** Twelve months, or fifty-two weeks, or the hours worked in a year,
      make up the same amount. */
  lemma SpreadsAgree(total: real, monthly: real, weekly: real, hourly: real, hours: real, weeks: real)
    requires monthly * 12.0 == total && weekly * 52.0 == total
    requires hours > 0.0 && weeks > 0.0 ==> hourly * (hours * weeks) == total
    ensures monthly * 12.0 == weekly * 52.0
    ensures hours > 0.0 && weeks > 0.0 ==> hourly * hours * weeks == weekly * 52.0
  {
    if hours > 0.0 && weeks > 0.0 {
      assert hourly * hours * weeks == hourly * (hours * weeks);
    }
  }

  /** The per-period take-home figures agree with each other. */
  lemma PeriodsAgree(inp: Inputs)
    ensures Figures(inp).net.monthly * 12.0 == Figures(inp).net.weekly * 52.0
    ensures inp.hours > 0.0 && inp.weeks > 0.0 ==>
      Figures(inp).net.hourly * inp.hours * inp.weeks == Figures(inp).net.weekly * 52.0
  {
    var n := Figures(inp).net;
    SpreadsAgree(n.takeHome, n.monthly, n.weekly, n.hourly, inp.hours, inp.weeks);
  }

  /** Hourly mode with no hours or no weeks has no gross. */
  lemma NoHoursNoGross(inp: Inputs)
    requires inp.mode == Hourly && (inp.hours == 0.0 || inp.weeks == 0.0)
    ensures Gross(inp) == 0.0
  {
  }

  /** Nothing after no taxes is nothing in every period. */
  lemma NetOfNothing(hours: real, weeks: real)
    ensures Net(0.0, 0.0, 0.0, hours, weeks) == NetPay(0.0, 0.0, 0.0, 0.0)
  {
  }

  /** A gross of zero owes nothing and keeps nothing. */
  lemma NoIncomeNoFigures(inp: Inputs)
    requires Gross(inp) == 0.0
    ensures Figures(inp) == TaxFigures(0.0, 0.0, 0.0, NetPay(0.0, 0.0, 0.0, 0.0))
  {
    NoFederalTaxWithoutIncome(inp);
    StateTaxBounds(0.0, inp.state);
    NetOfNothing(inp.hours, inp.weeks);
  }

  /** With a gross of zero every allocation row, federal or state, is 0. */
  lemma NoIncomeNoAllocations(inp: Inputs)
    requires Gross(inp) == 0.0
    ensures var r := Breakdown(inp);
      (forall i | 0 <= i < |r.fedAlloc| :: r.fedAlloc[i].amount == 0.0)
      && (forall i | 0 <= i < |r.stateAlloc| :: r.stateAlloc[i].amount == 0.0)
  {
    NoIncomeNoFigures(inp);
    var r := Breakdown(inp);
    assert r.fedAlloc == FederalAllocation(0.0);
    assert r.stateAlloc == StateAllocation(inp.state, 0.0);
    FederalSharesSumToOne();
    NothingToAllocate(Spending("fed").value);
    if Spending(inp.state).Some? {
      NothingToAllocate(Spending(inp.state).value);
    }
  }

  /** The federal allocation has one row per federal spending category,
      and its rounded rows add up to the federal tax within four cents. */
  lemma FederalAllocationTotal(inp: Inputs)
    ensures |Breakdown(inp).fedAlloc| == 8
    ensures -0.04 <= AmountSum(Breakdown(inp).fedAlloc) - Breakdown(inp).federalTax <= 0.04
  {
  }

  /** A state missing from both tables owes no state tax and gets no
      state allocation rows. */
  lemma UnlistedStateScenario(inp: Inputs)
    requires StateTaxRates(inp.state).None? && Spending(inp.state).None?
    ensures Breakdown(inp).stateTax == 0.0 && Breakdown(inp).stateAlloc == []
  {
    UnlistedStateUntaxed(Gross(inp), inp.state);
  }

  /** An empty state code is such a state. */
  lemma EmptyStateCodeUnlisted()
    ensures StateTaxRates("").None? && Spending("").None?
  {
  }

  /** Texas has no income tax: its spending table is still expanded, with
      every row at zero. */
  lemma TexasScenario(inp: Inputs)
    requires inp.state == "TX"
    ensures Breakdown(inp).stateTax == 0.0
    ensures |Breakdown(inp).stateAlloc| == |Spending("TX").value| == 5
    ensures forall i | 0 <= i < 5 :: Breakdown(inp).stateAlloc[i].amount == 0.0
  {
    TexasRateIsZero();
    TexasSpendingTable();
    var r := Breakdown(inp);
    assert r.stateTax == 0.0;
    NothingToAllocate(Spending("TX").value);
  }

  /** A single filer with an annual gross of 50,000 owes
      1,100 + 4,047.00 + 1,160.50 = 6,307.50 of federal tax. */
  lemma SingleFilerScenario(inp: Inputs)
    requires inp.mode == Annual && inp.status == Single && inp.annual == 50000.0
    ensures Figures(inp).federalTax == 6307.5
  {
    var b := FederalBrackets(Single);
    FederalBracketsWellFormed(Single);
    UpperBracketsUntaxed(b, 3, 7, 50000.0);
    assert Slice(b, 0, 50000.0) == 11000.0;
    assert Slice(b, 1, 50000.0) == 33725.0;
    assert Slice(b, 2, 50000.0) == 5275.0;
  }

  /** 25 an hour, 40 hours a week, 52 weeks a year is a gross of 52,000. */
  lemma HourlyScenario(inp: Inputs)
    requires inp.mode == Hourly && inp.hourly == 25.0 && inp.hours == 40.0 && inp.weeks == 52.0
    ensures Gross(inp) == 52000.0
  {
  }

  /** The form as first shown (annual mode, nothing entered) has no
      gross. */
  lemma InitialFormScenario()
    ensures Gross(Inputs(Annual, Single, "CA", 0.0, 0.0, 0.0, 40.0, 52.0)) == 0.0
  {
  }
}
