/** The corporate-income-tax planner: the incentive of the selected sector,
    the rate it implies, and the estimate of taxable income and tax from the
    revenue and expense fields. */
module CorporateTax {
  import opened Types
  import opened NumberText
  import opened Constants

  /** `CORPORATE_TAX_INCENTIVES.find(...)`: the first entry for the sector. */
  function FindIncentive(table: seq<TaxIncentive>, sector: CorporateSector): (r: Option<TaxIncentive>)
    ensures r.None? <==> forall i :: 0 <= i < |table| ==> table[i].sector != sector
    ensures r.Some? ==> r.value in table && r.value.sector == sector
  {
    if table == [] then None
    else if table[0].sector == sector then Some(table[0])
    else
      var r := FindIncentive(table[1..], sector);
      assert forall i :: 1 <= i < |table| ==> table[i] == table[1..][i - 1];
      r
  }

  /** The lookup returns the entry at the first index holding the sector. */
  lemma {:induction false} FindIncentiveFirst(table: seq<TaxIncentive>, sector: CorporateSector, i: nat)
    requires i < |table| && table[i].sector == sector
    requires forall j :: 0 <= j < i ==> table[j].sector != sector
    ensures FindIncentive(table, sector) == Some(table[i])
  {
    if i > 0 {
      assert table[0].sector != sector;
      FindIncentiveFirst(table[1..], sector, i - 1);
    }
  }

  function Incentive(sector: CorporateSector): Option<TaxIncentive> {
    FindIncentive(CorporateTaxIncentives, sector)
  }

  /** The rate applied: the standard rate when the sector has no incentive
      or its incentive carries the sentinel -1, the preferential rate
      otherwise. */
  function TaxRate(incentive: Option<TaxIncentive>): real {
    if incentive.None? || incentive.value.preferentialRate == -1.0 then StandardCitRate
    else incentive.value.preferentialRate
  }

  function SectorRate(sector: CorporateSector): real {
    TaxRate(Incentive(sector))
  }

  /** The rate of every sector, as the incentive table sets it: 10% for the
      four special sectors, 15% and 17% for the two SME tiers, and the
      standard 20% for startups (whose incentive is not a rate) and every
      sector without an incentive. */
  lemma SectorRateTable(sector: CorporateSector)
    ensures SectorRate(sector) ==
              match sector
              case Software | HighTech | HighTechAgriculture | SocialEnterprise => 0.10
              case SmeTier1 => 0.15
              case SmeTier2 => 0.17
              case _ => 0.20
  {
    var t := CorporateTaxIncentives;
    var i := IncentiveIndex(sector);
    if i < |t| {
      FindIncentiveFirst(t, sector, i);
    } else {
      assert forall j :: 0 <= j < |t| ==> t[j].sector != sector;
    }
  }

  /** Where a sector sits in the incentive table (its length when it has
      no entry). */
  function IncentiveIndex(sector: CorporateSector): (i: nat)
    ensures i <= |CorporateTaxIncentives|
    ensures i < |CorporateTaxIncentives| ==> CorporateTaxIncentives[i].sector == sector
    ensures forall j :: 0 <= j < i ==> CorporateTaxIncentives[j].sector != sector
  {
    match sector
    case Software => 0
    case HighTech => 1
    case HighTechAgriculture => 2
    case SocialEnterprise => 3
    case Startup => 4
    case SmeTier1 => 5
    case SmeTier2 => 6
    case _ => 7
  }

  /** No sector is taxed above the standard rate, and every rate is
      positive. */
  lemma {:induction false} SectorRateBounds(sector: CorporateSector)
    ensures 0.0 < SectorRate(sector) <= StandardCitRate
  {
    SectorRateTable(sector);
  }

  /** `Math.max(0, revenue - expenses)` on the two parsed fields; `None`
      when either is not a number. */
  function TaxableIncome(revenue: string, expenses: string): (t: Option<int>)
    ensures t.Some? <==> ParseGrouped(revenue).Some? && ParseGrouped(expenses).Some?
    ensures t.Some? ==> t.value >= 0 && t.value >= ParseGrouped(revenue).value - ParseGrouped(expenses).value
    ensures t.Some? ==> t.value == 0 || t.value == ParseGrouped(revenue).value - ParseGrouped(expenses).value
  {
    TaxableOf(ParseGrouped(revenue), ParseGrouped(expenses))
  }

  /** The taxable income of two parsed amounts. */
  function TaxableOf(revenue: Option<int>, expenses: Option<int>): Option<int> {
    if revenue.Some? && expenses.Some? then
      var excess := revenue.value - expenses.value;
      Some(if excess > 0 then excess else 0)
    else None
  }

  /** The result panel at the rate in force: hidden until both fields hold
      text; a field that is not a number shows NaN. */
  datatype Panel = Hidden | NotANumber | Estimate(taxableIncome: int, rate: real, taxAmount: real)

  function ResultPanel(revenue: string, expenses: string, rate: real): (p: Panel)
    ensures p.Hidden? <==> revenue == "" || expenses == ""
    ensures p.Estimate? ==> p.taxableIncome >= 0 && p.rate == rate
    ensures p.Estimate? ==> p.taxAmount == CitAmount(p.taxableIncome, rate)
  {
    if revenue == "" || expenses == "" then Hidden
    else
      match TaxableIncome(revenue, expenses)
      case None => NotANumber
      case Some(t) => Estimate(t, rate, CitAmount(t, rate))
  }

  /** The tax on a taxable income at a rate. */
  function CitAmount(taxable: int, rate: real): real {
    taxable as real * rate
  }

  /** At the selected sector's rate, the estimated tax is never negative
      and never more than the standard 20% of the taxable income. */
  lemma {:induction false} EstimateBounds(revenue: string, expenses: string, sector: CorporateSector)
    ensures var p := ResultPanel(revenue, expenses, SectorRate(sector));
            p.Estimate? ==> 0.0 <= p.taxAmount <= CitAmount(p.taxableIncome, StandardCitRate)
  {
    var rate := SectorRate(sector);
    SectorRateBounds(sector);
    PanelBounds(revenue, expenses, rate);
  }

  lemma {:induction false} PanelBounds(revenue: string, expenses: string, rate: real)
    requires 0.0 < rate <= StandardCitRate
    ensures var p := ResultPanel(revenue, expenses, rate);
            p.Estimate? ==> 0.0 <= p.taxAmount <= CitAmount(p.taxableIncome, StandardCitRate)
  {
    var p := ResultPanel(revenue, expenses, rate);
    if p.Estimate? {
      CitAmountBelow(p.taxableIncome, rate, StandardCitRate);
    }
  }

  lemma {:induction false} CitAmountBelow(t: int, r: real, hi: real)
    requires t >= 0 && 0.0 < r <= hi
    ensures 0.0 <= CitAmount(t, r) <= CitAmount(t, hi)
  {
  }

  /** Fields filled by typing always read as numbers: the estimate is
      the excess of the typed revenue over the typed expenses, at the rate
      in force. */
  lemma {:induction false} TypedFieldsEstimate(rawRevenue: string, rawExpenses: string, rate: real)
    requires NormaliseAmountInput(rawRevenue) != "" && NormaliseAmountInput(rawExpenses) != ""
    ensures var r, e := DigitsValue(KeepDigits(rawRevenue)), DigitsValue(KeepDigits(rawExpenses));
            var p := ResultPanel(NormaliseAmountInput(rawRevenue), NormaliseAmountInput(rawExpenses), rate);
            && p.Estimate?
            && p.taxableIncome == (if r > e then r - e else 0)
            && p.taxAmount == CitAmount(p.taxableIncome, rate)
  {
    var revenue, expenses := NormaliseAmountInput(rawRevenue), NormaliseAmountInput(rawExpenses);
    TypedAmountValue(rawRevenue, revenue);
    TypedAmountValue(rawExpenses, expenses);
    PanelOfValues(revenue, expenses, rate, DigitsValue(KeepDigits(rawRevenue)), DigitsValue(KeepDigits(rawExpenses)));
  }

  /** Two fields that read as numbers show the estimate of their difference. */
  lemma {:induction false} PanelOfValues(revenue: string, expenses: string, rate: real, r: int, e: int)
    requires revenue != "" && expenses != ""
    requires ParseGrouped(revenue) == Some(r) && ParseGrouped(expenses) == Some(e)
    ensures var p := ResultPanel(revenue, expenses, rate);
            p.Estimate? && p.taxableIncome == if r > e then r - e else 0
  {
  }
}
