/** The quick calculators for individuals: business income taxed at the
    household-business rates, property rental, capital investment,
    securities and crypto-asset transfers, capital-contribution transfers,
    and the registration fee. Every field is an amount field: its text is
    normalised on each keystroke and read back with the dots removed. */
module QuickTax {
  import opened Types
  import opened NumberText
  import opened Constants

  /** The tax on an amount at a rate. */
  function AmountAt(amount: int, rate: real): real {
    amount as real * rate
  }

  lemma {:induction false} AmountAtBounds(amount: int, lo: real, rate: real, hi: real)
    requires amount >= 0 && lo <= rate <= hi
    ensures AmountAt(amount, lo) <= AmountAt(amount, rate) <= AmountAt(amount, hi)
  {
  }

  // Business income and property rental

  datatype BusinessTaxAmount = BusinessTaxAmount(vat: real, pit: real, total: real)

  /** The business-income calculator on the parsed revenue: nothing is due
      on a revenue that is not positive; otherwise VAT and PIT at the
      category's rates, and the total at their sum. `None` is the NaN of a
      field that is not a number. */
  function BusinessTax(revenue: Option<int>, category: BusinessCategory): (r: Option<BusinessTaxAmount>)
    ensures r.Some? <==> revenue.Some?
  {
    match revenue
    case None => None
    case Some(x) =>
      if x <= 0 then Some(BusinessTaxAmount(0.0, 0.0, 0.0))
      else
        var rates := HkdTaxRates(category);
        Some(BusinessTaxAmount(AmountAt(x, rates.vat), AmountAt(x, rates.pit), AmountAt(x, rates.vat + rates.pit)))
  }

  /** The total is the VAT plus the PIT, and lies between 1.5% and 10% of
      a positive revenue; nothing is due on a revenue that is not
      positive. */
  lemma {:induction false} BusinessTaxTotals(x: int, category: BusinessCategory)
    ensures var r := BusinessTax(Some(x), category).value;
            r.total == r.vat + r.pit
    ensures var r := BusinessTax(Some(x), category).value;
            x <= 0 ==> r.vat == r.pit == r.total == 0.0
    ensures var r := BusinessTax(Some(x), category).value;
            x > 0 ==> AmountAt(x, 0.015) <= r.total <= AmountAt(x, 0.10) && r.vat >= 0.0 && r.pit >= 0.0
  {
    if x > 0 {
      var rates := HkdTaxRates(category);
      HkdRatesBounded(category);
      AmountAtBounds(x, 0.015, rates.vat + rates.pit, 0.10);
      AmountAtBounds(x, 0.0, rates.vat, rates.vat);
      AmountAtBounds(x, 0.0, rates.pit, rates.pit);
    }
  }

  /** A typed revenue always reads as a number: the calculator shows the
      category's rates applied to the value of the digits typed. */
  lemma {:induction false} TypedBusinessTax(raw: string, category: BusinessCategory)
    ensures var x := DigitsValue(KeepDigits(raw));
            var rates := HkdTaxRates(category);
            BusinessTax(ParseGrouped(NormaliseAmountInput(raw)), category) ==
              Some(if x > 0 then BusinessTaxAmount(AmountAt(x, rates.vat), AmountAt(x, rates.pit), AmountAt(x, rates.vat + rates.pit))
                   else BusinessTaxAmount(0.0, 0.0, 0.0))
  {
    TypedAmountValue(raw, NormaliseAmountInput(raw));
  }

  /** The rental calculator: the business calculator at the asset-rental
      rates. */
  function RentalTax(income: Option<int>): Option<BusinessTaxAmount> {
    BusinessTax(income, AssetRental)
  }

  /** Rental income pays 5% VAT and 5% PIT, 10% in all. */
  lemma {:induction false} RentalTaxIsTenPercent(x: int)
    requires x > 0
    ensures RentalTax(Some(x)) == Some(BusinessTaxAmount(AmountAt(x, 0.05), AmountAt(x, 0.05), AmountAt(x, 0.10)))
  {
    HkdRatesBounded(AssetRental);
  }

  // Flat-rate calculators

  const DividendRate: real := 0.05
  const SecuritiesTransferRate: real := 0.001
  const CryptoTransferRate: real := 0.001
  const RegistrationFeeRate: real := 0.005
  const CapitalTransferRate: real := 0.20

  /** `x > 0 ? x * rate : 0`: a NaN field fails the comparison and pays
      nothing. */
  function FlatTax(amount: Option<int>, rate: real): real {
    if amount.Some? && amount.value > 0 then AmountAt(amount.value, rate) else 0.0
  }

  /** A flat tax at a non-negative rate is never negative, is the rate's
      share of a positive amount, and grows with the amount. */
  lemma {:induction false} FlatTaxProperties(x: int, y: int, rate: real)
    requires rate >= 0.0
    ensures FlatTax(Some(x), rate) >= 0.0
    ensures x > 0 ==> FlatTax(Some(x), rate) == AmountAt(x, rate)
    ensures x <= 0 ==> FlatTax(Some(x), rate) == 0.0
    ensures x <= y ==> FlatTax(Some(x), rate) <= FlatTax(Some(y), rate)
  {
    if x > 0 {
      AmountAtBounds(x, 0.0, rate, rate);
    }
    if y > 0 {
      AmountAtBounds(y, 0.0, rate, rate);
    }
    if 0 < x <= y {
      AmountMonotone(x, y, rate);
    }
  }

  lemma {:induction false} AmountMonotone(x: int, y: int, rate: real)
    requires x <= y && rate >= 0.0
    ensures AmountAt(x, rate) <= AmountAt(y, rate)
  {
    var d := (y - x) as real;
    assert AmountAt(y, rate) == AmountAt(x, rate) + d * rate;
  }

  function DividendTax(dividends: string): real {
    FlatTax(ParseGrouped(dividends), DividendRate)
  }

  function SecuritiesTransferTax(salePrice: string): real {
    FlatTax(ParseGrouped(salePrice), SecuritiesTransferRate)
  }

  function CryptoTransferTax(salePrice: string): real {
    FlatTax(ParseGrouped(salePrice), CryptoTransferRate)
  }

  function RegistrationFee(govPrice: string): real {
    FlatTax(ParseGrouped(govPrice), RegistrationFeeRate)
  }

  /** A typed amount pays the flat rate on the value of the digits typed,
      and an emptied field pays nothing. */
  lemma {:induction false} TypedFlatTax(raw: string, rate: real)
    requires rate >= 0.0
    ensures var x := DigitsValue(KeepDigits(raw));
            FlatTax(ParseGrouped(NormaliseAmountInput(raw)), rate) == if x > 0 then AmountAt(x, rate) else 0.0
  {
    TypedAmountValue(raw, NormaliseAmountInput(raw));
  }

  /** The four flat calculators on typed amounts: 5% of dividends, 0.1% of
      a securities or crypto-asset sale price, and 0.5% of the state price
      of a property, nothing on an amount of 0. */
  lemma {:induction false} TypedFlatCalculators(raw: string)
    ensures var x := DigitsValue(KeepDigits(raw));
            var typed := NormaliseAmountInput(raw);
            && DividendTax(typed) == (if x > 0 then AmountAt(x, 0.05) else 0.0)
            && SecuritiesTransferTax(typed) == (if x > 0 then AmountAt(x, 0.001) else 0.0)
            && CryptoTransferTax(typed) == (if x > 0 then AmountAt(x, 0.001) else 0.0)
            && RegistrationFee(typed) == (if x > 0 then AmountAt(x, 0.005) else 0.0)
  {
    TypedFlatTax(raw, DividendRate);
    TypedFlatTax(raw, SecuritiesTransferRate);
    TypedFlatTax(raw, CryptoTransferRate);
    TypedFlatTax(raw, RegistrationFeeRate);
  }

  // Capital-contribution transfer

  datatype CapitalTransfer = CapitalTransfer(profit: Option<int>, taxAmount: real)

  /** Profit is the sale price less the cost; 20% of a positive profit is
      due, nothing otherwise (nor when a field is not a number). */
  function CapitalTransferTax(salePrice: string, costPrice: string): (c: CapitalTransfer)
    ensures c.profit.Some? <==> ParseGrouped(salePrice).Some? && ParseGrouped(costPrice).Some?
  {
    TransferOf(ParseGrouped(salePrice), ParseGrouped(costPrice))
  }

  /** The profit and tax on two parsed prices. */
  function TransferOf(sale: Option<int>, cost: Option<int>): CapitalTransfer {
    if sale.Some? && cost.Some? then
      var profit := sale.value - cost.value;
      CapitalTransfer(Some(profit), FlatTax(Some(profit), CapitalTransferRate))
    else CapitalTransfer(None, 0.0)
  }

  /** The tax is 20% of the profit when there is one, never negative, and
      never more than 20% of the sale price when the cost is not
      negative. */
  lemma {:induction false} CapitalTransferBounds(salePrice: string, costPrice: string)
    ensures var c := CapitalTransferTax(salePrice, costPrice);
            c.taxAmount >= 0.0 &&
            (c.profit.Some? && c.profit.value > 0 ==> c.taxAmount == AmountAt(c.profit.value, 0.20)) &&
            (c.profit.None? || c.profit.value <= 0 ==> c.taxAmount == 0.0)
    ensures var c := CapitalTransferTax(salePrice, costPrice);
            c.profit.Some? && ParseGrouped(costPrice).value >= 0 ==>
              c.taxAmount <= FlatTax(ParseGrouped(salePrice), 0.20)
  {
    var c := CapitalTransferTax(salePrice, costPrice);
    if c.profit.Some? {
      var sale, cost := ParseGrouped(salePrice).value, ParseGrouped(costPrice).value;
      FlatTaxProperties(sale - cost, sale, 0.20);
    }
  }

  /** Typed prices always give a profit: the typed sale value less the
      typed cost value. */
  lemma {:induction false} TypedCapitalTransfer(rawSale: string, rawCost: string)
    ensures var sale, cost := DigitsValue(KeepDigits(rawSale)), DigitsValue(KeepDigits(rawCost));
            CapitalTransferTax(NormaliseAmountInput(rawSale), NormaliseAmountInput(rawCost)).profit == Some(sale - cost)
  {
    var sale, cost := NormaliseAmountInput(rawSale), NormaliseAmountInput(rawCost);
    TypedAmountValue(rawSale, sale);
    TypedAmountValue(rawCost, cost);
    ProfitOfValues(sale, cost, DigitsValue(KeepDigits(rawSale)), DigitsValue(KeepDigits(rawCost)));
  }

  /** Prices that read as numbers give their difference as the profit. */
  lemma {:induction false} ProfitOfValues(salePrice: string, costPrice: string, sale: int, cost: int)
    requires ParseGrouped(salePrice) == Some(sale) && ParseGrouped(costPrice) == Some(cost)
    ensures CapitalTransferTax(salePrice, costPrice).profit == Some(sale - cost)
  {
  }
}
