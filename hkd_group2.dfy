/** The Group 2 ledger: sales and purchase invoices kept newest first, the
    period views by day, month or year, the period's revenue, expenses, tax
    and profit, the e-invoice alert, the revenue entry and the purchase
    invoice form with its line items. */
module HkdGroup2 {
  import opened Types
  import opened Constants
  import opened NumberText
  import opened HkdDeclaration
  import PitCalculator

  // Period views

  datatype ViewMode = DayView | MonthView | YearView

  /** Whether a date falls in the period shown around the selected date: the
      same year, the same year and month, or the same calendar day. */
  predicate InPeriod(mode: ViewMode, d: Date, selected: Date) {
    match mode
    case YearView => d.year == selected.year
    case MonthView => d.monthIndex == selected.monthIndex && d.year == selected.year
    case DayView => d == selected
  }

  /** `filterByPeriod`, shared by sales and invoices through the date each
      carries. */
  function FilterByPeriod<T(!new)>(items: seq<T>, dateOf: T -> Date, mode: ViewMode, selected: Date): (r: seq<T>)
    ensures |r| <= |items|
    ensures forall x :: x in r <==> x in items && InPeriod(mode, dateOf(x), selected)
  {
    if items == [] then []
    else
      var rest := FilterByPeriod(items[1..], dateOf, mode, selected);
      assert forall x :: x in items <==> x == items[0] || x in items[1..];
      if InPeriod(mode, dateOf(items[0]), selected) then [items[0]] + rest else rest
  }

  /** The views nest: what a day shows its month shows, and what a month
      shows its year shows. */
  lemma {:induction false} PeriodsNest<T(!new)>(items: seq<T>, dateOf: T -> Date, selected: Date)
    ensures forall x :: x in FilterByPeriod(items, dateOf, DayView, selected) ==>
              x in FilterByPeriod(items, dateOf, MonthView, selected)
    ensures forall x :: x in FilterByPeriod(items, dateOf, MonthView, selected) ==>
              x in FilterByPeriod(items, dateOf, YearView, selected)
  {
  }

  /** The filter keeps the order of the items it keeps. */
  lemma {:induction false} FilterConcat<T(!new)>(a: seq<T>, b: seq<T>, dateOf: T -> Date, mode: ViewMode, selected: Date)
    ensures FilterByPeriod(a + b, dateOf, mode, selected) ==
            FilterByPeriod(a, dateOf, mode, selected) + FilterByPeriod(b, dateOf, mode, selected)
  {
    if a == [] {
      assert a + b == b;
    } else {
      assert (a + b)[1..] == a[1..] + b;
      FilterConcat(a[1..], b, dateOf, mode, selected);
    }
  }

  function SaleDate(t: Transaction): Date {
    t.date
  }

  function InvoiceDate(i: InputInvoice): Date {
    i.date
  }

  // Period figures

  function InvoiceSum(invoices: seq<InputInvoice>): int {
    if invoices == [] then 0 else invoices[0].amount + InvoiceSum(invoices[1..])
  }

  /** The tax on the sales: each amount times its category's VAT plus PIT
      rate. */
  function PeriodTax(ts: seq<Transaction>): real {
    if ts == [] then 0.0
    else
      var rates := HkdTaxRates(ts[0].category);
      ts[0].amount as real * (rates.vat + rates.pit) + PeriodTax(ts[1..])
  }

  datatype PeriodFigures = PeriodFigures(revenue: int, expenses: int, profitBeforeTax: int, tax: real, netProfit: real)

  /** The summary cards of the period shown. */
  function Figures(ts: seq<Transaction>, invoices: seq<InputInvoice>, mode: ViewMode, selected: Date): PeriodFigures {
    var sales := FilterByPeriod(ts, SaleDate, mode, selected);
    var bought := FilterByPeriod(invoices, InvoiceDate, mode, selected);
    var revenue := AmountSum(sales);
    var expenses := InvoiceSum(bought);
    var tax := PeriodTax(sales);
    PeriodFigures(revenue, expenses, revenue - expenses, tax, (revenue - expenses) as real - tax)
  }

  /** The tax shown on the dashboard is the VAT plus PIT of the declaration
      rows. */
  lemma {:induction false} PeriodTaxSplits(ts: seq<Transaction>)
    ensures PeriodTax(ts) == VatSum(ts) + PitSum(ts)
  {
    if ts != [] {
      PeriodTaxSplits(ts[1..]);
      var rates := HkdTaxRates(ts[0].category);
      var a := ts[0].amount as real;
      assert a * (rates.vat + rates.pit) == a * rates.vat + a * rates.pit;
    }
  }

  /** With non-negative amounts the tax lies between 1.5% and 10% of the
      revenue. */
  lemma {:induction false} PeriodTaxBounds(ts: seq<Transaction>)
    requires NonNegativeAmounts(ts)
    ensures 0.015 * AmountSum(ts) as real <= PeriodTax(ts) <= 0.10 * AmountSum(ts) as real
  {
    if ts != [] {
      assert NonNegativeAmounts(ts[1..]) by {
        forall i | 0 <= i < |ts| - 1 ensures ts[1..][i].amount >= 0 {
          assert ts[1..][i] == ts[i + 1];
        }
      }
      PeriodTaxBounds(ts[1..]);
      var rates := HkdTaxRates(ts[0].category);
      HkdRatesBounded(ts[0].category);
      BoundStep(ts[0].amount, AmountSum(ts[1..]), AmountSum(ts), rates.vat + rates.pit, PeriodTax(ts[1..]), PeriodTax(ts));
    }
  }

  /** One more sale taxed at a rate within [1.5%, 10%] keeps the period's
      tax within the same shares of its revenue. */
  lemma BoundStep(x: int, rest: int, total: int, r: real, restTax: real, tax: real)
    requires x >= 0 && total == x + rest && 0.015 <= r <= 0.10
    requires 0.015 * rest as real <= restTax <= 0.10 * rest as real
    requires tax == x as real * r + restTax
    ensures 0.015 * total as real <= tax <= 0.10 * total as real
  {
    PitCalculator.MulBetween(x as real, 0.015, r, 0.10);
  }

  /** The dashboard and the declaration of the same month agree: the same
      revenue, and a tax equal to the declared VAT plus PIT. */
  lemma {:induction false} DashboardMatchesDeclaration(ts: seq<Transaction>, invoices: seq<InputInvoice>, selected: Date)
    requires NonNegativeAmounts(ts)
    ensures var sales := FilterByPeriod(ts, SaleDate, MonthView, selected);
            var totals := RowTotals(Summary(sales));
            var figures := Figures(ts, invoices, MonthView, selected);
            totals.revenue == figures.revenue && totals.vat + totals.pit == figures.tax
  {
    var sales := FilterByPeriod(ts, SaleDate, MonthView, selected);
    assert NonNegativeAmounts(sales) by {
      forall i | 0 <= i < |sales| ensures sales[i].amount >= 0 {
        assert sales[i] in ts;
      }
    }
    DeclarationTotals(sales);
    PeriodTaxSplits(sales);
  }

  /** With non-negative sales the tax never raises the profit. */
  lemma {:induction false} NetProfitBelowProfit(ts: seq<Transaction>, invoices: seq<InputInvoice>, mode: ViewMode, selected: Date)
    requires NonNegativeAmounts(ts)
    ensures var f := Figures(ts, invoices, mode, selected);
            f.netProfit <= f.profitBeforeTax as real &&
            f.netProfit >= f.profitBeforeTax as real - 0.10 * f.revenue as real
  {
    var sales := FilterByPeriod(ts, SaleDate, mode, selected);
    assert NonNegativeAmounts(sales) by {
      forall i | 0 <= i < |sales| ensures sales[i].amount >= 0 {
        assert sales[i] in ts;
      }
    }
    PeriodTaxBounds(sales);
  }

  // E-invoice alert

  /** The revenue of the selected date's whole year. */
  function AnnualRevenue(ts: seq<Transaction>, selected: Date): int {
    AmountSum(FilterByPeriod(ts, SaleDate, YearView, selected))
  }

  /** Above 1 billion a year, a retail or restaurant business must issue
      e-invoices from a cash register. */
  predicate UrgentActionAlert(annualRevenue: int, sector: BusinessSector) {
    annualRevenue > HkdEInvoiceThreshold && sector == RetailRestaurant
  }

  /** Recording a non-negative sale never clears the alert, and a sale dated
      in another year leaves the annual revenue as it was. */
  lemma {:induction false} AlertPersists(ts: seq<Transaction>, t: Transaction, selected: Date, sector: BusinessSector)
    requires t.amount >= 0
    ensures AnnualRevenue([t] + ts, selected) ==
              AnnualRevenue(ts, selected) + (if t.date.year == selected.year then t.amount else 0)
    ensures UrgentActionAlert(AnnualRevenue(ts, selected), sector) ==>
              UrgentActionAlert(AnnualRevenue([t] + ts, selected), sector)
  {
    assert ([t] + ts)[1..] == ts;
    var rest := FilterByPeriod(ts, SaleDate, YearView, selected);
    if t.date.year == selected.year {
      assert FilterByPeriod([t] + ts, SaleDate, YearView, selected) == [t] + rest;
      assert ([t] + rest)[1..] == rest;
    }
  }

  // Sales entry

  /** What the revenue entry hands to the ledger. */
  datatype RevenueEntry = RevenueEntry(amount: int, category: BusinessCategory, description: string)

  /** `handleCategorySelect`, after the amount field has taken `raw`
      keystrokes: nothing without an amount, otherwise the amount read from
      the field, the category, and the description "Doanh thu " followed by
      the category. */
  function SelectCategory(raw: string, c: BusinessCategory): Option<RevenueEntry> {
    var amount := NormaliseAmountInput(raw);
    if amount == "" then None
    else
      match ParseGrouped(amount)
      case Some(n) => Some(RevenueEntry(n, c, "Doanh thu " + CategoryName(c)))
      case None => None
  }

  /** An entry is made exactly when a digit was typed; its amount is the
      value of the digits typed, and its description names its category
      and no other. */
  lemma {:induction false} SelectCategoryEntry(raw: string, c: BusinessCategory, other: BusinessCategory)
    ensures SelectCategory(raw, c).Some? <==> exists i :: 0 <= i < |raw| && IsDigit(raw[i])
    ensures SelectCategory(raw, c).Some? ==>
              SelectCategory(raw, c).value.amount == DigitsValue(KeepDigits(raw)) &&
              SelectCategory(raw, c).value.category == c
    ensures SelectCategory(raw, c).Some? && other != c ==>
              SelectCategory(raw, c).value.description != "Doanh thu " + CategoryName(other)
  {
    NormalisedInputParses(raw);
    if other != c {
      CategoryNamesDistinct(c, other);
      var p := "Doanh thu ";
      assert (p + CategoryName(c))[|p|..] == CategoryName(c);
      assert (p + CategoryName(other))[|p|..] == CategoryName(other);
    }
  }

  // Purchase invoices

  /** Σ quantity × unit price. */
  function LineItemsTotal(items: seq<LineItem>): int {
    if items == [] then 0 else items[0].quantity * items[0].unitPrice + LineItemsTotal(items[1..])
  }

  function LineAmount(item: LineItem): int {
    item.quantity * item.unitPrice
  }

  lemma {:induction false} LineItemsTotalAppend(items: seq<LineItem>, x: LineItem)
    ensures LineItemsTotal(items + [x]) == LineItemsTotal(items) + LineAmount(x)
  {
    if items == [] {
      assert [x][1..] == [];
    } else {
      assert (items + [x])[1..] == items[1..] + [x];
      LineItemsTotalAppend(items[1..], x);
    }
  }

  /** Changing one line changes the total by the difference of that line's
      amounts. */
  lemma {:induction false} LineItemsTotalUpdate(items: seq<LineItem>, i: nat, x: LineItem)
    requires i < |items|
    ensures LineItemsTotal(items[i := x]) == LineItemsTotal(items) - LineAmount(items[i]) + LineAmount(x)
  {
    if i == 0 {
      assert items[i := x][1..] == items[1..];
    } else {
      assert items[i := x][1..] == items[1..][i - 1 := x];
      LineItemsTotalUpdate(items[1..], i - 1, x);
    }
  }

  /** The lines without the one at `index`; any other index removes
      nothing. */
  function RemoveAt(items: seq<LineItem>, index: int): (r: seq<LineItem>)
    ensures 0 <= index < |items| ==> |r| == |items| - 1
    ensures !(0 <= index < |items|) ==> r == items
  {
    if 0 <= index < |items| then items[..index] + items[index + 1..] else items
  }

  lemma {:induction false} LineItemsTotalConcat(a: seq<LineItem>, b: seq<LineItem>)
    ensures LineItemsTotal(a + b) == LineItemsTotal(a) + LineItemsTotal(b)
  {
    if a == [] {
      assert a + b == b;
    } else {
      assert (a + b)[1..] == a[1..] + b;
      LineItemsTotalConcat(a[1..], b);
    }
  }

  /** Removing a line takes its amount off the total. */
  lemma {:induction false} LineItemsTotalRemove(items: seq<LineItem>, index: int)
    ensures LineItemsTotal(RemoveAt(items, index)) ==
              LineItemsTotal(items) - (if 0 <= index < |items| then LineAmount(items[index]) else 0)
  {
    if 0 <= index < |items| {
      var i := index;
      assert items == items[..i] + ([items[i]] + items[i + 1..]);
      LineItemsTotalConcat(items[..i], [items[i]] + items[i + 1..]);
      LineItemsTotalConcat(items[..i], items[i + 1..]);
      assert ([items[i]] + items[i + 1..])[1..] == items[i + 1..];
    }
  }

  /** The line every new row of the form starts as. */
  const BlankLine: LineItem := LineItem("", "", 1, 0)

  /** One edit of a line's name, quantity or unit price. */
  datatype LineEdit = SetName(name: string) | SetQuantity(quantity: int) | SetUnitPrice(unitPrice: int)

  function ApplyEdit(item: LineItem, edit: LineEdit): LineItem {
    match edit
    case SetName(n) => item.(name := n)
    case SetQuantity(q) => item.(quantity := q)
    case SetUnitPrice(p) => item.(unitPrice := p)
  }

  /** The lines with their ids. */
  function WithIds(items: seq<LineItem>, ids: seq<string>): (r: seq<LineItem>)
    requires |ids| == |items|
    ensures |r| == |items|
    ensures forall k :: 0 <= k < |r| ==> r[k] == items[k].(id := ids[k])
  {
    if items == [] then [] else [items[0].(id := ids[0])] + WithIds(items[1..], ids[1..])
  }

  /** Giving the lines ids changes no amount. */
  lemma {:induction false} WithIdsTotal(items: seq<LineItem>, ids: seq<string>)
    requires |ids| == |items|
    ensures LineItemsTotal(WithIds(items, ids)) == LineItemsTotal(items)
  {
    if items != [] {
      WithIdsTotal(items[1..], ids[1..]);
      assert WithIds(items, ids)[1..] == WithIds(items[1..], ids[1..]);
    }
  }

  /** A saved invoice before the ledger gives it its id. */
  datatype InvoiceDraft = InvoiceDraft(
    date: Date,
    supplierName: string,
    supplierTaxCode: string,
    description: string,
    amount: int,
    expenseCategory: ExpenseCategory,
    lineItems: seq<LineItem>,
    imageUrl: Option<string>)

  /** The form's state: the invoice details, the lines being typed and the
      attached image. */
  class ExpenseForm {
    var date: Date
    var supplierName: string
    var supplierTaxCode: string
    var description: string
    var expenseCategory: ExpenseCategory
    var lineItems: seq<LineItem>
    var imageUrl: Option<string>

    /** A new form: today's date, raw materials, one blank line. */
    constructor(today: Date)
      ensures date == today && supplierName == "" && supplierTaxCode == "" && description == ""
      ensures expenseCategory == RawMaterials && lineItems == [BlankLine] && imageUrl == None
      ensures LineItemsTotal(lineItems) == 0
    {
      date := today;
      supplierName := "";
      supplierTaxCode := "";
      description := "";
      expenseCategory := RawMaterials;
      lineItems := [BlankLine];
      imageUrl := None;
    }

    method SetSupplierName(name: string)
      modifies this
      ensures supplierName == name && lineItems == old(lineItems)
      ensures date == old(date) && supplierTaxCode == old(supplierTaxCode) && description == old(description)
      ensures expenseCategory == old(expenseCategory) && imageUrl == old(imageUrl)
    {
      supplierName := name;
    }

    /** `handleLineItemChange`: the lines are copied, the one at `index`
        takes the edit, and the copy replaces them. */
    method ChangeLineItem(index: nat, edit: LineEdit)
      requires index < |lineItems|
      modifies this
      ensures lineItems == old(lineItems)[index := ApplyEdit(old(lineItems)[index], edit)]
      ensures LineItemsTotal(lineItems) ==
                LineItemsTotal(old(lineItems)) - LineAmount(old(lineItems)[index]) +
                LineAmount(ApplyEdit(old(lineItems)[index], edit))
      ensures supplierName == old(supplierName) && date == old(date)
      ensures supplierTaxCode == old(supplierTaxCode) && description == old(description)
      ensures expenseCategory == old(expenseCategory) && imageUrl == old(imageUrl)
    {
      var items := lineItems;
      var updated := new LineItem[|items|](k requires 0 <= k < |items| => items[k]);
      updated[index] := ApplyEdit(updated[index], edit);
      lineItems := updated[..];
      assert lineItems == items[index := ApplyEdit(items[index], edit)];
      LineItemsTotalUpdate(items, index, ApplyEdit(items[index], edit));
    }

    /** `addLineItem`: one blank line more; the total stays. */
    method AddLineItem()
      modifies this
      ensures lineItems == old(lineItems) + [BlankLine]
      ensures LineItemsTotal(lineItems) == LineItemsTotal(old(lineItems))
      ensures supplierName == old(supplierName) && date == old(date)
      ensures supplierTaxCode == old(supplierTaxCode) && description == old(description)
      ensures expenseCategory == old(expenseCategory) && imageUrl == old(imageUrl)
    {
      LineItemsTotalAppend(lineItems, BlankLine);
      lineItems := lineItems + [BlankLine];
    }

    /** `removeLineItem`: the line at `index` is dropped. */
    method RemoveLineItem(index: int)
      modifies this
      ensures lineItems == RemoveAt(old(lineItems), index)
      ensures LineItemsTotal(lineItems) ==
                LineItemsTotal(old(lineItems)) -
                (if 0 <= index < |old(lineItems)| then LineAmount(old(lineItems)[index]) else 0)
      ensures supplierName == old(supplierName) && date == old(date)
      ensures supplierTaxCode == old(supplierTaxCode) && description == old(description)
      ensures expenseCategory == old(expenseCategory) && imageUrl == old(imageUrl)
    {
      LineItemsTotalRemove(lineItems, index);
      lineItems := RemoveAt(lineItems, index);
    }

    /** `handleSubmit`: refused without a supplier name or with a total of
        0 or less; otherwise the invoice, whose amount is the total of its
        lines, which get the given ids. */
    method Submit(itemIds: seq<string>) returns (r: Option<InvoiceDraft>)
      requires |itemIds| == |lineItems|
      ensures r.None? <==> supplierName == "" || LineItemsTotal(lineItems) <= 0
      ensures r.Some? ==> r.value == SubmitInvoice(date, supplierName, supplierTaxCode, description,
                                                   expenseCategory, lineItems, itemIds, imageUrl).value
    {
      r := SubmitInvoice(date, supplierName, supplierTaxCode, description, expenseCategory,
                         lineItems, itemIds, imageUrl);
    }
  }

  /** The invoice the form saves, from the form's values. An empty image is
      no image. */
  function SubmitInvoice(date: Date, supplierName: string, supplierTaxCode: string, description: string,
                         expenseCategory: ExpenseCategory, items: seq<LineItem>, itemIds: seq<string>,
                         imageUrl: Option<string>): (r: Option<InvoiceDraft>)
    requires |itemIds| == |items|
    ensures r.None? <==> supplierName == "" || LineItemsTotal(items) <= 0
    ensures r.Some? ==> r.value.amount == LineItemsTotal(r.value.lineItems) > 0
    ensures r.Some? ==> |r.value.lineItems| == |items| &&
                        forall k :: 0 <= k < |items| ==> r.value.lineItems[k] == items[k].(id := itemIds[k])
    ensures r.Some? ==> r.value.supplierName == supplierName && r.value.date == date
    ensures r.Some? ==> r.value.supplierTaxCode == supplierTaxCode && r.value.description == description
    ensures r.Some? ==> r.value.expenseCategory == expenseCategory
    ensures r.Some? ==> r.value.imageUrl != Some("") && (imageUrl != Some("") ==> r.value.imageUrl == imageUrl)
  {
    if supplierName == "" || LineItemsTotal(items) <= 0 then None
    else
      WithIdsTotal(items, itemIds);
      var image := if imageUrl == Some("") then None else imageUrl;
      Some(InvoiceDraft(date, supplierName, supplierTaxCode, description, LineItemsTotal(items),
                        expenseCategory, WithIds(items, itemIds), image))
  }

  // The ledger

  /** The dashboard's two lists, newest first, as loaded from storage. */
  class Group2Ledger {
    var transactions: seq<Transaction>
    var invoices: seq<InputInvoice>

    /** The lists saved earlier, or empty ones. */
    constructor(savedRevenue: Option<seq<Transaction>>, savedExpenses: Option<seq<InputInvoice>>)
      ensures transactions == (if savedRevenue.Some? then savedRevenue.value else [])
      ensures invoices == (if savedExpenses.Some? then savedExpenses.value else [])
    {
      transactions := if savedRevenue.Some? then savedRevenue.value else [];
      invoices := if savedExpenses.Some? then savedExpenses.value else [];
    }

    /** `handleAddRevenue`: the entry, with the clock's id and date, goes
        first. */
    method AddRevenue(entry: RevenueEntry, id: string, date: Date)
      modifies this
      ensures transactions == [Transaction(id, date, entry.amount, entry.category, entry.description)] + old(transactions)
      ensures invoices == old(invoices)
      ensures AmountSum(transactions) == AmountSum(old(transactions)) + entry.amount
    {
      var t := Transaction(id, date, entry.amount, entry.category, entry.description);
      assert ([t] + transactions)[1..] == transactions;
      transactions := [t] + transactions;
    }

    /** `handleAddExpense`: the invoice, with the clock's id, goes first. */
    method AddExpense(draft: InvoiceDraft, id: string)
      modifies this
      ensures invoices == [InputInvoice(id, draft.date, draft.supplierName, draft.supplierTaxCode,
                                        draft.description, draft.amount, draft.expenseCategory,
                                        draft.lineItems, draft.imageUrl)] + old(invoices)
      ensures transactions == old(transactions)
      ensures InvoiceSum(invoices) == InvoiceSum(old(invoices)) + draft.amount
    {
      var inv := InputInvoice(id, draft.date, draft.supplierName, draft.supplierTaxCode,
                              draft.description, draft.amount, draft.expenseCategory,
                              draft.lineItems, draft.imageUrl);
      assert ([inv] + invoices)[1..] == invoices;
      invoices := [inv] + invoices;
    }
  }

  /** A sale recorded today shows in today's view: the day's revenue grows
      by its amount and the day's tax by its amount times its rates. */
  lemma {:induction false} NewSaleInTodaysFigures(ts: seq<Transaction>, invoices: seq<InputInvoice>, t: Transaction)
    ensures var before, after := Figures(ts, invoices, DayView, t.date), Figures([t] + ts, invoices, DayView, t.date);
            var rates := HkdTaxRates(t.category);
            after.revenue == before.revenue + t.amount &&
            after.expenses == before.expenses &&
            after.tax == before.tax + t.amount as real * (rates.vat + rates.pit)
  {
    var rest := FilterByPeriod(ts, SaleDate, DayView, t.date);
    TodaysSales(ts, t);
    SalesCons(t, rest);
  }

  /** A sale dated on the day shown heads that day's sales. */
  lemma {:induction false} TodaysSales(ts: seq<Transaction>, t: Transaction)
    ensures FilterByPeriod([t] + ts, SaleDate, DayView, t.date) == [t] + FilterByPeriod(ts, SaleDate, DayView, t.date)
  {
    assert ([t] + ts)[1..] == ts;
    assert ([t] + ts)[0] == t;
    assert InPeriod(DayView, SaleDate(t), t.date);
  }

  /** The revenue and tax of a list of sales starting with `t`. */
  lemma {:induction false} SalesCons(t: Transaction, rest: seq<Transaction>)
    ensures AmountSum([t] + rest) == t.amount + AmountSum(rest)
    ensures var rates := HkdTaxRates(t.category);
            PeriodTax([t] + rest) == t.amount as real * (rates.vat + rates.pit) + PeriodTax(rest)
  {
    assert ([t] + rest)[1..] == rest;
    assert ([t] + rest)[0] == t;
  }
}
