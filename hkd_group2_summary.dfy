/** The 01/CNKD declaration of a Group 2 household business: one row per
    business category accumulating revenue, VAT and PIT over the period's
    sales, the rows without revenue dropped, the totals, and the column of
    the form each row's revenue goes to. */
module HkdDeclaration {
  import opened Types
  import opened Constants

  /** One row of the declaration. */
  datatype SummaryRow = SummaryRow(category: BusinessCategory, indicator: string, revenue: int, vat: real, pit: real)

  function ZeroRow(c: BusinessCategory): SummaryRow {
    SummaryRow(c, HkdIndicatorCode(c), 0, 0.0, 0.0)
  }

  /** The starting rows: one per category, in the order the categories are
      declared, all at zero. */
  const InitialSummary: seq<SummaryRow> := [
    ZeroRow(Distribution), ZeroRow(LodgingAndCatering), ZeroRow(ConsumerServices),
    ZeroRow(ConstructionNoMaterials), ZeroRow(ConstructionWithMaterials), ZeroRow(AssetRental),
    ZeroRow(ProductionTransport), ZeroRow(Brokerage), ZeroRow(OtherBusiness)
  ]

  /** The starting rows follow the category list one for one. */
  lemma InitialSummaryShape()
    ensures |InitialSummary| == |AllCategories|
    ensures forall k :: 0 <= k < |InitialSummary| ==> InitialSummary[k] == ZeroRow(AllCategories[k])
  {
  }

  /** A sale added to a row: its amount to the revenue, the amount times the
      category's rates to the two taxes. */
  function Bump(row: SummaryRow, t: Transaction): SummaryRow {
    var rates := HkdTaxRates(t.category);
    row.(revenue := row.revenue + t.amount,
         vat := row.vat + t.amount as real * rates.vat,
         pit := row.pit + t.amount as real * rates.pit)
  }

  /** One step of the reduction: the first row of the sale's category is
      bumped; with no such row nothing changes. */
  function AddToRows(rows: seq<SummaryRow>, t: Transaction): (r: seq<SummaryRow>)
    ensures |r| == |rows|
  {
    if rows == [] then []
    else if rows[0].category == t.category then [Bump(rows[0], t)] + rows[1..]
    else [rows[0]] + AddToRows(rows[1..], t)
  }

  /** The reduction over the sales, in order. */
  function FoldRows(rows: seq<SummaryRow>, ts: seq<Transaction>): (r: seq<SummaryRow>)
    ensures |r| == |rows|
    decreases |ts|
  {
    if ts == [] then rows else FoldRows(AddToRows(rows, ts[0]), ts[1..])
  }

  /** The rows with positive revenue, in their order. */
  function PositiveRows(rows: seq<SummaryRow>): seq<SummaryRow> {
    if rows == [] then []
    else
      var rest := PositiveRows(rows[1..]);
      if rows[0].revenue > 0 then [rows[0]] + rest else rest
  }

  /** A row is kept iff it has positive revenue. */
  lemma {:induction false} PositiveRowsMembers(rows: seq<SummaryRow>)
    ensures forall x :: x in PositiveRows(rows) <==> x in rows && x.revenue > 0
  {
    if rows != [] {
      PositiveRowsMembers(rows[1..]);
      assert forall x :: x in rows <==> x == rows[0] || x in rows[1..];
    }
  }

  /** The declaration's rows for a period's sales. */
  function Summary(ts: seq<Transaction>): seq<SummaryRow> {
    PositiveRows(FoldRows(InitialSummary, ts))
  }

  /** Sales of one category: the revenue, and the VAT and PIT on it. */
  function CategoryRevenue(ts: seq<Transaction>, c: BusinessCategory): int {
    if ts == [] then 0 else (if ts[0].category == c then ts[0].amount else 0) + CategoryRevenue(ts[1..], c)
  }

  function CategoryVat(ts: seq<Transaction>, c: BusinessCategory): real {
    if ts == [] then 0.0
    else (if ts[0].category == c then ts[0].amount as real * HkdTaxRates(c).vat else 0.0) + CategoryVat(ts[1..], c)
  }

  function CategoryPit(ts: seq<Transaction>, c: BusinessCategory): real {
    if ts == [] then 0.0
    else (if ts[0].category == c then ts[0].amount as real * HkdTaxRates(c).pit else 0.0) + CategoryPit(ts[1..], c)
  }

  /** The row a category should show for a list of sales. */
  function FullRow(ts: seq<Transaction>, c: BusinessCategory): SummaryRow {
    SummaryRow(c, HkdIndicatorCode(c), CategoryRevenue(ts, c), CategoryVat(ts, c), CategoryPit(ts, c))
  }

  predicate DistinctCategories(rows: seq<SummaryRow>) {
    forall a, b :: 0 <= a < b < |rows| ==> rows[a].category != rows[b].category
  }

  /** When `j` is the first row of the sale's category (or `|rows|` when
      there is none), the step bumps exactly row `j`. */
  lemma {:induction false} AddToRowsAt(rows: seq<SummaryRow>, t: Transaction, j: nat)
    requires j <= |rows|
    requires forall k :: 0 <= k < j ==> rows[k].category != t.category
    requires j < |rows| ==> rows[j].category == t.category
    ensures AddToRows(rows, t) == if j < |rows| then rows[j := Bump(rows[j], t)] else rows
  {
    if rows != [] {
      if rows[0].category == t.category {
        assert j == 0;
      } else {
        AddToRowsAt(rows[1..], t, j - 1);
        assert [rows[0]] + rows[1..] == rows;
        if j < |rows| {
          ConsUpdate(rows[0], rows[1..], j - 1, Bump(rows[j], t));
        }
      }
    }
  }

  /** Updating the tail of a sequence updates the sequence one place
      further on. */
  lemma {:induction false} ConsUpdate(x: SummaryRow, s: seq<SummaryRow>, i: nat, v: SummaryRow)
    requires i < |s|
    ensures [x] + s[i := v] == ([x] + s)[i + 1 := v]
  {
  }

  /** The first row of a category, or `|rows|` when there is none. */
  function FirstIndex(rows: seq<SummaryRow>, c: BusinessCategory): (j: nat)
    ensures j <= |rows|
    ensures forall k :: 0 <= k < j ==> rows[k].category != c
    ensures j < |rows| ==> rows[j].category == c
  {
    if rows == [] then 0
    else if rows[0].category == c then 0
    else 1 + FirstIndex(rows[1..], c)
  }

  /** Over distinct categories, a sale changes its own category's row only. */
  lemma {:induction false} AddToRowsEffect(rows: seq<SummaryRow>, t: Transaction, i: nat)
    requires DistinctCategories(rows) && i < |rows|
    ensures DistinctCategories(AddToRows(rows, t))
    ensures AddToRows(rows, t)[i] == if rows[i].category == t.category then Bump(rows[i], t) else rows[i]
  {
    var j := FirstIndex(rows, t.category);
    AddToRowsAt(rows, t, j);
  }

  /** A row with the sales of its own category counted, one after the
      other. */
  function RowAfter(row: SummaryRow, ts: seq<Transaction>): SummaryRow
    decreases |ts|
  {
    if ts == [] then row
    else RowAfter(if ts[0].category == row.category then Bump(row, ts[0]) else row, ts[1..])
  }

  /** After the reduction each row has counted exactly the sales of its own
      category, in order. */
  lemma {:induction false} FoldRowsAt(rows: seq<SummaryRow>, ts: seq<Transaction>, i: nat)
    requires DistinctCategories(rows) && i < |rows|
    ensures FoldRows(rows, ts)[i] == RowAfter(rows[i], ts)
    decreases |ts|
  {
    if ts != [] {
      AddToRowsEffect(rows, ts[0], i);
      FoldRowsAt(AddToRows(rows, ts[0]), ts[1..], i);
    }
  }

  /** Counting a category's sales adds their revenue, VAT and PIT to the
      row. */
  lemma {:induction false} RowAfterSums(row: SummaryRow, ts: seq<Transaction>)
    ensures var c := row.category;
            RowAfter(row, ts) ==
              row.(revenue := row.revenue + CategoryRevenue(ts, c),
                   vat := row.vat + CategoryVat(ts, c),
                   pit := row.pit + CategoryPit(ts, c))
    decreases |ts|
  {
    if ts != [] {
      var next := if ts[0].category == row.category then Bump(row, ts[0]) else row;
      RowAfterSums(next, ts[1..]);
      RowStep(row, next, RowAfter(row, ts), ts);
    }
  }

  lemma {:induction false} RowStep(row: SummaryRow, next: SummaryRow, after: SummaryRow, ts: seq<Transaction>)
    requires ts != [] && next == if ts[0].category == row.category then Bump(row, ts[0]) else row
    requires var c := row.category;
             after == next.(revenue := next.revenue + CategoryRevenue(ts[1..], c),
                            vat := next.vat + CategoryVat(ts[1..], c),
                            pit := next.pit + CategoryPit(ts[1..], c))
    ensures var c := row.category;
            after == row.(revenue := row.revenue + CategoryRevenue(ts, c),
                          vat := row.vat + CategoryVat(ts, c),
                          pit := row.pit + CategoryPit(ts, c))
  {
  }

  /** The reduced rows, before filtering, are the category rows in order. */
  lemma {:induction false} FoldedRows(ts: seq<Transaction>)
    ensures |FoldRows(InitialSummary, ts)| == |AllCategories|
    ensures forall k :: 0 <= k < |AllCategories| ==> FoldRows(InitialSummary, ts)[k] == FullRow(ts, AllCategories[k])
  {
    InitialSummaryShape();
    AllCategoriesComplete(Distribution);
    FoldedZeroRows(InitialSummary, AllCategories, ts);
  }

  /** Zero rows of distinct categories reduce to those categories' full
      rows. */
  lemma {:induction false} FoldedZeroRows(rows: seq<SummaryRow>, cats: seq<BusinessCategory>, ts: seq<Transaction>)
    requires |rows| == |cats|
    requires forall k :: 0 <= k < |rows| ==> rows[k] == ZeroRow(cats[k])
    requires forall i, j :: 0 <= i < j < |cats| ==> cats[i] != cats[j]
    ensures forall k :: 0 <= k < |rows| ==> FoldRows(rows, ts)[k] == FullRow(ts, cats[k])
  {
    assert DistinctCategories(rows) by {
      forall a, b | 0 <= a < b < |rows| ensures rows[a].category != rows[b].category {
        assert rows[a].category == cats[a] && rows[b].category == cats[b];
      }
    }
    forall k | 0 <= k < |rows| ensures FoldRows(rows, ts)[k] == FullRow(ts, cats[k]) {
      FoldRowsAt(rows, ts, k);
      RowAfterSums(rows[k], ts);
    }
  }

  /** The declaration's rows are exactly the category rows with positive
      revenue: a category is listed iff it had positive revenue, and then
      with the revenue and taxes of its own sales. */
  lemma {:induction false} SummaryRows(ts: seq<Transaction>, c: BusinessCategory)
    ensures FullRow(ts, c) in Summary(ts) <==> CategoryRevenue(ts, c) > 0
    ensures forall r :: r in Summary(ts) ==> r == FullRow(ts, r.category) && r.revenue > 0
  {
    FoldedRows(ts);
    AllCategoriesComplete(c);
    var folded := FoldRows(InitialSummary, ts);
    PositiveRowsMembers(folded);
    var k :| 0 <= k < |AllCategories| && AllCategories[k] == c;
    assert folded[k] == FullRow(ts, c);
    forall r | r in Summary(ts) ensures r == FullRow(ts, r.category) {
      var m :| 0 <= m < |folded| && folded[m] == r;
      assert r == FullRow(ts, AllCategories[m]);
    }
  }

  /** Filtering distributes over concatenation, so the kept rows keep their
      relative order. */
  lemma {:induction false} PositiveRowsConcat(a: seq<SummaryRow>, b: seq<SummaryRow>)
    ensures PositiveRows(a + b) == PositiveRows(a) + PositiveRows(b)
  {
    if a == [] {
      assert a + b == b;
    } else {
      assert (a + b)[0] == a[0] && (a + b)[1..] == a[1..] + b;
      PositiveRowsConcat(a[1..], b);
      if a[0].revenue > 0 {
        assert [a[0]] + (PositiveRows(a[1..]) + PositiveRows(b)) == ([a[0]] + PositiveRows(a[1..])) + PositiveRows(b);
      }
    }
  }

  /** The `reduce` of the declaration: for each sale, in order, the row of
      its category is found and updated in place. */
  method AccumulateRows(acc: array<SummaryRow>, ts: seq<Transaction>)
    modifies acc
    ensures acc[..] == FoldRows(old(acc[..]), ts)
  {
    ghost var start := acc[..];
    var i := 0;
    while i < |ts|
      invariant 0 <= i <= |ts|
      invariant acc[..] == FoldRows(start, ts[..i])
    {
      var t := ts[i];
      var j := 0;
      while j < acc.Length && acc[j].category != t.category
        invariant 0 <= j <= acc.Length
        invariant forall k :: 0 <= k < j ==> acc[k].category != t.category
      {
        j := j + 1;
      }
      FoldPrefixStep(start, ts, i, acc[..], j);
      if j < acc.Length {
        acc[j] := Bump(acc[j], t);
      }
      i := i + 1;
    }
    assert ts[..i] == ts;
  }

  /** One more sale of the prefix bumps the first row of its category. */
  lemma {:induction false} FoldPrefixStep(start: seq<SummaryRow>, ts: seq<Transaction>, i: nat, rows: seq<SummaryRow>, j: nat)
    requires i < |ts| && rows == FoldRows(start, ts[..i])
    requires j <= |rows| && (j < |rows| ==> rows[j].category == ts[i].category)
    requires forall k :: 0 <= k < j ==> rows[k].category != ts[i].category
    ensures FoldRows(start, ts[..i + 1]) == if j < |rows| then rows[j := Bump(rows[j], ts[i])] else rows
  {
    AddToRowsAt(rows, ts[i], j);
    FoldRowsSnoc(start, ts[..i], ts[i]);
    assert ts[..i + 1] == ts[..i] + [ts[i]];
  }

  /** The `filter` of the declaration: the rows with positive revenue. */
  method KeepPositive(rows: seq<SummaryRow>) returns (kept: seq<SummaryRow>)
    ensures kept == PositiveRows(rows)
  {
    kept := [];
    var k := 0;
    while k < |rows|
      invariant 0 <= k <= |rows|
      invariant kept == PositiveRows(rows[..k])
    {
      PositiveRowsConcat(rows[..k], [rows[k]]);
      assert rows[..k + 1] == rows[..k] + [rows[k]];
      if rows[k].revenue > 0 {
        kept := kept + [rows[k]];
      }
      k := k + 1;
    }
    assert rows[..k] == rows;
  }

  /** `summary`: the rows start at zero, accumulate the sales, and only those
      with positive revenue are kept. */
  method BuildSummary(ts: seq<Transaction>) returns (summary: seq<SummaryRow>)
    ensures summary == Summary(ts)
  {
    var init := InitialSummary;
    var acc := new SummaryRow[|init|](k requires 0 <= k < |init| => init[k]);
    assert acc[..] == init;
    AccumulateRows(acc, ts);
    summary := KeepPositive(acc[..]);
  }

  /** The reduction over one more sale is one more step. */
  lemma {:induction false} FoldRowsSnoc(rows: seq<SummaryRow>, ts: seq<Transaction>, t: Transaction)
    ensures FoldRows(rows, ts + [t]) == AddToRows(FoldRows(rows, ts), t)
    decreases |ts|
  {
    if ts == [] {
      assert [t][1..] == [];
    } else {
      assert (ts + [t])[1..] == ts[1..] + [t];
      FoldRowsSnoc(AddToRows(rows, ts[0]), ts[1..], t);
    }
  }

  // Totals

  /** The declaration's totals: revenue, VAT and PIT summed over its rows. */
  datatype Totals = Totals(revenue: int, vat: real, pit: real)

  function RowTotals(rows: seq<SummaryRow>): Totals {
    if rows == [] then Totals(0, 0.0, 0.0)
    else
      var rest := RowTotals(rows[1..]);
      Totals(rows[0].revenue + rest.revenue, rows[0].vat + rest.vat, rows[0].pit + rest.pit)
  }

  /** The sales' amounts, VAT and PIT, each sale at its own category's
      rates. */
  function AmountSum(ts: seq<Transaction>): int {
    if ts == [] then 0 else ts[0].amount + AmountSum(ts[1..])
  }

  function VatSum(ts: seq<Transaction>): real {
    if ts == [] then 0.0 else ts[0].amount as real * HkdTaxRates(ts[0].category).vat + VatSum(ts[1..])
  }

  function PitSum(ts: seq<Transaction>): real {
    if ts == [] then 0.0 else ts[0].amount as real * HkdTaxRates(ts[0].category).pit + PitSum(ts[1..])
  }

  /** The totals with one more sale counted, at its category's rates. */
  function AddSale(before: Totals, t: Transaction): Totals {
    var rates := HkdTaxRates(t.category);
    Totals(before.revenue + t.amount, before.vat + t.amount as real * rates.vat, before.pit + t.amount as real * rates.pit)
  }

  /** The totals with the sales counted one after the other. */
  function AddSales(before: Totals, ts: seq<Transaction>): Totals
    decreases |ts|
  {
    if ts == [] then before else AddSales(AddSale(before, ts[0]), ts[1..])
  }

  /** A step adds the sale to the totals when a row of its category exists. */
  lemma {:induction false} AddToRowsTotals(rows: seq<SummaryRow>, t: Transaction)
    ensures RowTotals(AddToRows(rows, t)) ==
              if FirstIndex(rows, t.category) < |rows| then AddSale(RowTotals(rows), t) else RowTotals(rows)
  {
    if rows != [] && rows[0].category != t.category {
      AddToRowsTotals(rows[1..], t);
      assert AddToRows(rows, t)[1..] == AddToRows(rows[1..], t);
    } else if rows != [] {
      assert AddToRows(rows, t)[1..] == rows[1..];
    }
  }

  /** A step keeps every row's category where it was. */
  lemma {:induction false} AddToRowsKeepsIndex(rows: seq<SummaryRow>, t: Transaction, c: BusinessCategory)
    ensures FirstIndex(AddToRows(rows, t), c) == FirstIndex(rows, c)
  {
    var j := FirstIndex(rows, t.category);
    AddToRowsAt(rows, t, j);
    var r := AddToRows(rows, t);
    assert forall k :: 0 <= k < |r| ==> r[k].category == rows[k].category;
    FirstIndexUnique(r, c, FirstIndex(rows, c));
  }

  /** The first index is the only one with nothing of the category before
      it. */
  lemma {:induction false} FirstIndexUnique(rows: seq<SummaryRow>, c: BusinessCategory, j: nat)
    requires j <= |rows|
    requires forall k :: 0 <= k < j ==> rows[k].category != c
    requires j < |rows| ==> rows[j].category == c
    ensures FirstIndex(rows, c) == j
  {
  }

  /** When every category has a row, the reduction counts every sale in
      the totals. */
  lemma {:induction false} FoldRowsTotals(rows: seq<SummaryRow>, ts: seq<Transaction>)
    requires forall c :: FirstIndex(rows, c) < |rows|
    ensures RowTotals(FoldRows(rows, ts)) == AddSales(RowTotals(rows), ts)
    decreases |ts|
  {
    if ts != [] {
      AddToRowsKeepsAll(rows, ts[0]);
      AddToRowsTotals(rows, ts[0]);
      FoldRowsTotals(AddToRows(rows, ts[0]), ts[1..]);
    }
  }

  /** Counting the sales one by one adds their amounts, VAT and PIT. */
  lemma {:induction false} AddSalesSums(before: Totals, ts: seq<Transaction>)
    ensures AddSales(before, ts) == Totals(before.revenue + AmountSum(ts), before.vat + VatSum(ts), before.pit + PitSum(ts))
    decreases |ts|
  {
    if ts != [] {
      var mid := AddSale(before, ts[0]);
      AddSalesSums(mid, ts[1..]);
      SaleStep(before, mid, AddSales(before, ts), ts);
    }
  }

  lemma {:induction false} SaleStep(before: Totals, mid: Totals, after: Totals, ts: seq<Transaction>)
    requires ts != [] && mid == AddSale(before, ts[0])
    requires after == Totals(mid.revenue + AmountSum(ts[1..]), mid.vat + VatSum(ts[1..]), mid.pit + PitSum(ts[1..]))
    ensures after == Totals(before.revenue + AmountSum(ts), before.vat + VatSum(ts), before.pit + PitSum(ts))
  {
    SumsCons(ts);
  }

  /** The sums over sales start with the first sale. */
  lemma {:induction false} SumsCons(ts: seq<Transaction>)
    requires ts != []
    ensures var t, rates := ts[0], HkdTaxRates(ts[0].category);
            && AmountSum(ts) == t.amount + AmountSum(ts[1..])
            && VatSum(ts) == t.amount as real * rates.vat + VatSum(ts[1..])
            && PitSum(ts) == t.amount as real * rates.pit + PitSum(ts[1..])
  {
  }

  /** A step leaves a row for every category that had one. */
  lemma {:induction false} AddToRowsKeepsAll(rows: seq<SummaryRow>, t: Transaction)
    requires forall c :: FirstIndex(rows, c) < |rows|
    ensures forall c :: FirstIndex(AddToRows(rows, t), c) < |rows|
  {
    forall c ensures FirstIndex(AddToRows(rows, t), c) < |rows| {
      AddToRowsKeepsIndex(rows, t, c);
    }
  }


  /** A row is all zero when it has no positive revenue. */
  predicate ZeroWhenEmpty(rows: seq<SummaryRow>) {
    forall k :: 0 <= k < |rows| && rows[k].revenue <= 0 ==>
      rows[k].revenue == 0 && rows[k].vat == 0.0 && rows[k].pit == 0.0
  }

  /** Rows that are all zero total zero. */
  lemma {:induction false} ZeroRowsTotal(rows: seq<SummaryRow>)
    requires forall k :: 0 <= k < |rows| ==> rows[k].revenue == 0 && rows[k].vat == 0.0 && rows[k].pit == 0.0
    ensures RowTotals(rows) == Totals(0, 0.0, 0.0)
  {
    if rows != [] {
      ZeroRowsTotal(rows[1..]);
    }
  }

  /** Dropping rows that are entirely zero leaves the totals as they were. */
  lemma {:induction false} PositiveRowsTotals(rows: seq<SummaryRow>)
    requires ZeroWhenEmpty(rows)
    ensures RowTotals(PositiveRows(rows)) == RowTotals(rows)
  {
    if rows != [] {
      assert ZeroWhenEmpty(rows[1..]) by {
        forall k | 0 <= k < |rows| - 1 ensures rows[1..][k] == rows[k + 1] { }
      }
      PositiveRowsTotals(rows[1..]);
      var rest := PositiveRows(rows[1..]);
      if rows[0].revenue > 0 {
        assert ([rows[0]] + rest)[1..] == rest;
      }
    }
  }

  /** Each category's taxes are its revenue times its rates. */
  lemma {:induction false} CategoryTaxIsRate(ts: seq<Transaction>, c: BusinessCategory)
    ensures CategoryVat(ts, c) == CategoryRevenue(ts, c) as real * HkdTaxRates(c).vat
    ensures CategoryPit(ts, c) == CategoryRevenue(ts, c) as real * HkdTaxRates(c).pit
  {
    if ts != [] {
      CategoryTaxIsRate(ts[1..], c);
      var a := if ts[0].category == c then ts[0].amount else 0;
      var rest := CategoryRevenue(ts[1..], c);
      var rates := HkdTaxRates(c);
      assert (a + rest) as real * rates.vat == a as real * rates.vat + rest as real * rates.vat;
      assert (a + rest) as real * rates.pit == a as real * rates.pit + rest as real * rates.pit;
    }
  }

  predicate NonNegativeAmounts(ts: seq<Transaction>) {
    forall i :: 0 <= i < |ts| ==> ts[i].amount >= 0
  }

  lemma {:induction false} CategoryRevenueNonNegative(ts: seq<Transaction>, c: BusinessCategory)
    requires NonNegativeAmounts(ts)
    ensures CategoryRevenue(ts, c) >= 0
  {
    if ts != [] {
      assert NonNegativeAmounts(ts[1..]) by {
        forall i | 0 <= i < |ts| - 1 ensures ts[1..][i].amount >= 0 {
          assert ts[1..][i] == ts[i + 1];
        }
      }
      CategoryRevenueNonNegative(ts[1..], c);
    }
  }

  /** With non-negative amounts a category row without revenue is all
      zero. */
  lemma {:induction false} EmptyRowsAreZero(ts: seq<Transaction>)
    requires NonNegativeAmounts(ts)
    ensures ZeroWhenEmpty(FoldRows(InitialSummary, ts))
  {
    var folded := FoldRows(InitialSummary, ts);
    FoldedRows(ts);
    forall k | 0 <= k < |folded| && folded[k].revenue <= 0
      ensures folded[k].revenue == 0 && folded[k].vat == 0.0 && folded[k].pit == 0.0
    {
      CategoryTaxIsRate(ts, AllCategories[k]);
      CategoryRevenueNonNegative(ts, AllCategories[k]);
    }
  }

  /** Every category has a starting row. */
  lemma InitialSummaryHasAll()
    ensures forall c :: FirstIndex(InitialSummary, c) < |InitialSummary|
  {
    InitialSummaryShape();
    forall c ensures FirstIndex(InitialSummary, c) < |InitialSummary| {
      AllCategoriesComplete(c);
      var k :| 0 <= k < |AllCategories| && AllCategories[k] == c;
      assert InitialSummary[k].category == c;
    }
  }

  /** With non-negative amounts the declaration's totals are the period's
      revenue and the VAT and PIT due on it: dropping the rows without
      revenue loses nothing. */
  lemma {:induction false} DeclarationTotals(ts: seq<Transaction>)
    requires NonNegativeAmounts(ts)
    ensures RowTotals(Summary(ts)) == Totals(AmountSum(ts), VatSum(ts), PitSum(ts))
  {
    var folded := FoldRows(InitialSummary, ts);
    assert RowTotals(PositiveRows(folded)) == RowTotals(folded) by {
      EmptyRowsAreZero(ts);
      PositiveRowsTotals(folded);
    }
    assert RowTotals(folded) == Totals(AmountSum(ts), VatSum(ts), PitSum(ts)) by {
      InitialSummaryHasAll();
      InitialSummaryShape();
      ZeroRowsTotal(InitialSummary);
      FoldRowsTotals(InitialSummary, ts);
      AddSalesSums(Totals(0, 0.0, 0.0), ts);
    }
  }

  // The 01/CNKD form

  /** The four revenue columns of a row on the form. */
  datatype Columns = Columns(ct28: int, ct29: int, ct30: int, ct31: int)

  /** Distribution in [28]; consumer services, lodging and catering,
      construction without materials, asset rental and brokerage in [29];
      construction with materials and production/transport in [30]; other
      business in [31]. */
  function DeclarationColumns(row: SummaryRow): Columns {
    var c := row.category;
    Columns(
      if c == Distribution then row.revenue else 0,
      if c in [ConsumerServices, LodgingAndCatering, ConstructionNoMaterials, AssetRental, Brokerage] then row.revenue else 0,
      if c in [ConstructionWithMaterials, ProductionTransport] then row.revenue else 0,
      if c == OtherBusiness then row.revenue else 0)
  }

  /** A row's revenue lands in exactly the column named by its category's
      indicator code, and nowhere else. */
  lemma {:induction false} ColumnsMatchIndicator(row: SummaryRow)
    ensures var cols, code := DeclarationColumns(row), HkdIndicatorCode(row.category);
            && (code == "[28]" ==> cols == Columns(row.revenue, 0, 0, 0))
            && (code == "[29]" ==> cols == Columns(0, row.revenue, 0, 0))
            && (code == "[30]" ==> cols == Columns(0, 0, row.revenue, 0))
            && (code == "[31]" ==> cols == Columns(0, 0, 0, row.revenue))
            && cols.ct28 + cols.ct29 + cols.ct30 + cols.ct31 == row.revenue
  {
  }

  /** The quarter of a month (0 to 11) on the form. */
  function Quarter(monthIndex: int): (q: int)
    requires 0 <= monthIndex < 12
    ensures 1 <= q <= 4
    ensures 3 * (q - 1) <= monthIndex < 3 * q
  {
    monthIndex / 3 + 1
  }
}
