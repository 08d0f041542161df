/** The personal-income-tax calculator: progressive tax over a bracket table,
    and the comparison of the 2025 law with the 2026 proposal for a monthly
    income and a number of dependents. */
module PitCalculator {
  import opened Types
  import opened Constants

  /** `Math.min(income, limit)`, where an unbounded limit never binds. */
  function MinLimit(income: int, limit: Limit): (m: int)
    ensures m <= income
    ensures limit.Finite? ==> m <= limit.amount && (m == income || m == limit.amount)
    ensures limit.Unbounded? ==> m == income
  {
    match limit
    case Unbounded => income
    case Finite(n) => if income < n then income else n
  }

  /** `income > previousLimit`; nothing is above an unbounded limit. */
  predicate Above(income: int, prev: Limit) {
    prev.Finite? && income > prev.amount
  }

  /** The tax on `income` from the brackets `bs` whose band starts at `prev`:
      each band contributes its rate times the part of the income inside it,
      until a band starts at or above the income. */
  function TaxFrom(income: int, bs: seq<PITBracket>, prev: Limit): real
    decreases |bs|
  {
    if bs == [] || !Above(income, prev) then 0.0
    else (MinLimit(income, bs[0].limit) - prev.amount) as real * bs[0].rate
         + TaxFrom(income, bs[1..], bs[0].limit)
  }

  /** The progressive tax on a taxable income: 0 for income <= 0, otherwise
      the band-by-band sum starting at 0. */
  function ProgressiveTax(taxableIncome: int, bs: seq<PITBracket>): real {
    if taxableIncome <= 0 then 0.0 else TaxFrom(taxableIncome, bs, Finite(0))
  }

  /** `calculateProgressiveTax`: walks the brackets in order, adding each
      band's share and stopping at the first band that starts at or above
      the income. */
  method CalculateProgressiveTax(taxableIncome: int, brackets: seq<PITBracket>) returns (tax: real)
    ensures taxableIncome <= 0 ==> tax == 0.0
    ensures tax == ProgressiveTax(taxableIncome, brackets)
  {
    if taxableIncome <= 0 {
      return 0.0;
    }
    tax := 0.0;
    var previousLimit := Finite(0);
    var i := 0;
    while i < |brackets|
      invariant 0 <= i <= |brackets|
      invariant tax + TaxFrom(taxableIncome, brackets[i..], previousLimit)
                == TaxFrom(taxableIncome, brackets, Finite(0))
    {
      var bracket := brackets[i];
      if Above(taxableIncome, previousLimit) {
        var taxableInBracket := MinLimit(taxableIncome, bracket.limit) - previousLimit.amount;
        tax := tax + taxableInBracket as real * bracket.rate;
      } else {
        break;
      }
      assert brackets[i..][1..] == brackets[i + 1..];
      previousLimit := bracket.limit;
      i := i + 1;
    }
  }

  // ---------------------------------------------------------------------
  // Shape of the tax function

  /** The tax is never negative on a well-formed table. */
  lemma {:induction false} TaxFromNonNegative(x: int, bs: seq<PITBracket>, p: int)
    requires AscendingFrom(bs, p)
    ensures TaxFrom(x, bs, Finite(p)) >= 0.0
    decreases |bs|
  {
    if Above(x, Finite(p)) {
      var m := MinLimit(x, bs[0].limit);
      assert (m - p) as real * bs[0].rate >= 0.0;
      if |bs| > 1 {
        TaxFromNonNegative(x, bs[1..], bs[0].limit.amount);
      }
    }
  }

  lemma MulMonotone(a: real, b: real, r: real)
    requires a <= b && r >= 0.0
    ensures a * r <= b * r
  {
  }

  /** More income never means less tax. */
  lemma {:induction false} TaxFromMonotone(x: int, y: int, bs: seq<PITBracket>, p: int)
    requires AscendingFrom(bs, p)
    requires x <= y
    ensures TaxFrom(x, bs, Finite(p)) <= TaxFrom(y, bs, Finite(p))
    decreases |bs|
  {
    if !Above(x, Finite(p)) {
      TaxFromNonNegative(y, bs, p);
    } else {
      FirstBandMonotone(x, y, bs, p);
      if |bs| > 1 {
        assert bs[0].limit == Finite(bs[0].limit.amount);
        TaxFromMonotone(x, y, bs[1..], bs[0].limit.amount);
      } else {
        assert bs[1..] == [];
      }
    }
  }

  /** Above the table's start, the first band's share grows with income, and
      the tax is that share plus the tax of the remaining bands. */
  lemma FirstBandMonotone(x: int, y: int, bs: seq<PITBracket>, p: int)
    requires AscendingFrom(bs, p) && p < x <= y
    ensures var ax, ay := (MinLimit(x, bs[0].limit) - p) as real * bs[0].rate,
                          (MinLimit(y, bs[0].limit) - p) as real * bs[0].rate;
            && ax <= ay
            && TaxFrom(x, bs, Finite(p)) == ax + TaxFrom(x, bs[1..], bs[0].limit)
            && TaxFrom(y, bs, Finite(p)) == ay + TaxFrom(y, bs[1..], bs[0].limit)
  {
    ShareMonotone(x, y, bs[0].limit, p, bs[0].rate);
    TaxFromHead(x, bs, p);
    TaxFromHead(y, bs, p);
  }

  /** Above the table's start, the tax is the first band's share plus the
      tax of the remaining bands. */
  lemma TaxFromHead(x: int, bs: seq<PITBracket>, p: int)
    requires bs != [] && p < x
    ensures TaxFrom(x, bs, Finite(p)) == (MinLimit(x, bs[0].limit) - p) as real * bs[0].rate + TaxFrom(x, bs[1..], bs[0].limit)
  {
    assert Finite(p).amount == p;
  }

  /** One band's share of the income grows with the income. */
  lemma ShareMonotone(x: int, y: int, l: Limit, p: int, r: real)
    requires x <= y && r >= 0.0
    ensures (MinLimit(x, l) - p) as real * r <= (MinLimit(y, l) - p) as real * r
  {
    var mx, my := MinLimit(x, l), MinLimit(y, l);
    assert mx <= my;
    MulMonotone((mx - p) as real, (my - p) as real, r);
  }

  /** The progressive tax is non-negative and non-decreasing in income. */
  lemma ProgressiveTaxMonotone(x: int, y: int, bs: seq<PITBracket>)
    requires ValidBrackets(bs)
    requires x <= y
    ensures 0.0 <= ProgressiveTax(x, bs) <= ProgressiveTax(y, bs)
  {
    TaxFromNonNegative(x, bs, 0);
    TaxFromNonNegative(y, bs, 0);
    TaxFromMonotone(x, y, bs, 0);
  }

  /** The lower edge of band `k` of a table whose first band starts at `p`. */
  function BandStart(bs: seq<PITBracket>, p: int, k: nat): (start: int)
    requires AscendingFrom(bs, p) && k < |bs|
    ensures start >= p
    ensures k > 0 ==> bs[k - 1].limit.Finite? && start == bs[k - 1].limit.amount
    ensures k + 1 < |bs| ==> bs[k].limit.Finite? && start < bs[k].limit.amount
    decreases k
  {
    if k == 0 then p else BandStart(bs[1..], bs[0].limit.amount, k - 1)
  }

  /** The tax on bands 0 .. k-1 taken whole: the tax due at the lower edge
      of band `k`. */
  function FullBands(bs: seq<PITBracket>, p: int, k: nat): real
    requires AscendingFrom(bs, p) && k < |bs|
    decreases k
  {
    if k == 0 then 0.0
    else (bs[0].limit.amount - p) as real * bs[0].rate + FullBands(bs[1..], bs[0].limit.amount, k - 1)
  }

  /** Inside band `k` (from its lower edge up to and including its limit)
      the tax is the whole lower bands plus band k's rate on the excess:
      the tax is piecewise linear, with slope the band's rate. */
  lemma TaxFromInBand(x: int, bs: seq<PITBracket>, p: int, k: nat)
    requires AscendingFrom(bs, p) && k < |bs|
    requires BandStart(bs, p, k) <= x
    requires bs[k].limit.Finite? ==> x <= bs[k].limit.amount
    ensures TaxFrom(x, bs, Finite(p))
            == FullBands(bs, p, k) + (x - BandStart(bs, p, k)) as real * bs[k].rate
  {
    TaxFromIsInBand(x, bs, p, k);
    InBandSplit(x, bs, p, k);
  }

  /** The tax of an income in band `k`, band by band: the bands below `k`
      whole, then band `k` up to the income. */
  function InBand(x: int, bs: seq<PITBracket>, p: int, k: nat): real
    requires AscendingFrom(bs, p) && k < |bs|
    decreases k
  {
    if k == 0 then (x - p) as real * bs[0].rate
    else (bs[0].limit.amount - p) as real * bs[0].rate + InBand(x, bs[1..], bs[0].limit.amount, k - 1)
  }

  /** For an income in band `k`, the tax is that band-by-band sum. */
  lemma {:induction false} TaxFromIsInBand(x: int, bs: seq<PITBracket>, p: int, k: nat)
    requires AscendingFrom(bs, p) && k < |bs|
    requires BandStart(bs, p, k) <= x
    requires bs[k].limit.Finite? ==> x <= bs[k].limit.amount
    ensures TaxFrom(x, bs, Finite(p)) == InBand(x, bs, p, k)
    decreases k
  {
    if k == 0 {
      TaxFromFirstBand(x, bs, p);
    } else {
      TaxFromIsInBand(x, bs[1..], bs[0].limit.amount, k - 1);
      TaxFromPastFirst(x, bs, p);
    }
  }

  /** The band-by-band sum is the whole lower bands plus the last band's
      share. */
  lemma {:induction false} InBandSplit(x: int, bs: seq<PITBracket>, p: int, k: nat)
    requires AscendingFrom(bs, p) && k < |bs|
    ensures InBand(x, bs, p, k) == FullBands(bs, p, k) + (x - BandStart(bs, p, k)) as real * bs[k].rate
    decreases k
  {
    if k > 0 {
      InBandSplit(x, bs[1..], bs[0].limit.amount, k - 1);
      assert bs[1..][k - 1] == bs[k];
    }
  }

  /** Inside the first band, only its rate applies. */
  lemma TaxFromFirstBand(x: int, bs: seq<PITBracket>, p: int)
    requires AscendingFrom(bs, p) && p <= x
    requires bs[0].limit.Finite? ==> x <= bs[0].limit.amount
    ensures TaxFrom(x, bs, Finite(p)) == (x - p) as real * bs[0].rate
  {
    if x > p {
      assert MinLimit(x, bs[0].limit) == x;
      if |bs| > 1 {
        assert !Above(x, bs[0].limit);
      } else {
        assert bs[1..] == [];
      }
    }
  }

  /** Past the first band's limit, that band is taxed whole. */
  lemma TaxFromPastFirst(x: int, bs: seq<PITBracket>, p: int)
    requires AscendingFrom(bs, p) && |bs| > 1
    requires bs[0].limit.Finite? && bs[0].limit.amount <= x
    ensures TaxFrom(x, bs, Finite(p))
            == (bs[0].limit.amount - p) as real * bs[0].rate + TaxFrom(x, bs[1..], Finite(bs[0].limit.amount))
  {
    assert MinLimit(x, bs[0].limit) == bs[0].limit.amount;
    assert bs[0].limit == Finite(bs[0].limit.amount);
  }

  /** Every limit but the last is finite and above the table's start. */
  lemma {:induction false} BandStartFinite(bs: seq<PITBracket>, p: int, k: nat)
    requires AscendingFrom(bs, p) && k + 1 < |bs|
    ensures bs[k].limit.Finite? && p < bs[k].limit.amount
    decreases k
  {
    if k > 0 {
      BandStartFinite(bs[1..], bs[0].limit.amount, k - 1);
      assert bs[1..][k - 1] == bs[k];
    }
  }

  /** Piecewise linearity over a whole table: for an income in band `k`,
      tax = tax at the band's lower edge + rate_k * (income - lower edge). */
  lemma {:induction false} ProgressiveTaxInBand(x: int, bs: seq<PITBracket>, k: nat)
    requires ValidBrackets(bs) && k < |bs|
    requires BandStart(bs, 0, k) <= x
    requires bs[k].limit.Finite? ==> x <= bs[k].limit.amount
    ensures ProgressiveTax(x, bs) == FullBands(bs, 0, k) + (x - BandStart(bs, 0, k)) as real * bs[k].rate
    ensures ProgressiveTax(BandStart(bs, 0, k), bs) == FullBands(bs, 0, k)
  {
    var start := BandStart(bs, 0, k);
    if k > 0 {
      BandStartFinite(bs, 0, k - 1);
    }
    ProgressiveTaxAt(x, bs, k);
    ProgressiveTaxAt(start, bs, k);
  }

  /** One income of band `k`, from 0 on. */
  lemma ProgressiveTaxAt(x: int, bs: seq<PITBracket>, k: nat)
    requires AscendingFrom(bs, 0) && k < |bs|
    requires 0 < k ==> 0 < BandStart(bs, 0, k)
    requires BandStart(bs, 0, k) <= x
    requires bs[k].limit.Finite? ==> x <= bs[k].limit.amount
    ensures ProgressiveTax(x, bs) == FullBands(bs, 0, k) + (x - BandStart(bs, 0, k)) as real * bs[k].rate
  {
    if x <= 0 {
      ZeroIncomeFirstBand(bs, k, x);
    } else {
      PositiveIncomeInBand(bs, k, x);
    }
  }

  /** A positive income is taxed band by band from 0. */
  lemma PositiveIncomeInBand(bs: seq<PITBracket>, k: nat, x: int)
    requires AscendingFrom(bs, 0) && k < |bs|
    requires BandStart(bs, 0, k) <= x && 0 < x
    requires bs[k].limit.Finite? ==> x <= bs[k].limit.amount
    ensures ProgressiveTax(x, bs) == FullBands(bs, 0, k) + (x - BandStart(bs, 0, k)) as real * bs[k].rate
  {
    IsInBandFromZero(bs, k, x);
    SplitFromZero(bs, k, x);
    ProgressiveTaxPositive(bs, x);
  }

  /** `TaxFromIsInBand` for a table starting at 0. */
  lemma IsInBandFromZero(bs: seq<PITBracket>, k: nat, x: int)
    requires AscendingFrom(bs, 0) && k < |bs|
    requires BandStart(bs, 0, k) <= x
    requires bs[k].limit.Finite? ==> x <= bs[k].limit.amount
    ensures TaxFrom(x, bs, Finite(0)) == InBand(x, bs, 0, k)
  {
    TaxFromIsInBand(x, bs, 0, k);
  }

  /** `InBandSplit` for a table starting at 0. */
  lemma SplitFromZero(bs: seq<PITBracket>, k: nat, x: int)
    requires AscendingFrom(bs, 0) && k < |bs|
    ensures InBand(x, bs, 0, k) == FullBands(bs, 0, k) + (x - BandStart(bs, 0, k)) as real * bs[k].rate
  {
    InBandSplit(x, bs, 0, k);
  }

  /** A positive income is taxed from 0. */
  lemma ProgressiveTaxPositive(bs: seq<PITBracket>, x: int)
    requires 0 < x
    ensures ProgressiveTax(x, bs) == TaxFrom(x, bs, Finite(0))
  {
  }

  /** The lowest band start is 0, where the whole tax is 0. */
  lemma ZeroIncomeFirstBand(bs: seq<PITBracket>, k: nat, x: int)
    requires AscendingFrom(bs, 0) && k < |bs|
    requires 0 < k ==> 0 < BandStart(bs, 0, k)
    requires BandStart(bs, 0, k) <= x <= 0
    ensures ProgressiveTax(x, bs) == FullBands(bs, 0, k) + (x - BandStart(bs, 0, k)) as real * bs[k].rate
  {
    assert k == 0 && x == 0;
  }

  /** An income exactly at a band's limit is taxed wholly in that band and
      the ones below it: the next band contributes nothing. */
  lemma {:induction false} TaxAtLimit(bs: seq<PITBracket>, p: int, k: nat)
    requires AscendingFrom(bs, p) && k + 1 < |bs| && bs[k].limit.Finite?
    ensures var l := bs[k].limit.amount;
            TaxFrom(l, bs, Finite(p)) == FullBands(bs, p, k + 1)
            && TaxFrom(l, bs[k + 1..], bs[k].limit) == 0.0
    decreases k
  {
    var l := bs[k].limit.amount;
    TaxFromInBand(l, bs, p, k);
    FullBandsStep(bs, p, k);
  }

  /** Adding band k whole to the bands below it. */
  lemma {:induction false} FullBandsStep(bs: seq<PITBracket>, p: int, k: nat)
    requires AscendingFrom(bs, p) && k + 1 < |bs| && bs[k].limit.Finite?
    ensures FullBands(bs, p, k + 1)
            == FullBands(bs, p, k) + (bs[k].limit.amount - BandStart(bs, p, k)) as real * bs[k].rate
    decreases k
  {
    if k > 0 {
      var rest := bs[1..];
      assert rest[k - 1] == bs[k];
      BandStartFinite(bs, p, 0);
      FullBandsStep(rest, bs[0].limit.amount, k - 1);
    }
  }

  /** The effective rate lies between the lowest and the highest marginal
      rate: lo * (x - p) <= tax <= hi * (x - p) when every rate is in
      [lo, hi]. */
  lemma {:induction false} TaxFromBetweenRates(x: int, bs: seq<PITBracket>, p: int, lo: real, hi: real)
    requires AscendingFrom(bs, p) && x >= p
    requires RatesWithin(bs, lo, hi)
    ensures lo * (x - p) as real <= TaxFrom(x, bs, Finite(p)) <= hi * (x - p) as real
    decreases |bs|, 1
  {
    if |bs| > 1 && x > bs[0].limit.amount {
      BetweenPastFirst(x, bs, p, lo, hi);
    } else {
      TaxFromFirstBand(x, bs, p);
      BandBetween(p, x, bs[0].rate, TaxFrom(x, bs, Finite(p)), lo, hi);
    }
  }

  /** Every rate of a table lies within [lo, hi]. */
  predicate RatesWithin(bs: seq<PITBracket>, lo: real, hi: real) {
    forall i :: 0 <= i < |bs| ==> lo <= bs[i].rate <= hi
  }

  /** An income past the first band: that band taxed whole, then the rest. */
  lemma {:induction false} BetweenPastFirst(x: int, bs: seq<PITBracket>, p: int, lo: real, hi: real)
    requires AscendingFrom(bs, p) && RatesWithin(bs, lo, hi)
    requires |bs| > 1 && bs[0].limit.Finite? && x > bs[0].limit.amount
    ensures lo * (x - p) as real <= TaxFrom(x, bs, Finite(p)) <= hi * (x - p) as real
    decreases |bs|, 0
  {
    var l := bs[0].limit.amount;
    RatesWithinTail(bs, lo, hi);
    TaxFromBetweenRates(x, bs[1..], l, lo, hi);
    TaxFromPastFirst(x, bs, p);
    SumBetween(p, l, x, bs[0].rate, TaxFrom(x, bs[1..], Finite(l)), TaxFrom(x, bs, Finite(p)), lo, hi);
  }

  lemma RatesWithinTail(bs: seq<PITBracket>, lo: real, hi: real)
    requires bs != [] && RatesWithin(bs, lo, hi)
    ensures RatesWithin(bs[1..], lo, hi) && lo <= bs[0].rate <= hi
  {
    forall i | 0 <= i < |bs| - 1 ensures lo <= bs[1..][i].rate <= hi {
      assert bs[1..][i] == bs[i + 1];
    }
  }

  /** A stretch [p, x] taxed at one rate within [lo, hi]. */
  lemma BandBetween(p: int, x: int, r: real, total: real, lo: real, hi: real)
    requires p <= x && lo <= r <= hi && total == (x - p) as real * r
    ensures lo * (x - p) as real <= total <= hi * (x - p) as real
  {
    MulBetween((x - p) as real, lo, r, hi);
  }

  /** Two adjacent stretches [p, l] and [l, x], each taxed at an effective
      rate within [lo, hi], are taxed together within [lo, hi]. */
  lemma SumBetween(p: int, l: int, x: int, r: real, t: real, total: real, lo: real, hi: real)
    requires p <= l <= x && lo <= r <= hi
    requires lo * (x - l) as real <= t <= hi * (x - l) as real
    requires total == (l - p) as real * r + t
    ensures lo * (x - p) as real <= total <= hi * (x - p) as real
  {
    var a, b := (l - p) as real, (x - l) as real;
    MulBetween(a, lo, r, hi);
    assert (x - p) as real == a + b;
    assert lo * (a + b) == lo * a + lo * b;
    assert hi * (a + b) == hi * a + hi * b;
  }

  lemma MulBetween(a: real, lo: real, r: real, hi: real)
    requires a >= 0.0 && lo <= r <= hi
    ensures lo * a <= a * r <= hi * a
  {
  }

  // ---------------------------------------------------------------------
  // The 2025 / 2026 comparison

  /** `Math.max(0, income - deduction)`. */
  function TaxableIncome(income: int, deduction: int): (t: int)
    ensures t >= 0 && t >= income - deduction
    ensures t == 0 || t == income - deduction
  {
    if income - deduction > 0 then income - deduction else 0
  }

  function TotalDeduction2025(dependents: int): int {
    PersonalDeduction2025 + dependents * DependentDeduction2025
  }

  function TotalDeduction2026(dependents: int): int {
    PersonalDeduction2026 + dependents * DependentDeduction2026
  }

  datatype PitComparison = PitComparison(
    taxableIncome2025: int, tax2025: real,
    taxableIncome2026: int, tax2026: real,
    savings: real)

  /** The calculator's two results for a monthly income and a number of
      dependents, and the saving of the 2026 proposal over the 2025 law. */
  function ComparePit(income: int, dependents: int): (c: PitComparison)
    ensures c.taxableIncome2025 >= 0 && c.taxableIncome2026 >= 0
    ensures c.savings == c.tax2025 - c.tax2026
  {
    var t25 := TaxableIncome(income, TotalDeduction2025(dependents));
    var t26 := TaxableIncome(income, TotalDeduction2026(dependents));
    var tax25 := ProgressiveTax(t25, PitBrackets2025);
    var tax26 := ProgressiveTax(t26, PitBrackets2026);
    PitComparison(t25, tax25, t26, tax26, tax25 - tax26)
  }

  /** The banner under the two results. */
  datatype SavingsMessage = Saved(amount: real) | PayMore(amount: real)

  /** "You save" for a non-negative saving, otherwise "you pay more" with
      the absolute difference. */
  function Message(c: PitComparison): (m: SavingsMessage)
    ensures m.amount >= 0.0
    ensures m.Saved? <==> c.savings >= 0.0
    ensures m.amount == if c.savings >= 0.0 then c.savings else -c.savings
  {
    if c.savings >= 0.0 then Saved(c.savings) else PayMore(-c.savings)
  }

  /** The default screen: 50,000,000 VND with one dependent. */
  lemma DefaultComparison()
    ensures ComparePit(50_000_000, 1) == PitComparison(34_600_000, 5_400_000.0, 28_300_000, 3_245_000.0, 2_155_000.0)
    ensures Message(ComparePit(50_000_000, 1)) == Saved(2_155_000.0)
  {
    var c := ComparePit(50_000_000, 1);
    assert c.taxableIncome2026 == 28_300_000;
    TaxFromInBand(28_300_000, PitBrackets2026, 0, 1);
    assert c.taxableIncome2025 == 34_600_000;
    TaxFromInBand(34_600_000, PitBrackets2025, 0, 4);
  }

  /** On the same taxable income, the 2026 table never charges more than the
      2025 table. */
  lemma Table2026NeverAbove2025(t: int)
    ensures ProgressiveTax(t, PitBrackets2026) <= ProgressiveTax(t, PitBrackets2025)
  {
    if t <= 0 {
    } else if t <= 18_000_000 {
      NeverAboveLow(t);
    } else if t <= 52_000_000 {
      NeverAboveMiddle(t);
    } else if t <= 80_000_000 {
      NeverAboveHigh(t);
    } else {
      NeverAboveTop(t);
    }
  }

  lemma NeverAboveLow(t: int)
    requires 0 < t <= 18_000_000
    ensures ProgressiveTax(t, PitBrackets2026) <= ProgressiveTax(t, PitBrackets2025)
  {
    BracketTablesValid();
    var a, b := PitBrackets2026, PitBrackets2025;
    if t <= 5_000_000 {
      TaxFromInBand(t, a, 0, 0); TaxFromInBand(t, b, 0, 0);
    } else if t <= 10_000_000 {
      TaxFromInBand(t, a, 0, 0); TaxFromInBand(t, b, 0, 1);
    } else {
      TaxFromInBand(t, a, 0, 1); TaxFromInBand(t, b, 0, 2);
    }
  }

  lemma NeverAboveMiddle(t: int)
    requires 18_000_000 < t <= 52_000_000
    ensures ProgressiveTax(t, PitBrackets2026) <= ProgressiveTax(t, PitBrackets2025)
  {
    BracketTablesValid();
    var a, b := PitBrackets2026, PitBrackets2025;
    if t <= 30_000_000 {
      TaxFromInBand(t, a, 0, 1); TaxFromInBand(t, b, 0, 3);
    } else if t <= 32_000_000 {
      TaxFromInBand(t, a, 0, 2); TaxFromInBand(t, b, 0, 3);
    } else {
      TaxFromInBand(t, a, 0, 2); TaxFromInBand(t, b, 0, 4);
    }
  }

  lemma NeverAboveHigh(t: int)
    requires 52_000_000 < t <= 80_000_000
    ensures ProgressiveTax(t, PitBrackets2026) <= ProgressiveTax(t, PitBrackets2025)
  {
    BracketTablesValid();
    UpperBands();
    var a, b := PitBrackets2026, PitBrackets2025;
    if t <= 60_000_000 {
      TaxFromInBand(t, a, 0, 2); TaxFromInBand(t, b, 0, 5);
    } else {
      TaxFromInBand(t, a, 0, 3); TaxFromInBand(t, b, 0, 5);
    }
  }

  /** The tax due at the lower edges of the upper bands of both tables. */
  lemma UpperBands()
    ensures ValidBrackets(PitBrackets2026) && ValidBrackets(PitBrackets2025)
    ensures BandStart(PitBrackets2026, 0, 2) == 30_000_000 && FullBands(PitBrackets2026, 0, 2) == 3_500_000.0
    ensures BandStart(PitBrackets2026, 0, 3) == 60_000_000 && FullBands(PitBrackets2026, 0, 3) == 11_000_000.0
    ensures BandStart(PitBrackets2025, 0, 5) == 52_000_000 && FullBands(PitBrackets2025, 0, 5) == 9_750_000.0
  {
    BracketTablesValid();
  }

  lemma NeverAboveTop(t: int)
    requires 80_000_000 < t
    ensures ProgressiveTax(t, PitBrackets2026) <= ProgressiveTax(t, PitBrackets2025)
  {
    BracketTablesValid();
    var a, b := PitBrackets2026, PitBrackets2025;
    if t <= 100_000_000 {
      TaxFromInBand(t, a, 0, 3); TaxFromInBand(t, b, 0, 6);
    } else {
      TaxFromInBand(t, a, 0, 4); TaxFromInBand(t, b, 0, 6);
    }
  }

  /** With a non-negative number of dependents the 2026 proposal never costs
      more than the 2025 law, so the "you pay more" banner cannot appear. */
  lemma SavingsNeverNegative(income: int, dependents: int)
    requires dependents >= 0
    ensures ComparePit(income, dependents).savings >= 0.0
    ensures Message(ComparePit(income, dependents)).Saved?
  {
    var c := ComparePit(income, dependents);
    assert TotalDeduction2026(dependents) >= TotalDeduction2025(dependents);
    assert c.taxableIncome2026 <= c.taxableIncome2025;
    BracketTablesValid();
    ProgressiveTaxMonotone(c.taxableIncome2026, c.taxableIncome2025, PitBrackets2026);
    Table2026NeverAbove2025(c.taxableIncome2025);
  }

  /** Both tables' rates run from 5% to 35%. */
  lemma TableRatesWithin()
    ensures RatesWithin(PitBrackets2026, 0.05, 0.35) && RatesWithin(PitBrackets2025, 0.05, 0.35)
  {
  }

  /** Every result lies between 5% and 35% of the taxable income. */
  lemma TaxBetweenFiveAndThirtyFivePercent(t: int)
    requires t >= 0
    ensures 0.05 * t as real <= ProgressiveTax(t, PitBrackets2026) <= 0.35 * t as real
    ensures 0.05 * t as real <= ProgressiveTax(t, PitBrackets2025) <= 0.35 * t as real
  {
    Table2026Between(t);
    Table2025Between(t);
  }

  lemma Table2026Between(t: int)
    requires t >= 0
    ensures 0.05 * t as real <= ProgressiveTax(t, PitBrackets2026) <= 0.35 * t as real
  {
    BracketTablesValid();
    TableRatesWithin();
    ProgressiveTaxBetween(t, PitBrackets2026, 0.05, 0.35);
  }

  lemma Table2025Between(t: int)
    requires t >= 0
    ensures 0.05 * t as real <= ProgressiveTax(t, PitBrackets2025) <= 0.35 * t as real
  {
    BracketTablesValid();
    TableRatesWithin();
    ProgressiveTaxBetween(t, PitBrackets2025, 0.05, 0.35);
  }

  /** The progressive tax over a table whose rates lie in [lo, hi]. */
  lemma ProgressiveTaxBetween(t: int, bs: seq<PITBracket>, lo: real, hi: real)
    requires t >= 0 && ValidBrackets(bs) && RatesWithin(bs, lo, hi) && lo >= 0.0
    ensures lo * t as real <= ProgressiveTax(t, bs) <= hi * t as real
  {
    if t > 0 {
      TaxFromBetweenRates(t, bs, 0, lo, hi);
    }
  }
}
