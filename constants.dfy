/** The static tables: personal-income-tax brackets and deductions for the
    2025 law and the 2026 proposal, the household-business thresholds, the
    per-category VAT and PIT rates (Circular 40/2021/TT-BTC) and the 01/CNKD
    indicator codes, the corporate-income-tax incentives, and the
    e-commerce withholding rates. */
module Constants {
  import opened Types

  // Personal income tax, 2026 proposal
  const PersonalDeduction2026: int := 15_500_000
  const DependentDeduction2026: int := 6_200_000
  const DependentIncomeLimit: int := 1_000_000

  const PitBrackets2026: seq<PITBracket> := [
    PITBracket(Finite(10_000_000), 0.05),
    PITBracket(Finite(30_000_000), 0.15),
    PITBracket(Finite(60_000_000), 0.25),
    PITBracket(Finite(100_000_000), 0.30),
    PITBracket(Unbounded, 0.35)
  ]

  // Personal income tax, 2025 law
  const PersonalDeduction2025: int := 11_000_000
  const DependentDeduction2025: int := 4_400_000

  const PitBrackets2025: seq<PITBracket> := [
    PITBracket(Finite(5_000_000), 0.05),
    PITBracket(Finite(10_000_000), 0.10),
    PITBracket(Finite(18_000_000), 0.15),
    PITBracket(Finite(32_000_000), 0.20),
    PITBracket(Finite(52_000_000), 0.25),
    PITBracket(Finite(80_000_000), 0.30),
    PITBracket(Unbounded, 0.35)
  ]

  // Household business thresholds (annual revenue, VND)
  const HkdGroup1Threshold: int := 200_000_000
  const HkdGroup2Threshold: int := 3_000_000_000
  const HkdEInvoiceThreshold: int := 1_000_000_000

  datatype VatPit = VatPit(vat: real, pit: real)

  /** The VAT and PIT rates on revenue of each household-business category. */
  function HkdTaxRates(c: BusinessCategory): VatPit {
    match c
    case Distribution => VatPit(0.01, 0.005)
    case ConsumerServices => VatPit(0.05, 0.02)
    case LodgingAndCatering => VatPit(0.05, 0.02)
    case ConstructionNoMaterials => VatPit(0.05, 0.02)
    case ConstructionWithMaterials => VatPit(0.03, 0.015)
    case AssetRental => VatPit(0.05, 0.05)
    case ProductionTransport => VatPit(0.03, 0.015)
    case Brokerage => VatPit(0.05, 0.02)
    case OtherBusiness => VatPit(0.02, 0.01)
  }

  /** The indicator code of each category on the 01/CNKD declaration. */
  function HkdIndicatorCode(c: BusinessCategory): string {
    match c
    case Distribution => "[28]"
    case ConsumerServices => "[29]"
    case LodgingAndCatering => "[29]"
    case ConstructionNoMaterials => "[29]"
    case ConstructionWithMaterials => "[30]"
    case AssetRental => "[29]"
    case ProductionTransport => "[30]"
    case Brokerage => "[29]"
    case OtherBusiness => "[31]"
  }

  // Corporate income tax
  const StandardCitRate: real := 0.20
  const VatNonCashThreshold: int := 5_000_000

  const CorporateTaxIncentives: seq<TaxIncentive> := [
    TaxIncentive(Software, 0.10, 4, 9),
    TaxIncentive(HighTech, 0.10, 4, 9),
    TaxIncentive(HighTechAgriculture, 0.10, 4, 9),
    TaxIncentive(SocialEnterprise, 0.10, 4, 9),
    TaxIncentive(Startup, -1.0, 2, 4),
    TaxIncentive(SmeTier1, 0.15, 3, 0),
    TaxIncentive(SmeTier2, 0.17, 3, 0)
  ]

  // E-commerce withholding
  datatype WithholdingRate = WithholdingRate(vat: real, pit: real, total: real)

  const EcommerceGoodsRate: WithholdingRate := WithholdingRate(0.01, 0.005, 0.015)
  const EcommerceServicesRate: WithholdingRate := WithholdingRate(0.05, 0.02, 0.07)

  /** A bracket table whose limits climb strictly above `prev`, whose last
      limit (and only that one) is unbounded, and whose rates are
      non-negative. */
  predicate AscendingFrom(bs: seq<PITBracket>, prev: int)
    decreases |bs|
  {
    && |bs| >= 1
    && bs[0].rate >= 0.0
    && if |bs| == 1 then bs[0].limit.Unbounded?
       else bs[0].limit.Finite? && prev < bs[0].limit.amount && AscendingFrom(bs[1..], bs[0].limit.amount)
  }

  predicate RatesNonDecreasing(bs: seq<PITBracket>) {
    forall i :: 0 <= i < |bs| - 1 ==> bs[i].rate <= bs[i + 1].rate
  }

  /** The shape every PIT bracket table has: strictly increasing limits from
      above 0, an unbounded last limit, non-negative and non-decreasing rates. */
  predicate ValidBrackets(bs: seq<PITBracket>) {
    AscendingFrom(bs, 0) && RatesNonDecreasing(bs)
  }

  /** Both bracket tables are well formed and top out at 35%. */
  lemma BracketTablesValid()
    ensures ValidBrackets(PitBrackets2026) && ValidBrackets(PitBrackets2025)
    ensures PitBrackets2026[|PitBrackets2026| - 1].rate == 0.35
    ensures PitBrackets2025[|PitBrackets2025| - 1].rate == 0.35
  {
    assert AscendingFrom(PitBrackets2026[4..], 100_000_000);
    assert AscendingFrom(PitBrackets2025[6..], 80_000_000);
  }

  /** The 2026 deductions are larger than the 2025 ones. */
  lemma DeductionsIncrease()
    ensures PersonalDeduction2026 > PersonalDeduction2025
    ensures DependentDeduction2026 > DependentDeduction2025
  {
  }

  /** Group 1 threshold < e-invoice threshold < Group 2 threshold. */
  lemma ThresholdsOrdered()
    ensures 0 < HkdGroup1Threshold < HkdEInvoiceThreshold < HkdGroup2Threshold
  {
  }

  /** Every category has non-negative rates whose sum lies between 1.5% and
      10%; asset rental is 5% VAT plus 5% PIT. */
  lemma HkdRatesBounded(c: BusinessCategory)
    ensures HkdTaxRates(c).vat >= 0.0 && HkdTaxRates(c).pit >= 0.0
    ensures 0.015 <= HkdTaxRates(c).vat + HkdTaxRates(c).pit <= 0.10
    ensures HkdTaxRates(AssetRental) == VatPit(0.05, 0.05)
  {
  }

  /** Every category carries exactly one of the codes [28] to [31]. */
  lemma IndicatorCodesInRange(c: BusinessCategory)
    ensures HkdIndicatorCode(c) in ["[28]", "[29]", "[30]", "[31]"]
  {
  }

  /** Each withholding rate's total is its VAT plus its PIT. */
  lemma WithholdingTotals()
    ensures EcommerceGoodsRate.total == EcommerceGoodsRate.vat + EcommerceGoodsRate.pit == 0.015
    ensures EcommerceServicesRate.total == EcommerceServicesRate.vat + EcommerceServicesRate.pit == 0.07
  {
  }

  /** No sector has two incentives, and every preferential rate is either the
      sentinel -1 or a positive rate below the standard 20%. */
  lemma IncentivesWellFormed()
    ensures forall i, j :: 0 <= i < j < |CorporateTaxIncentives| ==>
              CorporateTaxIncentives[i].sector != CorporateTaxIncentives[j].sector
    ensures forall i :: 0 <= i < |CorporateTaxIncentives| ==>
              var r := CorporateTaxIncentives[i].preferentialRate;
              r == -1.0 || 0.0 < r < StandardCitRate
  {
  }
}
