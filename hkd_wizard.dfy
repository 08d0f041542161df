/** The household-business wizard: the expected annual revenue typed with
    '.' grouping, the choice of a detailed business line, and the revenue-tier
    classification into Group 1, 2 or 3 on submission. */
module HkdWizard {
  import opened Types
  import opened Text
  import opened NumberText
  import opened Constants

  /** `formatVND`: "" for the empty string or a value that is not a number,
      otherwise the number with '.' between groups of three digits. */
  function FormatVnd(value: string): (shown: string)
    ensures value == "" || JsNumber(value).None? ==> shown == ""
  {
    if value == "" then ""
    else
      match JsNumber(value)
      case None => ""
      case Some(n) => FormatSigned(n)
  }

  /** A number with '.' grouping, behind a minus sign when negative. */
  function FormatSigned(n: int): string {
    if n >= 0 then FormatGrouped(n) else ['-'] + FormatGrouped(-n)
  }

  /** A formatted value reads back, through `parseVND`, as the number it
      was formatted from. */
  lemma {:induction false} FormatVndRoundTrip(value: string)
    requires value != "" && JsNumber(value).Some?
    ensures ParseGrouped(FormatVnd(value)) == JsNumber(value)
  {
    SignedRoundTrip(JsNumber(value).value);
  }

  /** Every number, negative ones included, reads back from its
      formatted text. */
  lemma {:induction false} SignedRoundTrip(n: int)
    ensures ParseGrouped(FormatSigned(n)) == Some(n)
  {
    if n >= 0 {
      SignedRoundTripNonNegative(n);
    } else {
      SignedRoundTripNegative(n);
    }
  }

  lemma {:induction false} SignedRoundTripNonNegative(n: int)
    requires n >= 0
    ensures ParseGrouped(FormatSigned(n)) == Some(n)
  {
    ParseFormatRoundTrip(n);
  }

  lemma {:induction false} SignedRoundTripNegative(n: int)
    requires n < 0
    ensures ParseGrouped(FormatSigned(n)) == Some(n)
  {
    var f := FormatGrouped(-n);
    UngroupedDigits(-n);
    NegatedGrouped(f, n);
  }

  /** A minus sign before grouped digits worth `-n` reads back as `n`. */
  lemma {:induction false} NegatedGrouped(f: string, n: int)
    requires IsDigits(RemoveAll(f, '.')) && DigitsValue(RemoveAll(f, '.')) == -n && n < 0
    ensures ParseGrouped(['-'] + f) == Some(n)
  {
    var d := RemoveAll(f, '.');
    assert d != [];
    MinusGroupedReads(f, d, n);
  }

  /** With a minus sign in front, grouped text is read as `Number` reads
      it without its dots. */
  lemma {:induction false} MinusGroupedReads(f: string, d: string, n: int)
    requires d == RemoveAll(f, '.') && IsDigits(d) && d != [] && DigitsValue(d) == -n
    ensures ParseGrouped(['-'] + f) == Some(n)
  {
    MinusRemoveAll(f);
    MinusNotDigits(d);
    ParseGroupedOfText(['-'] + f, ['-'] + d);
    JsNumberNegative(d, n);
  }

  lemma {:induction false} MinusRemoveAll(f: string)
    ensures RemoveAll(['-'] + f, '.') == ['-'] + RemoveAll(f, '.')
  {
    RemoveAllConcat(['-'], f, '.');
    assert RemoveAll(['-'], '.') == ['-'];
  }

  lemma {:induction false} MinusNotDigits(d: string)
    ensures !IsDigits(['-'] + d)
  {
    assert (['-'] + d)[0] == '-';
  }

  /** Text whose dots removed are not all digits reads as `Number` reads
      what is left. */
  lemma {:induction false} ParseGroupedOfText(s: string, t: string)
    requires RemoveAll(s, '.') == t && !IsDigits(t)
    ensures ParseGrouped(s) == JsNumber(t)
  {
  }

  /** A minus sign before a non-empty digit string negates its value. */
  lemma {:induction false} JsNumberNegative(d: string, n: int)
    requires IsDigits(d) && d != [] && DigitsValue(d) == -n
    ensures JsNumber(['-'] + d) == Some(n)
  {
    var s := ['-'] + d;
    ReadSignedNegative(d, n);
    assert Trim(s) == s by {
      assert IsDigit(d[|d| - 1]) && s[|s| - 1] == d[|d| - 1];
      TrimOfTrimmed(s);
    }
  }

  lemma {:induction false} ReadSignedNegative(d: string, n: int)
    requires IsDigits(d) && d != [] && DigitsValue(d) == -n
    ensures ReadSigned(['-'] + d) == Some(n)
  {
    assert (['-'] + d)[1..] == d;
  }

  /** `handleInputChange`: non-digits are dropped; no digit leaves the field
      empty, otherwise the digits are shown formatted. */
  function HandleInputChange(raw: string): (shown: string)
  {
    var rawValue := KeepDigits(raw);
    if rawValue == "" then "" else FormatVnd(rawValue)
  }

  /** The wizard's revenue field behaves exactly as every other amount field
      of the application. */
  lemma {:induction false} InputChangeIsAmountNormalisation(raw: string)
    ensures HandleInputChange(raw) == NormaliseAmountInput(raw)
  {
    var digits := KeepDigits(raw);
    if digits != "" {
      JsNumberOfDigits(digits);
    }
  }

  /** The revenue tier: up to 200 million is Group 1, up to 3 billion is
      Group 2, above that Group 3. */
  function Classify(revenue: int): (g: HKDGroup)
    ensures g != Undetermined
    ensures g == Group1 <==> revenue <= HkdGroup1Threshold
    ensures g == Group2 <==> HkdGroup1Threshold < revenue <= HkdGroup2Threshold
    ensures g == Group3 <==> HkdGroup2Threshold < revenue
  {
    if revenue <= HkdGroup1Threshold then Group1
    else if revenue <= HkdGroup2Threshold then Group2
    else Group3
  }

  /** The order of the tiers. */
  function Tier(g: HKDGroup): nat {
    match g
    case Undetermined => 0
    case Group1 => 1
    case Group2 => 2
    case Group3 => 3
  }

  /** More revenue never lands in a lower tier. */
  lemma {:induction false} ClassifyMonotone(a: int, b: int)
    requires a <= b
    ensures Tier(Classify(a)) <= Tier(Classify(b))
  {
  }

  /** Each threshold belongs to the lower tier. */
  lemma ClassifyBoundaries()
    ensures Classify(200_000_000) == Group1 && Classify(200_000_001) == Group2
    ensures Classify(3_000_000_000) == Group2 && Classify(3_000_000_001) == Group3
  {
  }

  /** One entry of the detailed business-line list: the category stored as
      the primary one, and the coarse sector handed to the module. */
  datatype DetailedChoice = DetailedChoice(category: BusinessCategory, mappedSector: BusinessSector)

  /** The business lines offered, in the order they are listed. */
  const DetailedChoices: seq<DetailedChoice> := [
    DetailedChoice(Distribution, RetailRestaurant),
    DetailedChoice(LodgingAndCatering, RetailRestaurant),
    DetailedChoice(ConsumerServices, RetailRestaurant),
    DetailedChoice(AssetRental, Services),
    DetailedChoice(ConstructionNoMaterials, Services),
    DetailedChoice(ProductionTransport, Manufacturing),
    DetailedChoice(ConstructionWithMaterials, Manufacturing),
    DetailedChoice(OtherBusiness, OtherSector)
  ]

  /** Where the line of an offered category sits in the list. */
  function ChoiceIndex(c: BusinessCategory): (i: nat)
    requires c != Brokerage
    ensures i < |DetailedChoices| && DetailedChoices[i].category == c
  {
    match c
    case Distribution => 0
    case LodgingAndCatering => 1
    case ConsumerServices => 2
    case AssetRental => 3
    case ConstructionNoMaterials => 4
    case ProductionTransport => 5
    case ConstructionWithMaterials => 6
    case OtherBusiness => 7
  }

  /** Eight lines, one per category except brokerage, which is not offered;
      a line maps to the retail/restaurant sector exactly when it is
      distribution, lodging and catering, or consumer services. */
  lemma {:induction false} ChoiceTable(c: BusinessCategory)
    ensures |DetailedChoices| == 8
    ensures forall i, j :: 0 <= i < j < |DetailedChoices| ==>
              DetailedChoices[i].category != DetailedChoices[j].category
    ensures (exists ch :: ch in DetailedChoices && ch.category == c) <==> c != Brokerage
    ensures forall ch :: ch in DetailedChoices ==>
              (ch.mappedSector == RetailRestaurant <==>
               ch.category in [Distribution, LodgingAndCatering, ConsumerServices])
  {
    ChoicesDistinct();
    ChoiceSectors();
    if c != Brokerage {
      assert DetailedChoices[ChoiceIndex(c)] in DetailedChoices;
    }
  }

  lemma ChoicesDistinct()
    ensures |DetailedChoices| == 8
    ensures forall i, j :: 0 <= i < j < |DetailedChoices| ==>
              DetailedChoices[i].category != DetailedChoices[j].category
    ensures forall ch :: ch in DetailedChoices ==> ch.category != Brokerage
  {
  }

  lemma ChoiceSectors()
    ensures forall ch :: ch in DetailedChoices ==>
              (ch.mappedSector == RetailRestaurant <==>
               ch.category in [Distribution, LodgingAndCatering, ConsumerServices])
  {
  }

  /** What a successful submission hands on: the tier and sector for the
      module, and the category stored as the primary business line. */
  datatype WizardSelection = WizardSelection(group: HKDGroup, sector: BusinessSector, category: BusinessCategory)

  /** `handleSubmit`: rejected (nothing chosen, nothing stored) when the
      revenue is not a number or not positive, or no line was chosen. */
  function Submit(revenueStr: string, choice: Option<DetailedChoice>): (r: Option<WizardSelection>)
    ensures r.None? <==> ParseGrouped(revenueStr).None? || ParseGrouped(revenueStr).value <= 0 || choice.None?
    ensures r.Some? ==> r.value.group != Undetermined
  {
    match ParseGrouped(revenueStr)
    case None => None
    case Some(numRevenue) =>
      if numRevenue <= 0 || choice.None? then None
      else Some(WizardSelection(Classify(numRevenue), choice.value.mappedSector, choice.value.category))
  }

  /** Submitting after typing: accepted exactly when a line was chosen and
      the digits typed have a positive value, and the tier is that of the
      value typed. */
  lemma {:induction false} SubmitTypedRevenue(raw: string, choice: Option<DetailedChoice>)
    ensures var r := Submit(HandleInputChange(raw), choice);
            && (r.Some? <==> choice.Some? && DigitsValue(KeepDigits(raw)) > 0)
            && (r.Some? ==> r.value == WizardSelection(Classify(DigitsValue(KeepDigits(raw))),
                                                       choice.value.mappedSector, choice.value.category))
  {
    InputChangeIsAmountNormalisation(raw);
    NormalisedInputParses(raw);
    var digits := KeepDigits(raw);
    if digits == [] {
      assert ParseGrouped("") == Some(0) by {
        assert RemoveAll("", '.') == "";
      }
    }
  }
}
