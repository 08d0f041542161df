/** The Group 1 revenue tracker: the year's sales entered one by one, their
    total against the 200 million exemption threshold, the warning shown from
    90% of it on, and the CSV export of the entries. */
module HkdGroup1 {
  import opened Types
  import opened Text
  import opened NumberText
  import opened Constants
  import HkdWizard

  /** One recorded sale; the id and the date text come from the clock. */
  datatype Group1Transaction = Group1Transaction(id: nat, date: string, description: string, amount: int)

  /** The sum of the recorded amounts. */
  function TotalRevenue(ts: seq<Group1Transaction>): int {
    if ts == [] then 0 else ts[0].amount + TotalRevenue(ts[1..])
  }

  /** Recording a sale adds its amount to the total. */
  lemma {:induction false} TotalRevenuePrepend(t: Group1Transaction, ts: seq<Group1Transaction>)
    ensures TotalRevenue([t] + ts) == t.amount + TotalRevenue(ts)
  {
    assert ([t] + ts)[1..] == ts;
  }

  /** With non-negative amounts the total is at least every single amount. */
  lemma {:induction false} TotalRevenueBounds(ts: seq<Group1Transaction>)
    requires forall i :: 0 <= i < |ts| ==> ts[i].amount >= 0
    ensures TotalRevenue(ts) >= 0
    ensures forall i :: 0 <= i < |ts| ==> ts[i].amount <= TotalRevenue(ts)
  {
    if ts != [] {
      TotalRevenueBounds(ts[1..]);
      forall i | 1 <= i < |ts| ensures ts[i].amount <= TotalRevenue(ts) {
        assert ts[i] == ts[1..][i - 1];
      }
    }
  }

  /** The warning starts at this percentage of the threshold. */
  const WarningThresholdPercentage: real := 90.0

  /** The share of the threshold reached, in percent. */
  function ProgressPercentage(total: int): real {
    (total as real / HkdGroup1Threshold as real) * 100.0
  }

  /** The three states of the banner. */
  datatype ThresholdStatus = Over | Approaching | Normal

  /** Over at or above the threshold; approaching from 90% of it on; normal
      below that. */
  function Status(total: int): (st: ThresholdStatus)
    ensures st == Over <==> total >= HkdGroup1Threshold
    ensures st == Approaching <==> 180_000_000 <= total < HkdGroup1Threshold
    ensures st == Normal <==> total < 180_000_000
  {
    if total >= HkdGroup1Threshold then Over
    else if ProgressPercentage(total) >= WarningThresholdPercentage then Approaching
    else Normal
  }

  /** The amount still below the threshold (negative once over it). */
  function Remaining(total: int): int {
    HkdGroup1Threshold - total
  }

  /** The banner's content: the remaining amount shown raw while
      approaching, clamped at 0 otherwise. */
  datatype Banner = OverBanner | ApproachingBanner(remaining: int) | NormalBanner(remaining: int)

  function ShowBanner(total: int): (b: Banner)
    ensures b.OverBanner? <==> Status(total) == Over
    ensures b.ApproachingBanner? <==> Status(total) == Approaching
    ensures b.NormalBanner? <==> Status(total) == Normal
  {
    match Status(total)
    case Over => OverBanner
    case Approaching => ApproachingBanner(Remaining(total))
    case Normal => NormalBanner(if Remaining(total) > 0 then Remaining(total) else 0)
  }

  /** While approaching, the remaining amount shown is positive and at most
      20 million; in the normal state it exceeds 20 million and is exactly
      the distance to the threshold, so the clamp at 0 never applies. */
  lemma {:induction false} BannerRemaining(total: int)
    ensures ShowBanner(total).ApproachingBanner? ==>
              0 < ShowBanner(total).remaining <= 20_000_000 &&
              total + ShowBanner(total).remaining == HkdGroup1Threshold
    ensures ShowBanner(total).NormalBanner? ==>
              ShowBanner(total).remaining > 20_000_000 &&
              total + ShowBanner(total).remaining == HkdGroup1Threshold
  {
  }

  /** The width of the progress bar, in percent: the progress capped at 100. */
  function BarWidth(total: int): real {
    if ProgressPercentage(total) < 100.0 then ProgressPercentage(total) else 100.0
  }

  /** For a non-negative total the bar is between empty and full, and full
      exactly when the threshold is reached. */
  lemma {:induction false} BarWidthBounds(total: int)
    requires total >= 0
    ensures 0.0 <= BarWidth(total) <= 100.0
    ensures BarWidth(total) == 100.0 <==> Status(total) == Over
  {
  }

  /** A total of exactly 200 million is still Group 1 for the wizard, while
      the tracker already reports it as over the threshold; this is the only
      total where the two disagree. */
  lemma {:induction false} WizardAndTrackerAtThreshold(total: int)
    ensures (HkdWizard.Classify(total) == Group1 && Status(total) == Over) <==> total == HkdGroup1Threshold
    ensures (HkdWizard.Classify(total) != Group1 && Status(total) != Over) <==> false
  {
  }

  /** The description recorded when none was typed. */
  const DefaultDescription: string := "Doanh thu bán hàng"

  function DescriptionOrDefault(description: string): (d: string)
    ensures d != ""
    ensures description != "" ==> d == description
  {
    if description == "" then DefaultDescription else description
  }

  /** The tracker's state: the recorded sales, newest first, and the two
      fields of the entry form. */
  class Group1Tracker {
    var transactions: seq<Group1Transaction>
    var amount: string
    var description: string
    /** The value the amount field renders. */
    ghost var amountValue: nat

    /** The amount field is empty or the rendering of a whole number, and
        every recorded amount is non-negative. */
    ghost predicate Valid()
      reads this
    {
      && (amount == "" || amount == FormatGrouped(amountValue))
      && forall i :: 0 <= i < |transactions| ==> transactions[i].amount >= 0
    }

    constructor()
      ensures transactions == [] && amount == "" && description == ""
      ensures Valid()
    {
      transactions := [];
      amount := "";
      description := "";
      amountValue := 0;
    }

    /** `handleAmountChange`: the field keeps the typed digits, rendered. */
    method AmountChange(raw: string)
      requires Valid()
      modifies this
      ensures amount == NormaliseAmountInput(raw)
      ensures amount != "" ==> amountValue == DigitsValue(KeepDigits(raw))
      ensures transactions == old(transactions) && description == old(description)
      ensures Valid()
    {
      amount := NormaliseAmountInput(raw);
      amountValue := DigitsValue(KeepDigits(raw));
    }

    method DescriptionChange(text: string)
      requires Valid()
      modifies this
      ensures description == text
      ensures transactions == old(transactions) && amount == old(amount)
      ensures Valid()
    {
      description := text;
    }

    /** `handleAddTransaction`: nothing happens with an empty amount;
        otherwise the sale is recorded first in the list, with the parsed
        amount and the typed or default description, and the form is
        cleared. The id and date are the clock's readings. */
    method AddTransaction(id: nat, date: string)
      requires Valid()
      modifies this
      ensures old(amount) == "" ==>
                transactions == old(transactions) && amount == old(amount) &&
                description == old(description)
      ensures old(amount) != "" ==>
                transactions == [Group1Transaction(id, date, DescriptionOrDefault(old(description)), old(amountValue))]
                                + old(transactions) &&
                amount == "" && description == ""
      ensures TotalRevenue(transactions) ==
                TotalRevenue(old(transactions)) + (if old(amount) == "" then 0 else old(amountValue))
      ensures Valid()
    {
      if amount == "" {
        return;
      }
      ParseFormatRoundTrip(amountValue);
      var parsed := ParseGrouped(amount);
      var t := Group1Transaction(id, date, DescriptionOrDefault(description), parsed.value);
      TotalRevenuePrepend(t, transactions);
      transactions := [t] + transactions;
      amount := "";
      description := "";
    }
  }

  // CSV export

  /** The header line, without its line break. */
  const CsvHeaderLine: string := "\"ID\",\"Ngày\",\"Ghi chú\",\"Số tiền (VND)\""

  /** The byte-order mark put before the text so spreadsheets read UTF-8. */
  const Bom: char := '\U{FEFF}'

  /** Every double quote doubled, as CSV requires inside a quoted field. */
  function EscapeQuotes(s: string): (r: string)
    ensures forall c :: c in r ==> c in s
    ensures |r| == |s| + Count(s, '"')
  {
    if s == [] then []
    else
      var rest := EscapeQuotes(s[1..]);
      assert forall c :: c in rest ==> c in s by {
        forall c | c in rest ensures c in s {
          var i :| 0 <= i < |s[1..]| && s[1..][i] == c;
          assert s[i + 1] == c;
        }
      }
      if s[0] == '"' then ['"', '"'] + rest else [s[0]] + rest
  }

  /** Reading a quoted field back: each doubled quote becomes one. */
  function UnescapeQuotes(s: string): string {
    if |s| >= 2 && s[0] == '"' && s[1] == '"' then ['"'] + UnescapeQuotes(s[2..])
    else if s == [] then []
    else [s[0]] + UnescapeQuotes(s[1..])
  }

  /** Escaping loses nothing: unescaping gives the description back. */
  lemma {:induction false} UnescapeEscape(s: string)
    ensures UnescapeQuotes(EscapeQuotes(s)) == s
  {
    if s != [] {
      UnescapeEscape(s[1..]);
      var e := EscapeQuotes(s);
      var rest := EscapeQuotes(s[1..]);
      if s[0] == '"' {
        assert e[2..] == rest;
      } else {
        assert e[0] == s[0] && e[1..] == rest;
      }
      assert [s[0]] + s[1..] == s;
    }
  }

  /** One line of the export: id, quoted date, quoted escaped description,
      amount. */
  function CsvRow(t: Group1Transaction): string {
    NatToString(t.id) + "," + "\"" + t.date + "\"" + "," + "\"" + EscapeQuotes(t.description) + "\"" + ","
    + IntToString(t.amount)
  }

  function CsvRows(ts: seq<Group1Transaction>): (rows: seq<string>)
    ensures |rows| == |ts|
  {
    if ts == [] then [] else [CsvRow(ts[0])] + CsvRows(ts[1..])
  }

  /** `handleExportCSV`: nothing without transactions; otherwise the mark,
      the header line and one line per transaction, newest first. */
  function ExportCsv(ts: seq<Group1Transaction>): (csv: Option<string>)
    ensures csv.None? <==> ts == []
  {
    if ts == [] then None
    else Some([Bom] + CsvHeaderLine + "\n" + Join(CsvRows(ts), "\n"))
  }

  /** Neither dates nor descriptions hold a line break. */
  predicate SingleLine(t: Group1Transaction) {
    '\n' !in t.date && '\n' !in t.description
  }

  /** A line of the export holds no line break of its own. */
  lemma {:induction false} CsvRowSingleLine(t: Group1Transaction)
    requires SingleLine(t)
    ensures '\n' !in CsvRow(t)
  {
    var id, amount := NatToString(t.id), IntToString(t.amount);
    assert '\n' !in EscapeQuotes(t.description);
  }

  lemma {:induction false} CsvRowsSingleLine(ts: seq<Group1Transaction>)
    requires forall i :: 0 <= i < |ts| ==> SingleLine(ts[i])
    ensures forall i :: 0 <= i < |ts| ==> '\n' !in CsvRows(ts)[i]
  {
    if ts != [] {
      CsvRowsSingleLine(ts[1..]);
      CsvRowSingleLine(ts[0]);
      forall i | 1 <= i < |ts| ensures '\n' !in CsvRows(ts)[i] {
        assert CsvRows(ts)[i] == CsvRows(ts[1..])[i - 1];
        assert ts[1..][i - 1] == ts[i];
      }
    }
  }

  /** The exported text, split at its line breaks, is the header line (after
      the mark) followed by exactly one line per transaction, in order. */
  lemma {:induction false} ExportLines(ts: seq<Group1Transaction>)
    requires ts != []
    requires forall i :: 0 <= i < |ts| ==> SingleLine(ts[i])
    ensures Split(ExportCsv(ts).value, '\n') == [[Bom] + CsvHeaderLine] + CsvRows(ts)
  {
    CsvRowsSingleLine(ts);
    HeaderSingleLine();
    LinesAfterHeader([Bom] + CsvHeaderLine, CsvRows(ts));
  }

  /** The header line holds no line break. */
  lemma HeaderSingleLine()
    ensures '\n' !in [Bom] + CsvHeaderLine
  {
  }

  /** A header and rows without line breaks, joined by line breaks, split
      back into the header and the rows. */
  lemma {:induction false} LinesAfterHeader(header: string, rows: seq<string>)
    requires rows != [] && '\n' !in header
    requires forall i :: 0 <= i < |rows| ==> '\n' !in rows[i]
    ensures Split(header + "\n" + Join(rows, "\n"), '\n') == [header] + rows
  {
    var lines := [header] + rows;
    assert lines[0] == header && lines[1..] == rows;
    assert Join(lines, "\n") == header + "\n" + Join(rows, "\n");
    forall i | 0 <= i < |lines| ensures '\n' !in lines[i] {
      if i > 0 {
        assert lines[i] == rows[i - 1];
      }
    }
    SplitJoin(lines, '\n');
  }
}
