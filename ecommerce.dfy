/** The e-commerce reconciliation: a platform's sales report read as CSV
    (order id, revenue, status), the 1.5% withheld by the platform on every
    reported order compared with the 1.5% due on completed orders only, and
    the refund offered to sellers below the Group 1 threshold. */
module ECommerce {
  import opened Types
  import opened Text
  import opened NumberText
  import opened Constants

  datatype SaleStatus = Completed | Cancelled

  datatype SaleRecord = SaleRecord(id: string, revenue: int, status: SaleStatus)

  function StatusName(st: SaleStatus): string {
    match st
    case Completed => "Completed"
    case Cancelled => "Cancelled"
  }

  /** A status field, read after trimming; anything but the two names is
      rejected. */
  function ParseStatus(s: string): (st: Option<SaleStatus>)
    ensures st.Some? ==> Trim(s) == StatusName(st.value)
    ensures forall v: SaleStatus :: Trim(s) == StatusName(v) ==> st == Some(v)
  {
    var t := Trim(s);
    assert StatusName(Completed)[1] != StatusName(Cancelled)[1];
    if t == "Completed" then Some(Completed)
    else if t == "Cancelled" then Some(Cancelled)
    else None
  }

  /** A status name followed by any character `trim` strips, a Unicode
      space such as U+2003 included, is still recognised. */
  lemma StatusTrailingSpace(st: SaleStatus, c: char)
    requires IsWhitespace(c)
    ensures ParseStatus(StatusName(st) + [c]) == Some(st)
  {
    var name := StatusName(st);
    assert name[0] == 'C' && name[|name| - 1] == 'd';
    TrailingSpaceTrimmed(name, c);
  }

  /** A text without whitespace at its ends, followed by one whitespace
      character, trims back to that text. */
  lemma TrailingSpaceTrimmed(t: string, c: char)
    requires t != [] && !IsWhitespace(t[0]) && !IsWhitespace(t[|t| - 1]) && IsWhitespace(c)
    ensures Trim(t + [c]) == t
  {
    var s := t + [c];
    assert s[0] == t[0] && s[..|s| - 1] == t;
    assert TrimStart(s) == s;
    assert TrimEnd(t) == t;
  }

  /** One data line: split at commas, the first three fields used. The line
      is dropped when there are fewer than three fields, the id field is
      empty, the revenue is not a number or the status is not recognised;
      otherwise the id and status are stored trimmed. */
  function ParseLine(line: string): Option<SaleRecord> {
    var fields := Split(line, ',');
    if |fields| < 3 then None else ParseRecord(fields[0], fields[1], fields[2])
  }

  /** The record of the first three fields of a line, if they make one. */
  function ParseRecord(idField: string, revenueField: string, statusField: string): Option<SaleRecord> {
    var revenue, st := JsNumber(revenueField), ParseStatus(statusField);
    if idField == "" || revenue.None? || st.None? then None
    else Some(SaleRecord(Trim(idField), revenue.value, st.value))
  }

  /** A stored id has no surrounding whitespace. */
  lemma {:induction false} ParsedIdTrimmed(line: string)
    ensures ParseLine(line).Some? ==> Trim(ParseLine(line).value.id) == ParseLine(line).value.id
  {
    var fields := Split(line, ',');
    if ParseLine(line).Some? {
      TrimOfTrimmed(Trim(fields[0]));
    }
  }

  /** The lines that are not blank. */
  function NonBlank(lines: seq<string>): seq<string> {
    if lines == [] then []
    else if Trim(lines[0]) != "" then [lines[0]] + NonBlank(lines[1..])
    else NonBlank(lines[1..])
  }

  /** The data lines of a file: carriage returns removed, split into lines,
      the first line dropped as the header, blank lines skipped. */
  function DataLines(content: string): seq<string> {
    NonBlank(Split(RemoveAll(content, '\r'), '\n')[1..])
  }

  /** The records of the lines that parse, in order. */
  function ParseLines(lines: seq<string>): seq<SaleRecord> {
    if lines == [] then []
    else
      match ParseLine(lines[0])
      case Some(r) => [r] + ParseLines(lines[1..])
      case None => ParseLines(lines[1..])
  }

  function SaleRecords(content: string): seq<SaleRecord> {
    ParseLines(DataLines(content))
  }

  lemma {:induction false} ParseLinesConcat(a: seq<string>, b: seq<string>)
    ensures ParseLines(a + b) == ParseLines(a) + ParseLines(b)
  {
    if a == [] {
      assert a + b == b;
    } else {
      assert (a + b)[1..] == a[1..] + b;
      ParseLinesConcat(a[1..], b);
    }
  }

  /** `parseCSV`: the data lines of the file, each read in turn. */
  method ParseCsv(content: string) returns (records: seq<SaleRecord>)
    ensures records == SaleRecords(content)
  {
    records := ReadLines(DataLines(content));
  }

  /** The loop of `parseCSV`: each line's record pushed when it parses. */
  method ReadLines(lines: seq<string>) returns (records: seq<SaleRecord>)
    ensures records == ParseLines(lines)
  {
    records := [];
    var i := 0;
    while i < |lines|
      invariant 0 <= i <= |lines|
      invariant records + ParseLines(lines[i..]) == ParseLines(lines)
    {
      ParseLinesStep(lines, i);
      var r := ParseLine(lines[i]);
      if r.Some? {
        assert (records + [r.value]) + ParseLines(lines[i + 1..]) == records + ([r.value] + ParseLines(lines[i + 1..]));
        records := records + [r.value];
      }
      i := i + 1;
    }
    assert lines[i..] == [];
  }

  /** The records from index `i` on: the record of line `i`, if it has one,
      then those of the lines after it. */
  lemma {:induction false} ParseLinesStep(lines: seq<string>, i: nat)
    requires i < |lines|
    ensures ParseLine(lines[i]).Some? ==> ParseLines(lines[i..]) == [ParseLine(lines[i]).value] + ParseLines(lines[i + 1..])
    ensures ParseLine(lines[i]).None? ==> ParseLines(lines[i..]) == ParseLines(lines[i + 1..])
  {
    assert lines[i..][0] == lines[i];
    assert lines[i..][1..] == lines[i + 1..];
  }

  /** The header line is never read as data: whatever the first line says,
      the records come from the lines after it. */
  lemma {:induction false} HeaderIgnored(header: string, body: string)
    requires '\n' !in header
    ensures SaleRecords(header + "\n" + body) == ParseLines(NonBlank(Split(RemoveAll(body, '\r'), '\n')))
  {
    var h := RemoveAll(header, '\r');
    RemoveAllConcat(header + "\n", body, '\r');
    RemoveAllConcat(header, "\n", '\r');
    RemoveAllAbsent("\n", '\r');
    assert RemoveAll(header + "\n" + body, '\r') == h + ['\n'] + RemoveAll(body, '\r');
    SplitAtFirstSeparator(h, RemoveAll(body, '\r'), '\n');
  }

  // Writing records back as lines

  /** A record as the platform writes it: a non-empty id without commas,
      line breaks or surrounding spaces, and a whole non-negative revenue. */
  predicate WellFormed(r: SaleRecord) {
    && r.id != ""
    && ',' !in r.id && '\n' !in r.id && '\r' !in r.id
    && !IsWhitespace(r.id[0]) && !IsWhitespace(r.id[|r.id| - 1])
    && r.revenue >= 0
  }

  function SaleLine(r: SaleRecord): string {
    r.id + "," + IntToString(r.revenue) + "," + StatusName(r.status)
  }

  function SaleLines(rs: seq<SaleRecord>): (lines: seq<string>)
    ensures |lines| == |rs|
  {
    if rs == [] then [] else [SaleLine(rs[0])] + SaleLines(rs[1..])
  }

  /** A character that is not a digit does not occur in a digit string. */
  lemma {:induction false} DigitsAvoid(s: string, c: char)
    requires IsDigits(s) && !IsDigit(c)
    ensures c !in s
  {
  }

  /** A written line splits at its commas into the id, the digits of the
      revenue and the status name. */
  lemma {:induction false} SaleLineFields(r: SaleRecord)
    requires WellFormed(r)
    ensures Split(SaleLine(r), ',') == [r.id, NatToString(r.revenue), StatusName(r.status)]
  {
    var num, name := NatToString(r.revenue), StatusName(r.status);
    DigitsAvoid(num, ',');
    assert SaleLine(r) == Join([r.id, num, name], ",") by {
      assert [r.id, num, name][1..] == [num, name];
      assert [num, name][1..] == [name];
      assert Join([name], ",") == name;
      assert Join([num, name], ",") == num + "," + name;
      assert Join([r.id, num, name], ",") == r.id + "," + (num + "," + name);
    }
    SplitJoin([r.id, num, name], ',');
  }

  /** A written line reads back as the record it was written from. */
  lemma {:induction false} ParseSaleLine(r: SaleRecord)
    requires WellFormed(r)
    ensures ParseLine(SaleLine(r)) == Some(r)
  {
    var num := NatToString(r.revenue);
    SaleLineFields(r);
    ParseThreeFields(SaleLine(r), r.id, num, StatusName(r.status));
    TrimOfTrimmed(r.id);
    ParseRecordOf(r.id, num, r.status);
  }

  /** A line of exactly three fields reads as the record of those fields. */
  lemma {:induction false} ParseThreeFields(line: string, idField: string, revenueField: string, statusField: string)
    requires Split(line, ',') == [idField, revenueField, statusField]
    ensures ParseLine(line) == ParseRecord(idField, revenueField, statusField)
  {
  }

  /** A trimmed id, the digits of a revenue and a status name make that
      record. */
  lemma {:induction false} ParseRecordOf(id: string, num: string, st: SaleStatus)
    requires id != [] && Trim(id) == id
    requires IsDigits(num)
    ensures ParseRecord(id, num, StatusName(st)) == Some(SaleRecord(id, DigitsValue(num), st))
  {
    JsNumberOfDigits(num);
    ParseStatusName(st);
    ParsedFieldsRecord(id, num, StatusName(st), DigitsValue(num), st);
  }

  /** Fields that each read make the record of what they read. */
  lemma {:induction false} ParsedFieldsRecord(id: string, revenueField: string, statusField: string, revenue: int, st: SaleStatus)
    requires id != [] && Trim(id) == id
    requires JsNumber(revenueField) == Some(revenue)
    requires ParseStatus(statusField) == Some(st)
    ensures ParseRecord(id, revenueField, statusField) == Some(SaleRecord(id, revenue, st))
  {
  }

  /** A status name reads back as its status. */
  lemma ParseStatusName(st: SaleStatus)
    ensures ParseStatus(StatusName(st)) == Some(st)
  {
    match st
    case Completed =>
      TrimOfTrimmed("Completed");
    case Cancelled =>
      TrimOfTrimmed("Cancelled");
      assert "Cancelled" != "Completed" by {
        assert "Cancelled"[1] != "Completed"[1];
      }
  }

  /** A written line is not blank. */
  lemma {:induction false} SaleLineNonBlank(r: SaleRecord)
    requires WellFormed(r)
    ensures Trim(SaleLine(r)) != ""
  {
    var line := SaleLine(r);
    assert line == r.id + ("," + IntToString(r.revenue) + "," + StatusName(r.status));
    assert line[0] == r.id[0];
    TrimEmptyIffBlank(line);
  }

  /** A written line is a single line. */
  lemma {:induction false} SaleLineClean(r: SaleRecord)
    requires WellFormed(r)
    ensures Clean(SaleLine(r))
  {
    var num := NatToString(r.revenue);
    DigitsAvoid(num, '\n');
    DigitsAvoid(num, '\r');
    assert SaleLine(r) == r.id + "," + num + "," + StatusName(r.status);
  }

  /** A line break or carriage return absent from every piece and from the
      separator is absent from the joined text. */
  lemma {:induction false} JoinAvoids(parts: seq<string>, sep: char, c: char)
    requires c != sep
    requires forall k :: 0 <= k < |parts| ==> c !in parts[k]
    ensures c !in Join(parts, [sep])
  {
    if |parts| > 1 {
      JoinAvoids(parts[1..], sep, c);
      assert c !in parts[0];
    }
  }

  /** Reading written lines gives the records back. */
  lemma {:induction false} ParseSaleLines(rs: seq<SaleRecord>)
    requires forall k :: 0 <= k < |rs| ==> WellFormed(rs[k])
    ensures ParseLines(SaleLines(rs)) == rs
  {
    if rs != [] {
      ParseSaleLine(rs[0]);
      ParseSaleLines(rs[1..]);
      var lines := SaleLines(rs);
      assert lines[1..] == SaleLines(rs[1..]);
    }
  }

  /** No written line is blank. */
  lemma {:induction false} SaleLinesNonBlank(rs: seq<SaleRecord>)
    requires forall k :: 0 <= k < |rs| ==> WellFormed(rs[k])
    ensures NonBlank(SaleLines(rs)) == SaleLines(rs)
  {
    if rs != [] {
      SaleLineNonBlank(rs[0]);
      SaleLinesNonBlank(rs[1..]);
      var lines := SaleLines(rs);
      assert lines[1..] == SaleLines(rs[1..]);
    }
  }

  /** The header line of a report. */
  const Header: string := "OrderID,Revenue,Status"

  /** The header is a single line. */
  lemma HeaderClean()
    ensures Clean(Header)
  {
  }

  /** A report written as the header, one line per record and, when
      `finalNewline` holds, a line break at the end. */
  function WriteReport(rs: seq<SaleRecord>, finalNewline: bool): string {
    Join([Header] + SaleLines(rs) + (if finalNewline then [""] else []), "\n")
  }

  /** Reading a written report gives back exactly the records written, in
      order. */
  lemma {:induction false} ReadWrittenReport(rs: seq<SaleRecord>, finalNewline: bool)
    requires forall k :: 0 <= k < |rs| ==> WellFormed(rs[k])
    ensures SaleRecords(WriteReport(rs, finalNewline)) == rs
  {
    var tail: seq<string> := if finalNewline then [""] else [];
    assert DataLines(WriteReport(rs, finalNewline)) == SaleLines(rs) by {
      HeaderClean();
      ReportDataLines(Header, rs, tail);
    }
    ParseSaleLines(rs);
  }

  /** The data lines of a written report are its record lines, whatever
      single-line header it starts with. */
  lemma {:induction false} ReportDataLines(header: string, rs: seq<SaleRecord>, tail: seq<string>)
    requires Clean(header)
    requires forall k :: 0 <= k < |rs| ==> WellFormed(rs[k])
    requires tail == [] || tail == [""]
    ensures DataLines(Join([header] + SaleLines(rs) + tail, "\n")) == SaleLines(rs)
  {
    var body := SaleLines(rs);
    var lines := [header] + body + tail;
    SaleLinesClean(rs);
    SaleLinesNonBlank(rs);
    ReportLinesClean(header, body, tail, lines);
    DataLinesBetween(lines, body, tail);
  }

  /** The lines of a report are clean when its header and body lines are. */
  lemma {:induction false} ReportLinesClean(header: string, body: seq<string>, tail: seq<string>, lines: seq<string>)
    requires Clean(header)
    requires forall k :: 0 <= k < |body| ==> Clean(body[k])
    requires tail == [] || tail == [""]
    requires lines == [header] + body + tail
    ensures forall k :: 0 <= k < |lines| ==> Clean(lines[k])
    ensures |lines| >= 1 && lines[1..] == body + tail
  {
    CleanConcat([header], body);
    assert forall k :: 0 <= k < |tail| ==> Clean(tail[k]);
    CleanConcat([header] + body, tail);
  }

  /** Clean lines whose first is followed by non-blank lines and at most
      one empty line: the data lines are the non-blank ones. */
  lemma {:induction false} DataLinesBetween(lines: seq<string>, body: seq<string>, tail: seq<string>)
    requires |lines| >= 1 && lines[1..] == body + tail
    requires forall k :: 0 <= k < |lines| ==> Clean(lines[k])
    requires NonBlank(body) == body
    requires tail == [] || tail == [""]
    ensures DataLines(Join(lines, "\n")) == body
  {
    DataLinesOfClean(lines);
    NonBlankConcat(body, tail);
    assert NonBlank(tail) == [] by {
      if tail == [""] {
        assert Trim("") == "";
      }
    }
    assert body + [] == body;
  }

  /** Clean lines joined with line breaks have as data lines the non-blank
      lines after the first. */
  lemma {:induction false} DataLinesOfClean(lines: seq<string>)
    requires |lines| >= 1
    requires forall k :: 0 <= k < |lines| ==> Clean(lines[k])
    ensures DataLines(Join(lines, "\n")) == NonBlank(lines[1..])
  {
    SplitCleanJoin(lines);
  }

  /** Lines without line breaks or carriage returns, joined with line
      breaks, split back into themselves. */
  lemma {:induction false} SplitCleanJoin(lines: seq<string>)
    requires |lines| >= 1
    requires forall k :: 0 <= k < |lines| ==> Clean(lines[k])
    ensures Split(RemoveAll(Join(lines, "\n"), '\r'), '\n') == lines
  {
    var content := Join(lines, "\n");
    JoinAvoids(lines, '\n', '\r');
    RemoveAllAbsent(content, '\r');
    SplitJoin(lines, '\n');
  }

  /** A line without line breaks or carriage returns. */
  predicate Clean(line: string) {
    '\n' !in line && '\r' !in line
  }

  /** No written record line holds a line break or carriage return. */
  lemma {:induction false} SaleLinesClean(rs: seq<SaleRecord>)
    requires forall k :: 0 <= k < |rs| ==> WellFormed(rs[k])
    ensures forall k :: 0 <= k < |rs| ==> Clean(SaleLines(rs)[k])
  {
    if rs != [] {
      SaleLineClean(rs[0]);
      SaleLinesClean(rs[1..]);
      assert SaleLines(rs) == [SaleLine(rs[0])] + SaleLines(rs[1..]);
    }
  }

  lemma {:induction false} CleanConcat(a: seq<string>, b: seq<string>)
    requires forall k :: 0 <= k < |a| ==> Clean(a[k])
    requires forall k :: 0 <= k < |b| ==> Clean(b[k])
    ensures forall k :: 0 <= k < |a + b| ==> Clean((a + b)[k])
  {
  }

  lemma {:induction false} SaleLineAt(rs: seq<SaleRecord>, k: nat)
    requires k < |rs|
    ensures SaleLines(rs)[k] == SaleLine(rs[k])
  {
    if k > 0 {
      SaleLineAt(rs[1..], k - 1);
    }
  }

  lemma {:induction false} NonBlankConcat(a: seq<string>, b: seq<string>)
    ensures NonBlank(a + b) == NonBlank(a) + NonBlank(b)
  {
    if a == [] {
      assert a + b == b;
    } else {
      assert (a + b)[1..] == a[1..] + b;
      NonBlankConcat(a[1..], b);
    }
  }

  // Reconciliation

  function CompletedRevenue(rs: seq<SaleRecord>): int {
    if rs == [] then 0 else (if rs[0].status == Completed then rs[0].revenue else 0) + CompletedRevenue(rs[1..])
  }

  function CancelledRevenue(rs: seq<SaleRecord>): int {
    if rs == [] then 0 else (if rs[0].status == Cancelled then rs[0].revenue else 0) + CancelledRevenue(rs[1..])
  }

  /** What the platform reports: every accepted order. */
  function ReportedRevenue(rs: seq<SaleRecord>): int {
    if rs == [] then 0 else rs[0].revenue + ReportedRevenue(rs[1..])
  }

  lemma {:induction false} ReportedSplits(rs: seq<SaleRecord>)
    ensures ReportedRevenue(rs) == CompletedRevenue(rs) + CancelledRevenue(rs)
  {
    if rs != [] {
      ReportedSplits(rs[1..]);
    }
  }

  datatype ReconStatus = Match | Mismatch

  datatype Reconciliation = Reconciliation(status: ReconStatus, platformTax: real, calculatedTax: real, discrepancy: real)

  /** The tax due on completed orders against the tax withheld on all
      orders, both at the goods rate; they match when they differ by less
      than 1 VND. */
  function Reconcile(rs: seq<SaleRecord>): Reconciliation {
    var rate := EcommerceGoodsRate.total;
    var calculatedTax := CompletedRevenue(rs) as real * rate;
    var platformTax := ReportedRevenue(rs) as real * rate;
    var discrepancy := platformTax - calculatedTax;
    Reconciliation(if discrepancy < 1.0 then Match else Mismatch, platformTax, calculatedTax, discrepancy)
  }

  /** The difference is the tax withheld on cancelled orders; the two match
      exactly when the cancelled orders total at most 66 VND. */
  lemma {:induction false} DiscrepancyIsCancelledTax(rs: seq<SaleRecord>)
    ensures Reconcile(rs).discrepancy == CancelledRevenue(rs) as real * 0.015
    ensures Reconcile(rs).status == Match <==> CancelledRevenue(rs) <= 66
    ensures Reconcile(rs).calculatedTax == CompletedRevenue(rs) as real * 0.015
  {
    ReportedSplits(rs);
    var c, x := CompletedRevenue(rs) as real, CancelledRevenue(rs) as real;
    assert (c + x) * 0.015 - c * 0.015 == x * 0.015;
  }

  predicate NonNegativeRevenues(rs: seq<SaleRecord>) {
    forall k :: 0 <= k < |rs| ==> rs[k].revenue >= 0
  }

  function CompletedOnly(rs: seq<SaleRecord>): bool {
    forall k :: 0 <= k < |rs| ==> rs[k].status == Completed
  }

  lemma {:induction false} CancelledRevenueBounds(rs: seq<SaleRecord>)
    ensures NonNegativeRevenues(rs) ==> CancelledRevenue(rs) >= 0
    ensures CompletedOnly(rs) ==> CancelledRevenue(rs) == 0
  {
    if rs != [] {
      CancelledRevenueBounds(rs[1..]);
      assert forall k :: 0 <= k < |rs| - 1 ==> rs[1..][k] == rs[k + 1];
    }
  }

  /** With non-negative revenues the platform never withholds less than is
      due, and without cancelled orders the two agree. */
  lemma {:induction false} DiscrepancySign(rs: seq<SaleRecord>)
    ensures NonNegativeRevenues(rs) ==> Reconcile(rs).discrepancy >= 0.0
    ensures CompletedOnly(rs) ==> Reconcile(rs).discrepancy == 0.0 && Reconcile(rs).status == Match
  {
    DiscrepancyIsCancelledTax(rs);
    CancelledRevenueBounds(rs);
  }

  /** What the page ends with after a file is read. */
  datatype Outcome = ReadError | NoValidData | Reconciled(result: Reconciliation, totalRevenue: int)

  /** `handleReconciliation` on the text read from the file. */
  function HandleReconciliation(text: string): (o: Outcome)
    ensures o.ReadError? <==> text == ""
    ensures o.NoValidData? <==> text != "" && SaleRecords(text) == []
    ensures o.Reconciled? ==> o.result == Reconcile(SaleRecords(text)) &&
                              o.totalRevenue == CompletedRevenue(SaleRecords(text))
  {
    if text == "" then ReadError
    else
      var saleData := SaleRecords(text);
      if saleData == [] then NoValidData
      else Reconciled(Reconcile(saleData), CompletedRevenue(saleData))
  }

  /** The refund section shows for a reconciled file whose completed revenue
      is positive and at most the Group 1 threshold. */
  predicate RefundOffered(o: Outcome) {
    o.Reconciled? && 0 < o.totalRevenue <= HkdGroup1Threshold
  }

  // The sample report

  /** The sample report offered for download, line by line. */
  const SampleCsv: string :=
    Header + "\n" + "A,10000000,Completed" + "\n" + "B,12000000,Completed" + "\n"
    + "C,1500000,Cancelled" + "\n" + "D,5000000,Completed" + "\n"

  const SampleRecords: seq<SaleRecord> := [
    SaleRecord("A", 10000000, Completed),
    SaleRecord("B", 12000000, Completed),
    SaleRecord("C", 1500000, Cancelled),
    SaleRecord("D", 5000000, Completed)
  ]

  /** The sample report reads as its four orders; 405,000 VND is due on the
      27 million completed, 427,500 VND was withheld on all 28.5 million,
      so the 22,500 VND on the cancelled order is a mismatch, and the seller
      is offered the refund. */
  lemma SampleReconciliation()
    ensures SaleRecords(SampleCsv) == SampleRecords
    ensures HandleReconciliation(SampleCsv) ==
              Reconciled(Reconciliation(Mismatch, 427_500.0, 405_000.0, 22_500.0), 27_000_000)
    ensures RefundOffered(HandleReconciliation(SampleCsv))
  {
    assert SaleRecords(SampleCsv) == SampleRecords by {
      SampleReads();
    }
    SampleTotals();
    DiscrepancyIsCancelledTax(SampleRecords);
  }

  /** The sample text is the written form of the sample records. */
  lemma SampleReads()
    ensures SaleRecords(SampleCsv) == SampleRecords
  {
    SampleReadsAt(SampleCsv, SampleRecords);
  }

  lemma {:induction false} SampleReadsAt(csv: string, rs: seq<SaleRecord>)
    requires csv == SampleCsv && rs == SampleRecords
    ensures SaleRecords(csv) == rs
  {
    SampleWritten(csv, rs);
    SampleWellFormed(rs);
    ReadWrittenReport(rs, true);
  }

  lemma {:induction false} SampleWritten(csv: string, rs: seq<SaleRecord>)
    requires csv == SampleCsv && rs == SampleRecords
    ensures csv == WriteReport(rs, true)
  {
    var a, b, c, d := "A,10000000,Completed", "B,12000000,Completed", "C,1500000,Cancelled", "D,5000000,Completed";
    SampleLinesOf(rs, [a, b, c, d]);
    WrittenFour(Header, a, b, c, d, SaleLines(rs));
  }

  /** A header and four lines, written with a final line break. */
  lemma {:induction false} WrittenFour(h: string, a: string, b: string, c: string, d: string, body: seq<string>)
    requires body == [a, b, c, d]
    ensures Join([h] + body + [""], "\n") == h + "\n" + a + "\n" + b + "\n" + c + "\n" + d + "\n"
  {
    JoinFiveLines(h, a, b, c, d);
    assert [h] + body + [""] == [h, a, b, c, d, ""];
  }

  lemma {:induction false} SampleLinesOf(rs: seq<SaleRecord>, lines: seq<string>)
    requires rs == SampleRecords
    requires lines == ["A,10000000,Completed", "B,12000000,Completed", "C,1500000,Cancelled", "D,5000000,Completed"]
    ensures SaleLines(rs) == lines
  {
    SampleLineA();
    SampleLineB();
    SampleLineC();
    SampleLineD();
    LinesOfFour(rs, lines[0], lines[1], lines[2], lines[3]);
  }

  lemma {:induction false} SampleWellFormed(rs: seq<SaleRecord>)
    requires rs == SampleRecords
    ensures forall k :: 0 <= k < |rs| ==> WellFormed(rs[k])
  {
    forall k | 0 <= k < |rs| ensures WellFormed(rs[k]) {
      SingleLetterId(rs[k]);
    }
  }

  /** A record whose id is one upper-case letter and whose revenue is not
      negative is well formed. */
  lemma {:induction false} SingleLetterId(r: SaleRecord)
    requires |r.id| == 1 && 'A' <= r.id[0] <= 'Z' && r.revenue >= 0
    ensures WellFormed(r)
  {
  }

  /** Five lines, each ended by a line break, are the five lines and an
      empty one joined by line breaks. */
  lemma {:induction false} JoinFiveLines(a: string, b: string, c: string, d: string, e: string)
    ensures a + "\n" + b + "\n" + c + "\n" + d + "\n" + e + "\n" == Join([a, b, c, d, e, ""], "\n")
  {
    var l := [a, b, c, d, e, ""];
    assert l[1..] == [b, c, d, e, ""] && l[2..] == [c, d, e, ""] && l[3..] == [d, e, ""];
    assert l[4..] == [e, ""] && l[5..] == [""];
    assert Join(l[5..], "\n") == "";
    assert Join(l[4..], "\n") == e + "\n" + "";
    assert Join(l[3..], "\n") == d + "\n" + (e + "\n" + "");
    assert Join(l[2..], "\n") == c + "\n" + (d + "\n" + (e + "\n" + ""));
    assert Join(l[1..], "\n") == b + "\n" + (c + "\n" + (d + "\n" + (e + "\n" + "")));
  }

  /** Four records written line by line. */
  lemma {:induction false} LinesOfFour(rs: seq<SaleRecord>, a: string, b: string, c: string, d: string)
    requires |rs| == 4
    requires SaleLine(rs[0]) == a && SaleLine(rs[1]) == b && SaleLine(rs[2]) == c && SaleLine(rs[3]) == d
    ensures SaleLines(rs) == [a, b, c, d]
  {
    SaleLineAt(rs, 0);
    SaleLineAt(rs, 1);
    SaleLineAt(rs, 2);
    SaleLineAt(rs, 3);
  }

  // The four sample lines, each the written form of its record.

  lemma SampleLineA()
    ensures SaleLine(SaleRecord("A", 10000000, Completed)) == "A,10000000,Completed"
  {
    Text10000000();
    SaleLineText(SaleRecord("A", 10000000, Completed), "10000000");
  }

  lemma SampleLineB()
    ensures SaleLine(SaleRecord("B", 12000000, Completed)) == "B,12000000,Completed"
  {
    Text12000000();
    SaleLineText(SaleRecord("B", 12000000, Completed), "12000000");
  }

  lemma SampleLineC()
    ensures SaleLine(SaleRecord("C", 1500000, Cancelled)) == "C,1500000,Cancelled"
  {
    Text1500000();
    SaleLineText(SaleRecord("C", 1500000, Cancelled), "1500000");
  }

  lemma SampleLineD()
    ensures SaleLine(SaleRecord("D", 5000000, Completed)) == "D,5000000,Completed"
  {
    Text5000000();
    SaleLineText(SaleRecord("D", 5000000, Completed), "5000000");
  }

  lemma {:induction false} SaleLineText(r: SaleRecord, num: string)
    requires r.revenue >= 0 && NatToString(r.revenue) == num
    ensures SaleLine(r) == r.id + "," + num + "," + StatusName(r.status)
  {
  }

  /** The sample's completed, cancelled and reported revenues. */
  lemma SampleTotals()
    ensures CompletedRevenue(SampleRecords) == 27_000_000
    ensures CancelledRevenue(SampleRecords) == 1_500_000
    ensures ReportedRevenue(SampleRecords) == 28_500_000
  {
    var rs := SampleRecords;
    assert rs[1..][1..][1..][1..] == [];
  }

  /** One more digit on a number's known text. */
  lemma {:induction false} AppendDigitText(n: nat, d: nat, s: string, c: char)
    requires n >= 1 && d < 10 && NatToString(n) == s && DigitChar(d) == c
    ensures NatToString(10 * n + d) == s + [c]
  {
    NatToStringAppend(n, d);
  }

  // The texts of the sample revenues, digit by digit.

  lemma Text10000000()
    ensures NatToString(10000000) == "10000000"
  {
    assert NatToString(1) == "1";
    AppendDigitText(1, 0, "1", '0');
    AppendDigitText(10, 0, "10", '0');
    AppendDigitText(100, 0, "100", '0');
    AppendDigitText(1000, 0, "1000", '0');
    AppendDigitText(10000, 0, "10000", '0');
    AppendDigitText(100000, 0, "100000", '0');
    AppendDigitText(1000000, 0, "1000000", '0');
  }

  lemma Text12000000()
    ensures NatToString(12000000) == "12000000"
  {
    assert NatToString(1) == "1";
    AppendDigitText(1, 2, "1", '2');
    AppendDigitText(12, 0, "12", '0');
    AppendDigitText(120, 0, "120", '0');
    AppendDigitText(1200, 0, "1200", '0');
    AppendDigitText(12000, 0, "12000", '0');
    AppendDigitText(120000, 0, "120000", '0');
    AppendDigitText(1200000, 0, "1200000", '0');
  }

  lemma Text1500000()
    ensures NatToString(1500000) == "1500000"
  {
    assert NatToString(1) == "1";
    AppendDigitText(1, 5, "1", '5');
    AppendDigitText(15, 0, "15", '0');
    AppendDigitText(150, 0, "150", '0');
    AppendDigitText(1500, 0, "1500", '0');
    AppendDigitText(15000, 0, "15000", '0');
    AppendDigitText(150000, 0, "150000", '0');
  }

  lemma Text5000000()
    ensures NatToString(5000000) == "5000000"
  {
    assert NatToString(5) == "5";
    AppendDigitText(5, 0, "5", '0');
    AppendDigitText(50, 0, "50", '0');
    AppendDigitText(500, 0, "500", '0');
    AppendDigitText(5000, 0, "5000", '0');
    AppendDigitText(50000, 0, "50000", '0');
    AppendDigitText(500000, 0, "500000", '0');
  }

}
