/** The declaration aggregator and validator: per-sector revenue totals
    over the S1 revenue book, the presumptive VAT and PIT they attract,
    and the advisory warnings raised on the resulting summary. */
module Declaration {
  import opened Common
  import opened Ledger

  /** A presumptive-tax sector: business activity code with its flat VAT and PIT rates. */
  datatype Sector = Sector(id: string, name: string, vatRate: real, pitRate: real)

  /** The four sectors, in the order of the S1 revenue columns 010 to 040. */
  const Sectors: seq<Sector> := [
    Sector("010", "Phân phối, cung cấp hàng hóa", 0.01, 0.005),
    Sector("020", "Dịch vụ, xây dựng không bao thầu", 0.05, 0.02),
    Sector("030", "Sản xuất, vận tải, có bao thầu", 0.03, 0.015),
    Sector("040", "Cho thuê tài sản, đại lý, xổ số...", 0.05, 0.05)
  ]

  /** A revenue column of the S1 book. */
  datatype Category = C010 | C020 | C030 | C040

  /** The amount an S1 row records in column `c`; an absent field counts as 0. */
  function Revenue(e: S1Entry, c: Category): real
  {
    match c
    case C010 => OrZero(e.rev010)
    case C020 => OrZero(e.rev020)
    case C030 => OrZero(e.rev030)
    case C040 => OrZero(e.rev040)
  }

  /** Column `c` summed over the book, as a left fold from 0 in row order. */
  function CategoryTotal(data: seq<S1Entry>, c: Category): (t: real)
    ensures (forall i :: 0 <= i < |data| ==> Revenue(data[i], c) == 0.0) ==> t == 0.0
  {
    if data == [] then 0.0
    else CategoryTotal(data[..|data| - 1], c) + Revenue(data[|data| - 1], c)
  }

  /** What the declaration shows: the four column totals, their sum, and the taxes. */
  datatype Summary = Summary(
    rev010: real, rev020: real, rev030: real, rev040: real,
    totalRev: real, vat: real, pit: real, totalTax: real)

  /** Recomputed from the S1 book on every read; the rates are the sector table's. */
  function DeclareSummary(data: seq<S1Entry>): (r: Summary)
    ensures r.totalRev == r.rev010 + r.rev020 + r.rev030 + r.rev040
    ensures r.totalTax == r.vat + r.pit
    ensures r.rev010 == CategoryTotal(data, C010) && r.rev020 == CategoryTotal(data, C020)
    ensures r.rev030 == CategoryTotal(data, C030) && r.rev040 == CategoryTotal(data, C040)
  {
    var t010 := CategoryTotal(data, C010);
    var t020 := CategoryTotal(data, C020);
    var t030 := CategoryTotal(data, C030);
    var t040 := CategoryTotal(data, C040);
    var vat := t010 * 0.01 + t020 * 0.05 + t030 * 0.03 + t040 * 0.05;
    var pit := t010 * 0.005 + t020 * 0.02 + t030 * 0.015 + t040 * 0.05;
    Summary(t010, t020, t030, t040, t010 + t020 + t030 + t040, vat, pit, vat + pit)
  }

  /** Field-wise sum of two summaries. */
  function Combine(a: Summary, b: Summary): Summary
  {
    Summary(a.rev010 + b.rev010, a.rev020 + b.rev020, a.rev030 + b.rev030, a.rev040 + b.rev040,
            a.totalRev + b.totalRev, a.vat + b.vat, a.pit + b.pit, a.totalTax + b.totalTax)
  }

  /** Sum of the stored `total` column of the book. */
  function StoredTotal(data: seq<S1Entry>): real
  {
    if data == [] then 0.0 else StoredTotal(data[..|data| - 1]) + data[|data| - 1].total
  }

  predicate NonNegativeRow(e: S1Entry)
  {
    Revenue(e, C010) >= 0.0 && Revenue(e, C020) >= 0.0 && Revenue(e, C030) >= 0.0 && Revenue(e, C040) >= 0.0
  }

  // Properties of the aggregator ---------------------------------------------

  /** The hard-coded rates are those of the sector table, column by column,
      the total is the sum of the four columns and the tax is VAT plus PIT. */
  lemma SummaryUsesSectorRates(data: seq<S1Entry>)
    ensures var s := DeclareSummary(data);
      && s.rev010 == CategoryTotal(data, C010) && s.rev020 == CategoryTotal(data, C020)
      && s.rev030 == CategoryTotal(data, C030) && s.rev040 == CategoryTotal(data, C040)
      && s.totalRev == s.rev010 + s.rev020 + s.rev030 + s.rev040
      && s.vat == s.rev010 * Sectors[0].vatRate + s.rev020 * Sectors[1].vatRate
                + s.rev030 * Sectors[2].vatRate + s.rev040 * Sectors[3].vatRate
      && s.pit == s.rev010 * Sectors[0].pitRate + s.rev020 * Sectors[1].pitRate
                + s.rev030 * Sectors[2].pitRate + s.rev040 * Sectors[3].pitRate
      && s.totalTax == s.vat + s.pit
  {
  }

  /** An empty revenue book declares nothing. */
  lemma SummaryOfEmpty()
    ensures DeclareSummary([]) == Summary(0.0, 0.0, 0.0, 0.0, 0.0, 0.0, 0.0, 0.0)
  {
  }

  /** Column totals are additive over splitting the book. */
  lemma {:induction false} CategoryTotalAppend(a: seq<S1Entry>, b: seq<S1Entry>, c: Category)
    ensures CategoryTotal(a + b, c) == CategoryTotal(a, c) + CategoryTotal(b, c)
  {
    if b == [] {
      assert a + b == a;
    } else {
      var b' := b[..|b| - 1];
      assert (a + b)[..|a + b| - 1] == a + b';
      assert (a + b)[|a + b| - 1] == b[|b| - 1];
      CategoryTotalAppend(a, b', c);
    }
  }

  /** The summary of a book is the combination of the summaries of its parts. */
  lemma SummaryAppend(a: seq<S1Entry>, b: seq<S1Entry>)
    ensures DeclareSummary(a + b) == Combine(DeclareSummary(a), DeclareSummary(b))
  {
    CategoryTotalAppend(a, b, C010);
    CategoryTotalAppend(a, b, C020);
    CategoryTotalAppend(a, b, C030);
    CategoryTotalAppend(a, b, C040);
    var s, x, y := DeclareSummary(a + b), DeclareSummary(a), DeclareSummary(b);
    assert s.rev010 == x.rev010 + y.rev010 && s.rev020 == x.rev020 + y.rev020;
    assert s.rev030 == x.rev030 + y.rev030 && s.rev040 == x.rev040 + y.rev040;
  }

  /** A row whose four revenue fields are all absent changes no total. */
  lemma MissingFieldsCountZero(data: seq<S1Entry>, e: S1Entry)
    requires e.rev010.None? && e.rev020.None? && e.rev030.None? && e.rev040.None?
    ensures DeclareSummary(data + [e]) == DeclareSummary(data)
  {
    assert (data + [e])[..|data|] == data;
  }

  /** The row appended by "add entry" on S1 raises column 010 and the revenue by
      1,000,000, the VAT by 10,000, the PIT by 5,000 and the tax by 15,000. */
  lemma SummaryAfterNewS1Entry(data: seq<S1Entry>, id: int, today: string)
    ensures var before, after := DeclareSummary(data), DeclareSummary(data + [NewS1Entry(id, today)]);
      && after.rev010 == before.rev010 + 1000000.0
      && after.rev020 == before.rev020 && after.rev030 == before.rev030 && after.rev040 == before.rev040
      && after.totalRev == before.totalRev + 1000000.0
      && after.vat == before.vat + 10000.0
      && after.pit == before.pit + 5000.0
      && after.totalTax == before.totalTax + 15000.0
  {
    assert (data + [NewS1Entry(id, today)])[..|data|] == data;
  }

  /** Summing the columns is the same as summing each row's revenue. */
  lemma {:induction false} TotalRevenueIsRowSum(data: seq<S1Entry>)
    ensures DeclareSummary(data).totalRev == RowRevenueSum(data)
  {
    if data != [] {
      TotalRevenueIsRowSum(data[..|data| - 1]);
    }
  }

  function RowRevenueSum(data: seq<S1Entry>): real
  {
    if data == [] then 0.0 else RowRevenueSum(data[..|data| - 1]) + S1RowRevenue(data[|data| - 1])
  }

  /** When every row's stored total agrees with its columns, the declared
      revenue equals the sum of the stored totals. */
  lemma {:induction false} TotalRevenueMatchesStoredTotals(data: seq<S1Entry>)
    requires forall i :: 0 <= i < |data| ==> S1Consistent(data[i])
    ensures DeclareSummary(data).totalRev == StoredTotal(data)
  {
    if data != [] {
      TotalRevenueMatchesStoredTotals(data[..|data| - 1]);
    }
  }

  lemma {:induction false} CategoryTotalNonNegative(data: seq<S1Entry>, c: Category)
    requires forall i :: 0 <= i < |data| ==> NonNegativeRow(data[i])
    ensures CategoryTotal(data, c) >= 0.0
  {
    if data != [] {
      CategoryTotalNonNegative(data[..|data| - 1], c);
      assert NonNegativeRow(data[|data| - 1]);
    }
  }

  /** With non-negative revenues, every figure is non-negative and the tax lies
      between the lowest combined sector rate (1.5%, sector 010) and the
      highest (10%, sector 040) of the revenue. */
  lemma SummaryTaxRange(data: seq<S1Entry>)
    requires forall i :: 0 <= i < |data| ==> NonNegativeRow(data[i])
    ensures var s := DeclareSummary(data);
      && s.rev010 >= 0.0 && s.rev020 >= 0.0 && s.rev030 >= 0.0 && s.rev040 >= 0.0
      && s.vat >= 0.0 && s.pit >= 0.0
      && 0.015 * s.totalRev <= s.totalTax <= 0.10 * s.totalRev
  {
    CategoryTotalNonNegative(data, C010);
    CategoryTotalNonNegative(data, C020);
    CategoryTotalNonNegative(data, C030);
    CategoryTotalNonNegative(data, C040);
  }

  // The validator ---------------------------------------------------------------

  datatype Severity = Info | Warning

  datatype ValidationWarning = ValidationWarning(sev: Severity, title: string, desc: string)

  /** Raised when the declared revenue is below 10,000,000. */
  const LowRevenue := ValidationWarning(Info, "Doanh thu thấp hơn dự kiến",
    "Doanh thu kê khai thấp hơn mức trung bình của các kỳ trước. Vui lòng kiểm tra lại sổ S1.")

  /** Raised when the tax due exceeds 5,000,000. */
  const HighTax := ValidationWarning(Warning, "Nghĩa vụ thuế cao",
    "Số thuế phải nộp cao bất thường. Đảm bảo rằng tất cả chi phí hợp lệ đã được ghi nhận.")

  /** The warnings for a summary: each rule fires on its own threshold, the
      revenue rule's warning always before the tax rule's. */
  method DeclareValidation(s: Summary) returns (warnings: seq<ValidationWarning>)
    ensures |warnings| <= 2
    ensures LowRevenue in warnings <==> s.totalRev < 10000000.0
    ensures HighTax in warnings <==> s.totalTax > 5000000.0
    ensures forall i :: 0 <= i < |warnings| ==> warnings[i] == LowRevenue || warnings[i] == HighTax
    ensures forall i, j :: 0 <= i < j < |warnings| ==> warnings[i] == LowRevenue && warnings[j] == HighTax
  {
    warnings := [];
    if s.totalRev < 10000000.0 {
      warnings := warnings + [LowRevenue];
    }
    if s.totalTax > 5000000.0 {
      warnings := warnings + [HighTax];
    }
  }
}
