/** The component's mutable state: the seven books, the invoice list and
    the declaration records, with the operations that add and delete book
    rows and that submit the current quarter's declaration. The summary
    shown on the declaration screen is always recomputed from S1. */
module Store {
  import opened Common
  import opened Ledger
  import opened Declaration

  datatype Status = Draft | Submitted

  /** One declaration per period, keyed by an id such as "DK-2026-Q2". */
  datatype DeclarationRecord = DeclarationRecord(
    id: string, period: string, kind: string, status: Status,
    date: string, totalTax: real, deadline: string)

  function RecordId(r: DeclarationRecord): string { r.id }

  /** The period that "submit" files. */
  const CurrentPeriodId := "DK-2026-Q2"

  const InitialRecords: seq<DeclarationRecord> := [
    DeclarationRecord("DK-2026-Q1", "Quý 1/2026", "Tờ khai chính thức", Submitted, "2026-04-15", 2150000.0, "2026-04-30"),
    DeclarationRecord("DK-2026-Q2", "Quý 2/2026", "Tờ khai nháp", Draft, "-", 0.0, "2026-07-30")
  ]

  /** The record written on submission: the current quarter, official,
      submitted, carrying a snapshot of the tax due. */
  function SubmittedRecord(totalTax: real): (r: DeclarationRecord)
    ensures r.id == CurrentPeriodId && r.status == Submitted && r.totalTax == totalTax
  {
    DeclarationRecord(CurrentPeriodId, "Quý 2/2026", "Tờ khai chính thức", Submitted, "Vừa xong", totalTax, "2026-07-30")
  }

  /** `rec` first, followed by the earlier records that do not share its id. */
  function Upsert(records: seq<DeclarationRecord>, rec: DeclarationRecord): (r: seq<DeclarationRecord>)
    ensures 1 <= |r| <= |records| + 1 && r[0] == rec
  {
    [rec] + RemoveKey(records, RecordId, rec.id)
  }

  // Properties of the upsert --------------------------------------------------

  /** Afterwards the record is first and no other record carries its id. */
  lemma UpsertLeavesOneRecordPerId(records: seq<DeclarationRecord>, rec: DeclarationRecord)
    ensures var u := Upsert(records, rec);
      && u[0] == rec
      && (forall i :: 0 < i < |u| ==> u[i].id != rec.id)
      && CountKey(u, RecordId, rec.id) == 1
  {
    var rest := RemoveKey(records, RecordId, rec.id);
    var u := Upsert(records, rec);
    assert u[1..] == rest;
    forall i | 0 < i < |u| ensures u[i].id != rec.id {
      assert u[i] == rest[i - 1] && rest[i - 1] in rest;
    }
    RemoveKeyCount(rest, RecordId, rec.id);
    RemoveKeyIdempotent(records, RecordId, rec.id);
  }

  /** Every other record survives, and nothing else is added. */
  lemma UpsertKeepsOtherRecords(records: seq<DeclarationRecord>, rec: DeclarationRecord)
    ensures forall x :: x in records && x.id != rec.id ==> x in Upsert(records, rec)
    ensures forall x :: x in Upsert(records, rec) ==> x == rec || (x in records && x.id != rec.id)
  {
  }

  /** The surviving records keep their relative order: upserting into a
      concatenation filters each part in place. */
  lemma UpsertKeepsOrder(a: seq<DeclarationRecord>, b: seq<DeclarationRecord>, rec: DeclarationRecord)
    ensures Upsert(a + b, rec) == [rec] + RemoveKey(a, RecordId, rec.id) + RemoveKey(b, RecordId, rec.id)
  {
    RemoveKeyAppend(a, b, RecordId, rec.id);
  }

  /** Submitting the same period twice is the same as submitting the second time only. */
  lemma UpsertTwice(records: seq<DeclarationRecord>, first: DeclarationRecord, second: DeclarationRecord)
    requires first.id == second.id
    ensures Upsert(Upsert(records, first), second) == Upsert(records, second)
  {
    var rest := RemoveKey(records, RecordId, first.id);
    var once := Upsert(records, first);
    assert once[0] == first && once[1..] == rest;
    assert RemoveKey(once, RecordId, second.id) == RemoveKey(rest, RecordId, first.id);
    RemoveKeyIdempotent(records, RecordId, first.id);
  }

  /** Upserting keeps the ids of the record list unique. */
  lemma UpsertKeepsIdsUnique(records: seq<DeclarationRecord>, rec: DeclarationRecord)
    requires UniqueKeys(records, RecordId)
    ensures UniqueKeys(Upsert(records, rec), RecordId)
  {
    RemoveKeyUnique(records, RecordId, rec.id);
    UpsertLeavesOneRecordPerId(records, rec);
    var u := Upsert(records, rec);
    forall i, j | 0 <= i < j < |u| ensures RecordId(u[i]) != RecordId(u[j]) {
      if i > 0 {
        assert u[i] == u[1..][i - 1] && u[j] == u[1..][j - 1];
      }
    }
  }

  /** Two submissions in a row leave exactly one current-period record, carrying the later snapshot. */
  lemma SubmitTwice(records: seq<DeclarationRecord>, tax1: real, tax2: real)
    ensures var u := Upsert(Upsert(records, SubmittedRecord(tax1)), SubmittedRecord(tax2));
      && u[0] == SubmittedRecord(tax2) && u[0].totalTax == tax2
      && CountKey(u, RecordId, CurrentPeriodId) == 1
  {
    UpsertTwice(records, SubmittedRecord(tax1), SubmittedRecord(tax2));
    UpsertLeavesOneRecordPerId(records, SubmittedRecord(tax2));
  }

  // The store ---------------------------------------------------------------------

  predicate AllS1Consistent(s: seq<S1Entry>) { forall i :: 0 <= i < |s| ==> S1Consistent(s[i]) }
  predicate AllS2Consistent(s: seq<S2Entry>) { forall i :: 0 <= i < |s| ==> S2Consistent(s[i]) }
  predicate AllS3Consistent(s: seq<S3Entry>) { forall i :: 0 <= i < |s| ==> S3Consistent(s[i]) }
  predicate AllS5Consistent(s: seq<S5Entry>) { forall i :: 0 <= i < |s| ==> S5Consistent(s[i]) }

  /** Deleting keeps every surviving row, so a book whose derived fields agree keeps agreeing. */
  lemma RemoveKeepsS1Consistent(s: seq<S1Entry>, id: Key)
    requires AllS1Consistent(s)
    ensures AllS1Consistent(RemoveKey(s, S1Key, id))
  {
    var r := RemoveKey(s, S1Key, id);
    forall i | 0 <= i < |r| ensures S1Consistent(r[i]) {
      assert r[i] in r;
    }
  }

  lemma RemoveKeepsS2Consistent(s: seq<S2Entry>, id: Key)
    requires AllS2Consistent(s)
    ensures AllS2Consistent(RemoveKey(s, S2Key, id))
  {
    var r := RemoveKey(s, S2Key, id);
    forall i | 0 <= i < |r| ensures S2Consistent(r[i]) {
      assert r[i] in r;
    }
  }

  lemma RemoveKeepsS3Consistent(s: seq<S3Entry>, id: Key)
    requires AllS3Consistent(s)
    ensures AllS3Consistent(RemoveKey(s, S3Key, id))
  {
    var r := RemoveKey(s, S3Key, id);
    forall i | 0 <= i < |r| ensures S3Consistent(r[i]) {
      assert r[i] in r;
    }
  }

  lemma RemoveKeepsS5Consistent(s: seq<S5Entry>, id: Key)
    requires AllS5Consistent(s)
    ensures AllS5Consistent(RemoveKey(s, S5Key, id))
  {
    var r := RemoveKey(s, S5Key, id);
    forall i | 0 <= i < |r| ensures S5Consistent(r[i]) {
      assert r[i] in r;
    }
  }

  class LedgerStore {
    var s1: seq<S1Entry>
    var s2: seq<S2Entry>
    var s3: seq<S3Entry>
    var s4: seq<S4Entry>
    var s5: seq<S5Entry>
    var s6: seq<S6Entry>
    var s7: seq<S7Entry>
    var invoices: seq<Invoice>
    var records: seq<DeclarationRecord>
    var declaring: bool
    var declareStep: int

    /** Stored derived fields agree with their components in S1, S2, S3 and
        S5, and no two declaration records share an id. */
    ghost predicate Valid()
      reads this
    {
      && AllS1Consistent(s1)
      && AllS2Consistent(s2)
      && AllS3Consistent(s3)
      && AllS5Consistent(s5)
      && UniqueKeys(records, RecordId)
    }

    constructor ()
      ensures Valid()
      ensures s1 == InitialS1 && s2 == InitialS2 && s3 == InitialS3 && s4 == InitialS4
      ensures s5 == InitialS5 && s6 == InitialS6 && s7 == InitialS7
      ensures invoices == InitialInvoices && records == InitialRecords
      ensures !declaring && declareStep == 1
    {
      s1, s2, s3, s4 := InitialS1, InitialS2, InitialS3, InitialS4;
      s5, s6, s7 := InitialS5, InitialS6, InitialS7;
      invoices, records := InitialInvoices, InitialRecords;
      declaring, declareStep := false, 1;
    }

    /** The declaration summary of the current S1 book. */
    function CurrentSummary(): Summary
      reads this
    {
      DeclareSummary(s1)
    }

    /** In a valid store the revenue the declaration shows is the sum of the
        totals stored in the S1 book. */
    lemma DeclaredRevenueIsStored()
      requires Valid()
      ensures CurrentSummary().totalRev == StoredTotal(s1)
    {
      TotalRevenueMatchesStoredTotals(s1);
    }

    /** Appends the default row to book S1, S3, S4, S5 or S7; any other book
        id (S2, S6 or unknown) leaves every book as it was. `id` and `today`
        stand for the clock readings the row is stamped with. */
    method AddEntry(bookId: string, id: int, today: string)
      requires Valid()
      modifies this
      ensures Valid()
      ensures s1 == if bookId == "S1" then old(s1) + [NewS1Entry(id, today)] else old(s1)
      ensures s3 == if bookId == "S3" then old(s3) + [NewS3Entry(id, today)] else old(s3)
      ensures s4 == if bookId == "S4" then old(s4) + [NewS4Entry(id, today)] else old(s4)
      ensures s5 == if bookId == "S5" then old(s5) + [NewS5Entry(id, today)] else old(s5)
      ensures s7 == if bookId == "S7" then old(s7) + [NewS7Entry(id, today)] else old(s7)
      ensures s2 == old(s2) && s6 == old(s6)
      ensures invoices == old(invoices) && records == old(records)
      ensures declaring == old(declaring) && declareStep == old(declareStep)
    {
      if bookId == "S1" {
        s1 := s1 + [NewS1Entry(id, today)];
      } else if bookId == "S3" {
        s3 := s3 + [NewS3Entry(id, today)];
      } else if bookId == "S4" {
        s4 := s4 + [NewS4Entry(id, today)];
      } else if bookId == "S5" {
        s5 := s5 + [NewS5Entry(id, today)];
      } else if bookId == "S7" {
        s7 := s7 + [NewS7Entry(id, today)];
      }
    }

    /** The confirmed deletion: drops every row of the named book (or of the
        invoice list, for "INV") whose id is strictly equal to `id`. */
    method DeleteEntry(bookId: string, id: Key)
      requires Valid()
      modifies this
      ensures Valid()
      ensures s1 == if bookId == "S1" then RemoveKey(old(s1), S1Key, id) else old(s1)
      ensures s2 == if bookId == "S2" then RemoveKey(old(s2), S2Key, id) else old(s2)
      ensures s3 == if bookId == "S3" then RemoveKey(old(s3), S3Key, id) else old(s3)
      ensures s4 == if bookId == "S4" then RemoveKey(old(s4), S4Key, id) else old(s4)
      ensures s5 == if bookId == "S5" then RemoveKey(old(s5), S5Key, id) else old(s5)
      ensures s6 == if bookId == "S6" then RemoveKey(old(s6), S6Key, id) else old(s6)
      ensures s7 == if bookId == "S7" then RemoveKey(old(s7), S7Key, id) else old(s7)
      ensures invoices == if bookId == "INV" then RemoveKey(old(invoices), InvoiceKey, id) else old(invoices)
      ensures records == old(records)
      ensures declaring == old(declaring) && declareStep == old(declareStep)
    {
      if bookId == "S1" { RemoveKeepsS1Consistent(s1, id); s1 := RemoveKey(s1, S1Key, id); }
      if bookId == "S2" { RemoveKeepsS2Consistent(s2, id); s2 := RemoveKey(s2, S2Key, id); }
      if bookId == "S3" { RemoveKeepsS3Consistent(s3, id); s3 := RemoveKey(s3, S3Key, id); }
      if bookId == "S4" { s4 := RemoveKey(s4, S4Key, id); }
      if bookId == "S5" { RemoveKeepsS5Consistent(s5, id); s5 := RemoveKey(s5, S5Key, id); }
      if bookId == "S6" { s6 := RemoveKey(s6, S6Key, id); }
      if bookId == "S7" { s7 := RemoveKey(s7, S7Key, id); }
      if bookId == "INV" { invoices := RemoveKey(invoices, InvoiceKey, id); }
    }

    /** Opens the declaration wizard at its first step. */
    method StartDeclaration()
      requires Valid()
      modifies this
      ensures Valid()
      ensures declaring && declareStep == 1
      ensures s1 == old(s1) && s2 == old(s2) && s3 == old(s3) && s4 == old(s4)
      ensures s5 == old(s5) && s6 == old(s6) && s7 == old(s7)
      ensures invoices == old(invoices) && records == old(records)
    {
      declaring := true;
      declareStep := 1;
    }

    /** Files the current quarter: its record, submitted with the current
        summary's tax, goes first and replaces any earlier record of the
        quarter; the wizard closes. */
    method SubmitDeclaration()
      requires Valid()
      modifies this
      ensures Valid()
      ensures records == Upsert(old(records), SubmittedRecord(old(CurrentSummary()).totalTax))
      ensures !declaring && declareStep == old(declareStep)
      ensures s1 == old(s1) && s2 == old(s2) && s3 == old(s3) && s4 == old(s4)
      ensures s5 == old(s5) && s6 == old(s6) && s7 == old(s7)
      ensures invoices == old(invoices)
    {
      var rec := SubmittedRecord(CurrentSummary().totalTax);
      UpsertKeepsIdsUnique(records, rec);
      declaring := false;
      records := Upsert(records, rec);
    }
  }
}
