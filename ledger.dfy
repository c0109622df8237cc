/** The seven statutory accounting books (S1 to S7) and the invoice list:
    one datatype per book schema, the entry each book gets when a new row
    is added, the derived fields an entry must agree with, and the key by
    which an entry is deleted. Dates in the books are the ISO strings the
    component stores; they are never computed on. */
module Ledger {
  import opened Common

  /** S1, revenue book: four revenue categories (sector codes 010 to 040),
      any of which may be absent, and their stored total. */
  datatype S1Entry = S1Entry(
    id: int, date: string, inv: string, dateInv: string, desc: string,
    rev010: Option<real>, rev020: Option<real>, rev030: Option<real>, rev040: Option<real>,
    total: real)

  /** S2, inventory book: quantities in, out and in stock, with unit prices and totals. */
  datatype S2Entry = S2Entry(
    id: int, item: string, unit: string, code: string, date: string,
    inQty: real, inPrice: real, inTotal: real,
    outQty: real, outPrice: real, outTotal: real,
    stockQty: real, stockPrice: real, stockTotal: real)

  /** S3, cost book: a total split into raw material, labour and management. */
  datatype S3Entry = S3Entry(
    id: int, date: string, doc: string, desc: string,
    total: real, raw: real, labor: real, management: real)

  /** S4, tax-payment book. */
  datatype S4Entry = S4Entry(
    id: int, date: string, doc: string, desc: string, kind: string,
    payable: real, paid: real, balance: real)

  /** S5, payroll book: net pay is salary plus bonus. */
  datatype S5Entry = S5Entry(
    id: int, date: string, name: string, position: string,
    salary: real, bonus: real, net: real)

  /** S6, cash book with a running balance. */
  datatype S6Entry = S6Entry(
    id: int, date: string, doc: string, desc: string,
    income: real, expense: real, balance: real)

  /** S7, bank book. */
  datatype S7Entry = S7Entry(
    id: int, date: string, doc: string, desc: string,
    deposit: real, withdraw: real, balance: real)

  /** A scanned purchase invoice; its id is a string such as "INV-001". */
  datatype Invoice = Invoice(id: string, partner: string, date: string, amount: real, status: string)

  // Derived fields -----------------------------------------------------------

  /** Sum of the four revenue categories of an S1 row, absent ones as zero. */
  function S1RowRevenue(e: S1Entry): real
  {
    OrZero(e.rev010) + OrZero(e.rev020) + OrZero(e.rev030) + OrZero(e.rev040)
  }

  predicate S1Consistent(e: S1Entry)
  {
    e.total == S1RowRevenue(e)
  }

  predicate S2Consistent(e: S2Entry)
  {
    && e.inTotal == e.inQty * e.inPrice
    && e.outTotal == e.outQty * e.outPrice
    && e.stockTotal == e.stockQty * e.stockPrice
    && e.stockQty == e.inQty - e.outQty
  }

  predicate S3Consistent(e: S3Entry)
  {
    e.total == e.raw + e.labor + e.management
  }

  predicate S5Consistent(e: S5Entry)
  {
    e.net == e.salary + e.bonus
  }

  // Rows appended by "add entry"; `id` stands for Date.now() and `today`
  // for the current ISO date, both supplied by the caller. -----------------

  function NewS1Entry(id: int, today: string): (e: S1Entry)
    ensures e.id == id && e.date == today && e.dateInv == today
    ensures OrZero(e.rev010) == 1000000.0 && S1RowRevenue(e) == 1000000.0
    ensures S1Consistent(e)
  {
    S1Entry(id, today, "HD-NEW", today, "Giao dịch mới",
            Some(1000000.0), Some(0.0), Some(0.0), Some(0.0), 1000000.0)
  }

  function NewS3Entry(id: int, today: string): (e: S3Entry)
    ensures e.id == id && e.date == today && e.total == 500000.0
    ensures S3Consistent(e)
  {
    S3Entry(id, today, "PC-NEW", "Chi phí mới", 500000.0, 500000.0, 0.0, 0.0)
  }

  function NewS4Entry(id: int, today: string): (e: S4Entry)
    ensures e.id == id && e.date == today && e.paid == 500000.0 && e.payable == 0.0
  {
    S4Entry(id, today, "NT-NEW", "Giao dịch thuế", "GTGT", 0.0, 500000.0, 0.0)
  }

  function NewS5Entry(id: int, today: string): (e: S5Entry)
    ensures e.id == id && e.date == today && e.net == 0.0
    ensures S5Consistent(e)
  {
    S5Entry(id, today, "Nhân viên mới", "Vị trí", 0.0, 0.0, 0.0)
  }

  function NewS7Entry(id: int, today: string): (e: S7Entry)
    ensures e.id == id && e.date == today
    ensures e.deposit == 0.0 && e.withdraw == 0.0 && e.balance == 0.0
  {
    S7Entry(id, today, "UNC-NEW", "Giao dịch ngân hàng", 0.0, 0.0, 0.0)
  }

  // Keys compared by "delete entry" ----------------------------------------

  function S1Key(e: S1Entry): Key { NumKey(e.id) }
  function S2Key(e: S2Entry): Key { NumKey(e.id) }
  function S3Key(e: S3Entry): Key { NumKey(e.id) }
  function S4Key(e: S4Entry): Key { NumKey(e.id) }
  function S5Key(e: S5Entry): Key { NumKey(e.id) }
  function S6Key(e: S6Entry): Key { NumKey(e.id) }
  function S7Key(e: S7Entry): Key { NumKey(e.id) }
  function InvoiceKey(v: Invoice): Key { TextKey(v.id) }

  // The books as the component starts with them. ----------------------------

  const InitialS1: seq<S1Entry> := [
    S1Entry(1, "2026-07-01", "HD001", "2026-07-01", "Bán quần áo nam",
            Some(5000000.0), Some(0.0), Some(0.0), Some(0.0), 5000000.0),
    S1Entry(2, "2026-07-02", "HD002", "2026-07-02", "Dịch vụ may đo",
            Some(0.0), Some(1200000.0), Some(0.0), Some(0.0), 1200000.0)
  ]

  const InitialS2: seq<S2Entry> := [
    S2Entry(1, "Vải Cotton 100%", "Mét", "VAT01", "2026-07-01",
            100.0, 50000.0, 5000000.0, 20.0, 50000.0, 1000000.0, 80.0, 50000.0, 4000000.0)
  ]

  const InitialS3: seq<S3Entry> := [
    S3Entry(1, "2026-07-05", "PC012", "Mua vật liệu may mặc", 5000000.0, 4500000.0, 0.0, 500000.0)
  ]

  const InitialS4: seq<S4Entry> := [
    S4Entry(1, "2026-04-15", "NT01", "Nộp thuế GTGT Quý 1/2026", "GTGT", 0.0, 1500000.0, 0.0)
  ]

  const InitialS5: seq<S5Entry> := [
    S5Entry(1, "2026-07-31", "Nguyễn Văn A", "Nhân viên may", 8500000.0, 500000.0, 9000000.0)
  ]

  const InitialS6: seq<S6Entry> := [
    S6Entry(1, "2026-07-01", "PT001", "Thu tiền bán hàng HD001", 5000000.0, 0.0, 5000000.0),
    S6Entry(2, "2026-07-05", "PC012", "Chi mua nguyên liệu", 0.0, 5000000.0, 0.0)
  ]

  const InitialS7: seq<S7Entry> := [
    S7Entry(1, "2026-07-10", "GNT01", "Khách hàng chuyển khoản HD003", 2500000.0, 0.0, 2500000.0)
  ]

  const InitialInvoices: seq<Invoice> := [
    Invoice("INV-001", "Công ty May mặc VN", "2026-07-15", 15000000.0, "Verified"),
    Invoice("INV-002", "Khách hàng lẻ", "2026-07-16", 2500000.0, "Verified")
  ]
}
