/** The report service: period filters on a date field, the borrowing counts
    and the fine totals bucketed by status over that period, the custom report,
    and the export of a report as the rows a CSV writer receives. Dates are
    integer timestamps, the clock is a parameter, and a report's data section
    is an ordered list of entries (a Python dict keeps insertion order). */
module Reports {
  import opened Common
  import opened Views
  import opened Documents

  // ---------------------------------------------------------------------------
  // Period filters
  // ---------------------------------------------------------------------------

  /** `{"$gte": start, "$lte": end}`, each bound only when given. */
  datatype DateRange = DateRange(gte: Option<int>, lte: Option<int>)

  type DateQuery = map<string, DateRange>

  /** The filter a report period calls for: the date field constrained only when
      a bound is given (a `datetime` is always true in Python), with exactly the
      given bounds. */
  function PeriodQuery(field: string, start: Option<int>, end: Option<int>): (q: DateQuery)
    ensures field in q <==> start.Some? || end.Some?
    ensures forall k :: k in q ==> k == field
    ensures field in q ==> q[field].gte == start && q[field].lte == end
  {
    if start.Some? || end.Some? then map[field := DateRange(start, end)] else map[]
  }

  /** The filter assembled key by key. */
  method DateFilter(field: string, start: Option<int>, end: Option<int>) returns (query: DateQuery)
    ensures query == PeriodQuery(field, start, end)
  {
    query := map[];
    if start.Some? || end.Some? {
      var gte: Option<int> := None;
      var lte: Option<int> := None;
      if start.Some? {
        gte := start;
      }
      if end.Some? {
        lte := end;
      }
      query := query[field := DateRange(gte, lte)];
    }
  }

  /** `find(query)` for a date query. */
  predicate MatchesDates(d: Doc, q: DateQuery) {
    forall k :: k in q ==>
      && k in d && d[k].JInt?
      && (q[k].gte.Some? ==> d[k].i >= q[k].gte.value)
      && (q[k].lte.Some? ==> d[k].i <= q[k].lte.value)
  }

  /** A document falls in the period read bound by bound; with no bound at all
      every document does. */
  predicate InPeriod(d: Doc, field: string, start: Option<int>, end: Option<int>) {
    && (start.Some? ==> field in d && d[field].JInt? && d[field].i >= start.value)
    && (end.Some? ==> field in d && d[field].JInt? && d[field].i <= end.value)
  }

  /** The built filter selects exactly the documents in the period. */
  lemma PeriodQueryMeaning(d: Doc, field: string, start: Option<int>, end: Option<int>)
    ensures MatchesDates(d, PeriodQuery(field, start, end)) <==> InPeriod(d, field, start, end)
  {
    var q := PeriodQuery(field, start, end);
    if MatchesDates(d, q) && (start.Some? || end.Some?) {
      assert field in q;
    }
  }

  function InRange(docs: seq<Doc>, q: DateQuery): seq<Doc> {
    Filter(docs, d => MatchesDates(d, q))
  }

  // ---------------------------------------------------------------------------
  // Reports and their export
  // ---------------------------------------------------------------------------

  type Entries = seq<(string, Json)>

  /** A report as a dict: the two header fields and the data section, each of
      which may be missing. */
  datatype Report = Report(reportType: Option<Json>, generatedAt: Option<Json>, data: Option<Entries>)

  /** The number of documents whose status is the given text. */
  function StatusCount(docs: seq<Doc>, status: string): (n: nat)
    ensures n <= |docs|
    decreases |docs|
  {
    if docs == [] then 0
    else StatusCount(docs[..|docs| - 1], status)
         + (if Get(docs[|docs| - 1], "status", JNull) == JStr(status) then 1 else 0)
  }

  /** Counts for distinct statuses never add up to more than the documents. */
  lemma {:induction false} StatusCountsWithinTotal(docs: seq<Doc>, a: string, b: string, c: string)
    requires a != b && b != c && a != c
    ensures StatusCount(docs, a) + StatusCount(docs, b) + StatusCount(docs, c) <= |docs|
    decreases |docs|
  {
    if docs != [] {
      StatusCountsWithinTotal(docs[..|docs| - 1], a, b, c);
    }
  }

  /** The borrowing report: the transactions in the period, and how many of
      them are borrowed, returned and overdue. */
  method BorrowingReport(transactions: seq<Doc>, start: Option<int>, end: Option<int>, now: int)
    returns (report: Report)
    ensures var found := InRange(transactions, PeriodQuery("borrow_date", start, end));
      report == Report(Some(JStr("borrowing")), Some(JInt(now)), Some([
        ("total_transactions", JInt(|found|)),
        ("currently_borrowed", JInt(StatusCount(found, "borrowed"))),
        ("returned", JInt(StatusCount(found, "returned"))),
        ("overdue", JInt(StatusCount(found, "overdue")))]))
  {
    var query := DateFilter("borrow_date", start, end);
    var found := InRange(transactions, query);
    report := Report(Some(JStr("borrowing")), Some(JInt(now)), Some([
      ("total_transactions", JInt(|found|)),
      ("currently_borrowed", JInt(StatusCount(found, "borrowed"))),
      ("returned", JInt(StatusCount(found, "returned"))),
      ("overdue", JInt(StatusCount(found, "overdue")))]));
  }

  /** A fine the accumulation loop can read: `fine["amount"]` is there and
      Python can add it to a float (a number or a boolean), and
      `fine["status"]` is there. Any other fine makes the loop raise. */
  predicate WellFormedFine(d: Doc) {
    "amount" in d && (d["amount"].JInt? || d["amount"].JReal? || d["amount"].JBool?) && "status" in d
  }

  ghost predicate WellFormedFines(fines: seq<Doc>) {
    forall i :: 0 <= i < |fines| ==> WellFormedFine(fines[i])
  }

  function Amount(d: Doc): real {
    if "amount" in d && d["amount"].JInt? then d["amount"].i as real
    else if "amount" in d && d["amount"].JReal? then d["amount"].r
    else if "amount" in d && d["amount"] == JBool(true) then 1.0
    else 0.0
  }

  /** The amounts of the fines whose status is the given text. */
  function BucketSum(fines: seq<Doc>, status: string): real
    decreases |fines|
  {
    if fines == [] then 0.0
    else BucketSum(fines[..|fines| - 1], status)
         + (if Get(fines[|fines| - 1], "status", JNull) == JStr(status) then Amount(fines[|fines| - 1]) else 0.0)
  }

  function Total(fines: seq<Doc>): real
    decreases |fines|
  {
    if fines == [] then 0.0 else Total(fines[..|fines| - 1]) + Amount(fines[|fines| - 1])
  }

  ghost predicate NonNegativeAmounts(fines: seq<Doc>) {
    forall i :: 0 <= i < |fines| ==> Amount(fines[i]) >= 0.0
  }

  ghost predicate KnownStatuses(fines: seq<Doc>) {
    forall i :: 0 <= i < |fines| ==>
      Get(fines[i], "status", JNull) in {JStr("pending"), JStr("paid"), JStr("waived")}
  }

  /** Every fine adds to the total and to at most one bucket: with amounts that
      are not negative the buckets stay within the total, and they make it up
      exactly when every status is one of the three. */
  lemma {:induction false} BucketsWithinTotal(fines: seq<Doc>)
    ensures NonNegativeAmounts(fines) ==>
      BucketSum(fines, "pending") + BucketSum(fines, "paid") + BucketSum(fines, "waived") <= Total(fines)
    ensures KnownStatuses(fines) ==>
      BucketSum(fines, "pending") + BucketSum(fines, "paid") + BucketSum(fines, "waived") == Total(fines)
    decreases |fines|
  {
    if fines != [] {
      var init := fines[..|fines| - 1];
      BucketsWithinTotal(init);
      assert NonNegativeAmounts(fines) ==> NonNegativeAmounts(init);
      assert KnownStatuses(fines) ==> KnownStatuses(init);
    }
  }

  /** The running total and the three status buckets. */
  datatype FineSums = FineSums(total: real, pending: real, paid: real, waived: real)

  /** The accumulation loop: the running total and the three status buckets,
      or an internal error at the first fine it cannot read. */
  method FineTotals(found: seq<Doc>) returns (r: Result<FineSums>)
    ensures r.Err? <==> !WellFormedFines(found)
    ensures r.Err? ==> r.error == HttpError(500, "Internal Server Error")
    ensures r.Ok? ==> r.value == FineSums(Total(found), BucketSum(found, "pending"),
                                          BucketSum(found, "paid"), BucketSum(found, "waived"))
  {
    var total, pending, paid, waived := 0.0, 0.0, 0.0, 0.0;
    var i := 0;
    while i < |found|
      invariant 0 <= i <= |found|
      invariant WellFormedFines(found[..i])
      invariant total == Total(found[..i])
      invariant pending == BucketSum(found[..i], "pending")
      invariant paid == BucketSum(found[..i], "paid")
      invariant waived == BucketSum(found[..i], "waived")
    {
      var fine := found[i];
      if !WellFormedFine(fine) {
        return Err(HttpError(500, "Internal Server Error"));
      }
      assert found[..i + 1][..i] == found[..i];
      total := total + Amount(fine);
      if fine["status"] == JStr("pending") {
        pending := pending + Amount(fine);
      } else if fine["status"] == JStr("paid") {
        paid := paid + Amount(fine);
      } else if fine["status"] == JStr("waived") {
        waived := waived + Amount(fine);
      }
      i := i + 1;
    }
    assert found[..i] == found;
    r := Ok(FineSums(total, pending, paid, waived));
  }

  /** The fines report: the totals over the fines created in the period; a
      fine of the period the loop cannot read fails the request. Fines outside
      the period are never read. */
  method FinesReport(fines: seq<Doc>, start: Option<int>, end: Option<int>, now: int)
    returns (r: Result<Report>)
    ensures var found := InRange(fines, PeriodQuery("created_at", start, end));
      && (r.Err? <==> !WellFormedFines(found))
      && (r.Err? ==> r.error == HttpError(500, "Internal Server Error"))
      && (r.Ok? ==> r.value == Report(Some(JStr("fines")), Some(JInt(now)), Some([
        ("total_amount", JReal(Total(found))),
        ("pending_amount", JReal(BucketSum(found, "pending"))),
        ("paid_amount", JReal(BucketSum(found, "paid"))),
        ("waived_amount", JReal(BucketSum(found, "waived")))])))
  {
    var query := DateFilter("created_at", start, end);
    var found := InRange(fines, query);
    var sums := FineTotals(found);
    if sums.Err? {
      return Err(sums.error);
    }
    r := Ok(Report(Some(JStr("fines")), Some(JInt(now)), Some([
      ("total_amount", JReal(sums.value.total)),
      ("pending_amount", JReal(sums.value.pending)),
      ("paid_amount", JReal(sums.value.paid)),
      ("waived_amount", JReal(sums.value.waived))])));
  }

  /** `dict.get(key)` on ordered entries. */
  function Lookup(entries: Entries, key: string): (r: Option<Json>)
    ensures r.Some? <==> exists i :: 0 <= i < |entries| && entries[i].0 == key
    ensures r.Some? ==> (key, r.value) in entries
  {
    if entries == [] then None
    else if entries[0].0 == key then Some(entries[0].1)
    else Lookup(entries[1..], key)
  }

  /** A custom report: the parameters as data, typed by their `type` entry or
      "custom". */
  function CustomReport(params: Entries, now: int): (r: Report)
    ensures r.data == Some(params) && r.generatedAt == Some(JInt(now))
    ensures r.reportType == Some(Lookup(params, "type").GetOr(JStr("custom")))
  {
    Report(Some(Lookup(params, "type").GetOr(JStr("custom"))), Some(JInt(now)), Some(params))
  }

  /** A CSV cell: a fixed caption or a written value. */
  datatype Cell = Text(s: string) | Value(v: Json)

  type Row = seq<Cell>

  /** The three rows written before the data: the type (or "Unknown"), the
      time (or "") and an empty row. */
  function HeaderRows(report: Report): seq<Row> {
    [[Text("Report Type"), if report.reportType.Some? then Value(report.reportType.value) else Text("Unknown")],
     [Text("Generated At"), if report.generatedAt.Some? then Value(report.generatedAt.value) else Text("")],
     []]
  }

  /** One key/value row per data entry, in order. */
  function DataRows(data: Entries): (rows: seq<Row>)
    ensures |rows| == |data|
    ensures forall i :: 0 <= i < |data| ==> rows[i] == [Text(data[i].0), Value(data[i].1)]
    decreases |data|
  {
    if data == [] then []
    else DataRows(data[..|data| - 1]) + [[Text(data[|data| - 1].0), Value(data[|data| - 1].1)]]
  }

  /** The rows written for a report: its type (or "Unknown"), its time (or ""),
      an empty row, then one key/value row per data entry in order. */
  function CsvRows(report: Report): (rows: seq<Row>)
    ensures |rows| == 3 + |report.data.GetOr([])|
    ensures rows[0] == [Text("Report Type"), if report.reportType.Some? then Value(report.reportType.value) else Text("Unknown")]
    ensures rows[1] == [Text("Generated At"), if report.generatedAt.Some? then Value(report.generatedAt.value) else Text("")]
    ensures rows[2] == []
    ensures forall i :: 0 <= i < |report.data.GetOr([])| ==>
      rows[3 + i] == [Text(report.data.GetOr([])[i].0), Value(report.data.GetOr([])[i].1)]
  {
    HeaderRows(report) + DataRows(report.data.GetOr([]))
  }

  /** A key/value row read back as an entry. */
  function EntryOf(row: Row): (string, Json) {
    if |row| == 2 && row[0].Text? && row[1].Value? then (row[0].s, row[1].v) else ("", JNull)
  }

  /** The data section read back from the rows after the blank one. */
  function DataSection(rows: seq<Row>): Entries {
    var n := if |rows| <= 3 then 0 else |rows| - 3;
    seq(n, i requires 0 <= i < n && 3 + n <= |rows| => EntryOf(rows[3 + i]))
  }

  /** Nothing of the data section is lost in the export. */
  lemma CsvKeepsData(report: Report)
    ensures DataSection(CsvRows(report)) == report.data.GetOr([])
  {
    var rows := CsvRows(report);
    var data := report.data.GetOr([]);
    var section := DataSection(rows);
    forall i | 0 <= i < |data|
      ensures section[i] == data[i]
    {
      assert rows[3 + i] == [Text(data[i].0), Value(data[i].1)];
    }
    assert section == data;
  }

  datatype Export = Csv(rows: seq<Row>) | Unchanged(report: Report)

  /** The export: the CSV rows written one by one, or the report itself for any
      other format. */
  method ExportReport(report: Report, format: string) returns (out: Export)
    ensures format == "csv" ==> out == Csv(CsvRows(report))
    ensures format != "csv" ==> out == Unchanged(report)
  {
    if format != "csv" {
      return Unchanged(report);
    }
    var rows: seq<Row> := [];
    rows := rows + [[Text("Report Type"), if report.reportType.Some? then Value(report.reportType.value) else Text("Unknown")]];
    rows := rows + [[Text("Generated At"), if report.generatedAt.Some? then Value(report.generatedAt.value) else Text("")]];
    rows := rows + [[]];
    var data := if report.data.Some? then report.data.value else [];
    var i := 0;
    while i < |data|
      invariant 0 <= i <= |data|
      invariant rows == HeaderRows(report) + DataRows(data[..i])
    {
      assert data[..i + 1][..i] == data[..i];
      rows := rows + [[Text(data[i].0), Value(data[i].1)]];
      i := i + 1;
    }
    assert data[..i] == data;
    out := Csv(rows);
  }

  /** A custom report exported as CSV names its type on the first row and has
      one row per parameter after the three header rows. */
  lemma CustomReportCsv(params: Entries, now: int)
    ensures |CsvRows(CustomReport(params, now))| == 3 + |params|
    ensures CsvRows(CustomReport(params, now))[0][1] == Value(Lookup(params, "type").GetOr(JStr("custom")))
    ensures DataSection(CsvRows(CustomReport(params, now))) == params
  {
    CsvKeepsData(CustomReport(params, now));
  }
}
