/** `FEC_Data_Exporter`: the insights query, the CSV and JSON row shapes, the
    summary totals of the PDF report and the dispatch of an export request. The
    database, the clock, the upload directory and the file writes are parameters. */
module DataExporter {
  import opened Text
  import opened Foreign
  import FinancialAnalyzer

  /** A stored insight as `$wpdb` returns it. `amount` is in cents (a DECIMAL(10,2)
      column); `source` is the raw JSON column and `sourceData` what was decoded
      from it, None when it is unset or decoded to null. */
  datatype Row = Row(id: nat, insightType: string, description: string, amount: Option<nat>,
                     dueDate: Option<string>, status: string, createdAt: string,
                     source: Option<string>, sourceData: Option<map<string, string>>)

  datatype QueryArg = IntArg(n: nat) | StrArg(s: string)

  // ---------------------------------------------------------------------
  // The query of get_insights_data
  // ---------------------------------------------------------------------

  /** The filters, in the order their clauses are appended. */
  const FilterKeys: seq<string> := ["type", "date_from", "date_to", "status"]

  /** `isset($filters[$key]) && !empty($filters[$key])` */
  predicate FilterSet(filters: map<string, string>, key: string) {
    key in filters && Truthy(filters[key])
  }

  /** The condition each filter adds, up to its placeholder. */
  function ClauseText(key: string): string {
    if key == "type" then " AND insight_type = "
    else if key == "date_from" then " AND created_at >= "
    else if key == "date_to" then " AND created_at <= "
    else " AND status = "
  }

  /** The argument of a set filter: dates are normalised by `strtotime` and `date`. */
  function FilterArg(lib: Lib, filters: map<string, string>, key: string): QueryArg
    requires key in filters
  {
    if key == "date_from" || key == "date_to" then StrArg(lib.formatDateTime(filters[key]))
    else StrArg(filters[key])
  }

  /** The keys among `keys` whose filter is set, in order. */
  function SetKeys(filters: map<string, string>, keys: seq<string>): (r: seq<string>)
    ensures forall j :: 0 <= j < |r| ==> r[j] in filters
  {
    if keys == [] then []
    else (if FilterSet(filters, keys[0]) then [keys[0]] else []) + SetKeys(filters, keys[1..])
  }

  function ArgsFor(lib: Lib, filters: map<string, string>, keys: seq<string>): seq<QueryArg>
    requires forall j :: 0 <= j < |keys| ==> keys[j] in filters
  {
    if keys == [] then [] else [FilterArg(lib, filters, keys[0])] + ArgsFor(lib, filters, keys[1..])
  }

  function Clauses(keys: seq<string>): string {
    if keys == [] then "" else ClauseText(keys[0]) + "%s" + Clauses(keys[1..])
  }

  function SelectText(tablePrefix: string): string {
    "SELECT * FROM " + tablePrefix + "fec_financial_insights WHERE user_id = "
  }

  const OrderText := " ORDER BY created_at DESC"

  /** The prepared query of `get_insights_data` and its arguments. */
  function QueryOf(lib: Lib, tablePrefix: string, userId: nat, filters: map<string, string>): (string, seq<QueryArg>) {
    var keys := SetKeys(filters, FilterKeys);
    (SelectText(tablePrefix) + "%d" + Clauses(keys) + OrderText, [IntArg(userId)] + ArgsFor(lib, filters, keys))
  }

  /** The number of '%' characters. */
  function Percents(s: string): nat {
    if s == [] then 0 else (if s[0] == '%' then 1 else 0) + Percents(s[1..])
  }

  predicate NoPercent(s: string) {
    forall k :: 0 <= k < |s| ==> s[k] != '%'
  }

  lemma {:induction false} PercentsAppend(a: string, b: string)
    ensures Percents(a + b) == Percents(a) + Percents(b)
    decreases |a|
  {
    if a == [] {
      assert a + b == b;
    } else {
      assert (a + b)[1..] == a[1..] + b;
      PercentsAppend(a[1..], b);
    }
  }

  lemma {:induction false} PercentsNone(s: string)
    requires NoPercent(s)
    ensures Percents(s) == 0
    decreases |s|
  {
    if s != [] {
      PercentsNone(s[1..]);
    }
  }

  /** Text without a '%' adds no placeholder, on either side. */
  lemma PercentsPlain(a: string, b: string)
    ensures NoPercent(a) ==> Percents(a + b) == Percents(b)
    ensures NoPercent(b) ==> Percents(a + b) == Percents(a)
  {
    PercentsAppend(a, b);
    if NoPercent(a) { PercentsNone(a); }
    if NoPercent(b) { PercentsNone(b); }
  }

  /** A placeholder `%c` adds one '%'. */
  lemma PercentsMark(a: string, c: char)
    requires c != '%'
    ensures Percents(a + ['%', c]) == Percents(a) + 1
  {
    PercentsAppend(a, ['%', c]);
    assert ['%', c][1..] == [c];
    assert [c][1..] == [];
    assert Percents([c]) == 0;
    assert Percents(['%', c]) == 1 + Percents([c]);
  }

  lemma ClauseTextPlain(key: string)
    ensures NoPercent(ClauseText(key))
  {
  }

  /** One '%' per clause: no clause text has one of its own. */
  lemma {:induction false} PercentsClauses(keys: seq<string>)
    ensures Percents(Clauses(keys)) == |keys|
    decreases |keys|
  {
    if keys != [] {
      var t := ClauseText(keys[0]);
      ClauseTextPlain(keys[0]);
      PercentsMark(t, 's');
      PercentsPlain(t, "%s");
      PercentsAppend(t + "%s", Clauses(keys[1..]));
      PercentsClauses(keys[1..]);
    }
  }

  lemma ArgsForLength(lib: Lib, filters: map<string, string>, keys: seq<string>)
    requires forall j :: 0 <= j < |keys| ==> keys[j] in filters
    ensures |ArgsFor(lib, filters, keys)| == |keys|
  {
  }

  lemma SelectPercents(tablePrefix: string)
    ensures Percents(SelectText(tablePrefix) + "%d") == Percents(tablePrefix) + 1
  {
    var x, y := "SELECT * FROM ", "fec_financial_insights WHERE user_id = ";
    assert NoPercent(x) && NoPercent(y);
    PercentsPlain(x, tablePrefix);
    PercentsPlain(x + tablePrefix, y);
    PercentsMark(x + tablePrefix + y, 'd');
  }

  /** The placeholders of the query are its arguments, one for one: those of the
      table prefix aside, a '%' is either user_id's `%d` or a set filter's `%s`. */
  lemma QueryPlaceholders(lib: Lib, tablePrefix: string, userId: nat, filters: map<string, string>)
    ensures var (q, a) := QueryOf(lib, tablePrefix, userId, filters);
      Percents(q) == Percents(tablePrefix) + |a| && a[0] == IntArg(userId)
  {
    var keys := SetKeys(filters, FilterKeys);
    var head := SelectText(tablePrefix) + "%d";
    SelectPercents(tablePrefix);
    assert NoPercent(OrderText);
    PercentsAppend(head, Clauses(keys));
    PercentsPlain(head + Clauses(keys), OrderText);
    PercentsClauses(keys);
    ArgsForLength(lib, filters, keys);
  }

  /** The query has one argument for the user and one for each filter that is
      set; it starts with the user's condition and ends with the newest-first
      ordering. */
  lemma QueryShape(lib: Lib, tablePrefix: string, userId: nat, filters: map<string, string>)
    ensures var (q, a) := QueryOf(lib, tablePrefix, userId, filters);
      |a| == 1 + |SetKeys(filters, FilterKeys)| &&
      (forall key :: key in SetKeys(filters, FilterKeys) <==> key in FilterKeys && FilterSet(filters, key)) &&
      q[..|SelectText(tablePrefix)|] == SelectText(tablePrefix) &&
      q[|q| - |OrderText|..] == OrderText
  {
    ArgsForLength(lib, filters, SetKeys(filters, FilterKeys));
    SetKeysIff(filters, FilterKeys);
  }

  lemma {:induction false} SetKeysIff(filters: map<string, string>, keys: seq<string>)
    ensures forall key :: key in SetKeys(filters, keys) <==> key in keys && FilterSet(filters, key)
    decreases |keys|
  {
    if keys != [] {
      SetKeysIff(filters, keys[1..]);
      assert forall key :: key in keys <==> key == keys[0] || key in keys[1..];
    }
  }

  /** One `if (isset … && !empty …)` block: a set filter appends its clause and
      its argument together; an unset one appends neither. */
  method AddFilter(lib: Lib, filters: map<string, string>, key: string, query: string, args: seq<QueryArg>)
    returns (query': string, args': seq<QueryArg>)
    ensures query' == query + Clauses(SetKeys(filters, [key]))
    ensures args' == args + ArgsFor(lib, filters, SetKeys(filters, [key]))
  {
    query', args' := query, args;
    if key in filters && Truthy(filters[key]) {
      query' := query + ClauseText(key) + "%s";
      args' := args + [FilterArg(lib, filters, key)];
    }
  }

  lemma SetKeysCons(filters: map<string, string>, key: string, rest: seq<string>)
    ensures SetKeys(filters, [key] + rest) == SetKeys(filters, [key]) + SetKeys(filters, rest)
  {
    assert ([key] + rest)[1..] == rest;
    assert [key][1..] == [];
  }

  lemma SetKeysSplit(filters: map<string, string>)
    ensures SetKeys(filters, FilterKeys) ==
      SetKeys(filters, ["type"]) + SetKeys(filters, ["date_from"]) + SetKeys(filters, ["date_to"]) + SetKeys(filters, ["status"])
  {
    SetKeysCons(filters, "type", ["date_from", "date_to", "status"]);
    SetKeysCons(filters, "date_from", ["date_to", "status"]);
    SetKeysCons(filters, "date_to", ["status"]);
  }

  lemma {:induction false} ClausesAppend(a: seq<string>, b: seq<string>)
    ensures Clauses(a + b) == Clauses(a) + Clauses(b)
    decreases |a|
  {
    if a == [] {
      assert a + b == b;
    } else {
      assert (a + b)[1..] == a[1..] + b;
      ClausesAppend(a[1..], b);
    }
  }

  lemma {:induction false} ArgsForAppend(lib: Lib, filters: map<string, string>, a: seq<string>, b: seq<string>)
    requires forall j :: 0 <= j < |a| ==> a[j] in filters
    requires forall j :: 0 <= j < |b| ==> b[j] in filters
    ensures ArgsFor(lib, filters, a + b) == ArgsFor(lib, filters, a) + ArgsFor(lib, filters, b)
    decreases |a|
  {
    if a == [] {
      assert a + b == b;
    } else {
      assert (a + b)[1..] == a[1..] + b;
      ArgsForAppend(lib, filters, a[1..], b);
    }
  }

  /** Appending the clauses of more keys to those of the keys done. */
  lemma StepClauses(head: string, done: seq<string>, more: seq<string>)
    ensures head + Clauses(done) + Clauses(more) == head + Clauses(done + more)
  {
    ClausesAppend(done, more);
    assert head + Clauses(done) + Clauses(more) == head + (Clauses(done) + Clauses(more));
  }

  /** Appending the arguments of more keys to those of the keys done. */
  lemma StepArgs(lib: Lib, filters: map<string, string>, first: seq<QueryArg>, done: seq<string>, more: seq<string>)
    requires forall j :: 0 <= j < |done| ==> done[j] in filters
    requires forall j :: 0 <= j < |more| ==> more[j] in filters
    ensures first + ArgsFor(lib, filters, done) + ArgsFor(lib, filters, more) == first + ArgsFor(lib, filters, done + more)
  {
    ArgsForAppend(lib, filters, done, more);
    assert first + ArgsFor(lib, filters, done) + ArgsFor(lib, filters, more) ==
           first + (ArgsFor(lib, filters, done) + ArgsFor(lib, filters, more));
  }

  /** The query building of `get_insights_data`. */
  method BuildQuery(lib: Lib, tablePrefix: string, userId: nat, filters: map<string, string>)
    returns (query: string, args: seq<QueryArg>)
    ensures (query, args) == QueryOf(lib, tablePrefix, userId, filters)
  {
    ghost var t, f, u, s := SetKeys(filters, ["type"]), SetKeys(filters, ["date_from"]), SetKeys(filters, ["date_to"]), SetKeys(filters, ["status"]);
    ghost var head, first := SelectText(tablePrefix) + "%d", [IntArg(userId)];
    query := SelectText(tablePrefix) + "%d";
    args := [IntArg(userId)];
    query, args := AddFilter(lib, filters, "type", query, args);
    assert [] + t == t;
    query, args := AddFilter(lib, filters, "date_from", query, args);
    StepClauses(head, t, f);
    StepArgs(lib, filters, first, t, f);
    query, args := AddFilter(lib, filters, "date_to", query, args);
    StepClauses(head, t + f, u);
    StepArgs(lib, filters, first, t + f, u);
    query, args := AddFilter(lib, filters, "status", query, args);
    StepClauses(head, t + f + u, s);
    StepArgs(lib, filters, first, t + f + u, s);
    SetKeysSplit(filters);
    query := query + OrderText;
  }

  // ---------------------------------------------------------------------
  // get_insights_data
  // ---------------------------------------------------------------------

  /** `$wpdb->get_results($wpdb->prepare($query, $args))` */
  type Db = (string, seq<QueryArg>) -> seq<Row>

  /** The decoding step for one row: a non-empty `source` column is decoded into
      `sourceData`; a row without one is left as it is. */
  function WithSourceData(lib: Lib, r: Row): (r': Row)
    ensures r'.(sourceData := r.sourceData) == r
    ensures r.source.Some? && Truthy(r.source.value) ==> r'.sourceData == lib.jsonDecode(r.source.value)
    ensures !(r.source.Some? && Truthy(r.source.value)) ==> r' == r
  {
    if r.source.Some? && Truthy(r.source.value) then r.(sourceData := lib.jsonDecode(r.source.value)) else r
  }

  /** `get_insights_data`: the rows the query returns, each decoded in place. */
  method InsightsData(lib: Lib, db: Db, tablePrefix: string, userId: nat, filters: map<string, string>)
    returns (rows: seq<Row>)
    ensures var (q, a) := QueryOf(lib, tablePrefix, userId, filters);
      |rows| == |db(q, a)| && forall k :: 0 <= k < |rows| ==> rows[k] == WithSourceData(lib, db(q, a)[k])
  {
    var query, args := BuildQuery(lib, tablePrefix, userId, filters);
    var fetched := db(query, args);
    var a := new Row[|fetched|](i requires 0 <= i < |fetched| => fetched[i]);
    var k := 0;
    while k < a.Length
      modifies a
      invariant 0 <= k <= a.Length
      invariant forall j :: 0 <= j < k ==> a[j] == WithSourceData(lib, fetched[j])
      invariant forall j :: k <= j < a.Length ==> a[j] == fetched[j]
    {
      a[k] := WithSourceData(lib, a[k]);
      k := k + 1;
    }
    rows := a[..];
  }

  // ---------------------------------------------------------------------
  // CSV and JSON
  // ---------------------------------------------------------------------

  const CsvHeader: seq<string> := ["Date", "Type", "Description", "Amount", "Due Date", "Status", "Source"]

  /** One CSV record; null prints as "", and the source column is the decoded
      subject when there is one. */
  function CsvRecord(r: Row): (rec: seq<string>)
    ensures |rec| == |CsvHeader|
    ensures rec[0] == r.createdAt && rec[1] == r.insightType && rec[2] == r.description && rec[5] == r.status
    ensures rec[3] == if r.amount.Some? then FinancialAnalyzer.CentsText(r.amount.value) else ""
    ensures rec[4] == if r.dueDate.Some? then r.dueDate.value else ""
    ensures rec[6] == if r.sourceData.Some? && "email_subject" in r.sourceData.value then r.sourceData.value["email_subject"] else ""
  {
    [r.createdAt, r.insightType, r.description,
     if r.amount.Some? then FinancialAnalyzer.CentsText(r.amount.value) else "",
     r.dueDate.GetOr(""), r.status,
     if r.sourceData.Some? && "email_subject" in r.sourceData.value then r.sourceData.value["email_subject"] else ""]
  }

  /** `export_to_csv` before `fputcsv` quoting: no records at all for no insights,
      else the header and one record per insight, in order. */
  method ExportCsv(rows: seq<Row>) returns (records: seq<seq<string>>)
    ensures rows == [] ==> records == []
    ensures rows != [] ==> |records| == |rows| + 1 && records[0] == CsvHeader
    ensures rows != [] ==> forall k :: 0 <= k < |rows| ==> records[k + 1] == CsvRecord(rows[k])
  {
    if rows == [] {
      return [];
    }
    records := [CsvHeader];
    var k := 0;
    while k < |rows|
      invariant 0 <= k <= |rows|
      invariant |records| == k + 1 && records[0] == CsvHeader
      invariant forall j :: 0 <= j < k ==> records[j + 1] == CsvRecord(rows[j])
    {
      records := records + [CsvRecord(rows[k])];
      k := k + 1;
    }
  }

  /** One object of the JSON export, its keys in the order id, type, description,
      amount, due_date, status, created_at, source. */
  datatype JsonRecord = JsonRecord(id: nat, insightType: string, description: string, amount: Option<nat>,
                                   dueDate: Option<string>, status: string, createdAt: string,
                                   source: Option<map<string, string>>)

  function JsonRecordOf(r: Row): JsonRecord {
    JsonRecord(r.id, r.insightType, r.description, r.amount, r.dueDate, r.status, r.createdAt, r.sourceData)
  }

  /** `export_to_json` before encoding: `[]` for no insights, else one object per insight. */
  method ExportJson(rows: seq<Row>) returns (objects: seq<JsonRecord>)
    ensures |objects| == |rows|
    ensures forall k :: 0 <= k < |rows| ==> objects[k] == JsonRecordOf(rows[k])
  {
    objects := [];
    var k := 0;
    while k < |rows|
      invariant 0 <= k <= |rows| && |objects| == k
      invariant forall j :: 0 <= j < k ==> objects[j] == JsonRecordOf(rows[j])
    {
      objects := objects + [JsonRecordOf(rows[k])];
      k := k + 1;
    }
  }

  /** The JSON export carries every stored field and nothing else: the row can be
      read back from its object, but for the raw source text it was decoded from. */
  lemma JsonRecordFaithful(a: Row, b: Row)
    requires JsonRecordOf(a) == JsonRecordOf(b)
    ensures a.(source := None) == b.(source := None)
  {
  }

  // ---------------------------------------------------------------------
  // The totals of the PDF report
  // ---------------------------------------------------------------------

  /** `$insight->due_date && strtotime(due) > time() && strtotime(due) < strtotime('+30 days')` */
  predicate DueWithin(lib: Lib, r: Row, now: int, horizon: int) {
    r.dueDate.Some? && Truthy(r.dueDate.value) && now < lib.strToTime(r.dueDate.value) < horizon
  }

  predicate OpenStatus(r: Row) { r.status == "new" || r.status == "pending" }

  /** What row `r` adds to total_bills, total_due and upcoming_bills. */
  function Contribution(lib: Lib, r: Row, now: int, horizon: int): (c: (nat, nat, nat))
    ensures c.2 <= c.1 <= c.0
  {
    if r.insightType == "bill_due" && r.amount.Some? then
      var a := r.amount.value;
      (a, if OpenStatus(r) then a else 0, if OpenStatus(r) && DueWithin(lib, r, now, horizon) then a else 0)
    else (0, 0, 0)
  }

  /** The three totals over the first rows. */
  function Totals(lib: Lib, rows: seq<Row>, now: int, horizon: int): (t: (nat, nat, nat))
    ensures t.2 <= t.1 <= t.0
  {
    if rows == [] then (0, 0, 0)
    else
      var t := Totals(lib, rows[..|rows| - 1], now, horizon);
      var c := Contribution(lib, rows[|rows| - 1], now, horizon);
      (t.0 + c.0, t.1 + c.1, t.2 + c.2)
  }

  /** A row that is not a bill with an amount leaves every total as it is. */
  lemma TotalsIgnoreOthers(lib: Lib, rows: seq<Row>, r: Row, now: int, horizon: int)
    requires !(r.insightType == "bill_due" && r.amount.Some?)
    ensures Totals(lib, rows + [r], now, horizon) == Totals(lib, rows, now, horizon)
  {
    assert (rows + [r])[..|rows|] == rows;
  }

  /** The totals of two runs of rows add up, so they do not depend on how the rows
      are split or which run comes first. */
  lemma {:induction false} TotalsAppend(lib: Lib, a: seq<Row>, b: seq<Row>, now: int, horizon: int)
    ensures var (ta, tb, t) := (Totals(lib, a, now, horizon), Totals(lib, b, now, horizon), Totals(lib, a + b, now, horizon));
      t == (ta.0 + tb.0, ta.1 + tb.1, ta.2 + tb.2)
    decreases |b|
  {
    if b != [] {
      var b' := b[..|b| - 1];
      assert (a + b)[..|a + b| - 1] == a + b';
      assert (a + b)[|a + b| - 1] == b[|b| - 1];
      TotalsAppend(lib, a, b', now, horizon);
    } else {
      assert a + b == a;
    }
  }

  /** The accumulator loop of `export_to_pdf`. */
  method SummaryTotals(lib: Lib, rows: seq<Row>, now: int, horizon: int)
    returns (totalBills: nat, totalDue: nat, upcomingBills: nat)
    ensures (totalBills, totalDue, upcomingBills) == Totals(lib, rows, now, horizon)
    ensures upcomingBills <= totalDue <= totalBills
  {
    totalBills, totalDue, upcomingBills := 0, 0, 0;
    var k := 0;
    while k < |rows|
      invariant 0 <= k <= |rows|
      invariant (totalBills, totalDue, upcomingBills) == Totals(lib, rows[..k], now, horizon)
    {
      assert rows[..k + 1][..k] == rows[..k];
      var r := rows[k];
      if r.insightType == "bill_due" && r.amount.Some? {
        totalBills := totalBills + r.amount.value;
        if r.status == "new" || r.status == "pending" {
          totalDue := totalDue + r.amount.value;
          if r.dueDate.Some? && Truthy(r.dueDate.value) && lib.strToTime(r.dueDate.value) > now
             && lib.strToTime(r.dueDate.value) < horizon {
            upcomingBills := upcomingBills + r.amount.value;
          }
        }
      }
      k := k + 1;
    }
    assert rows[..k] == rows;
  }

  // ---------------------------------------------------------------------
  // handle_export_request
  // ---------------------------------------------------------------------

  /** What the request handler needs from outside: the insights query, the file-name
      stamp `date('Ymd-His')`, the upload URL, whether the file write succeeds, and
      the file name `export_to_pdf` saves to when it has insights (None when TCPDF
      is missing or the write fails). */
  datatype Env = Env(db: Db, tablePrefix: string, stamp: string, uploadUrl: string, writeOk: bool,
                     pdfFile: Option<string>)

  datatype Response = Success(message: string, downloadUrl: string) | Failure(message: string)

  const RequestFilterKeys: seq<string> := ["type", "date_from", "date_to", "status"]

  /** The filters copied from the request: exactly the filter keys it carries, sanitised. */
  function RequestFilters(lib: Lib, post: map<string, string>): (f: map<string, string>)
    ensures forall k :: k in f <==> k in post && k in RequestFilterKeys
    ensures forall k :: k in f ==> f[k] == lib.sanitizeText(post[k])
  {
    map k | k in post && k in RequestFilterKeys :: lib.sanitizeText(post[k])
  }

  /** The requested format: "csv" when the request names none. */
  function FormatOf(lib: Lib, post: map<string, string>): string {
    if "format" in post then lib.sanitizeText(post["format"]) else "csv"
  }

  /** The rows an export for this user and these filters sees. */
  function RowsOf(lib: Lib, env: Env, userId: nat, filters: map<string, string>): seq<Row> {
    var (q, a) := QueryOf(lib, env.tablePrefix, userId, filters);
    seq(|env.db(q, a)|, k requires 0 <= k < |env.db(q, a)| => WithSourceData(lib, env.db(q, a)[k]))
  }

  /** A written export file's download response. */
  function Written(env: Env, kind: string, ext: string): Response {
    if !env.writeOk then Failure("Failed to write " + kind + " file.")
    else Success(kind + " export successful.", env.uploadUrl + "/financial-insights-" + env.stamp + "." + ext)
  }

  /** The `switch ($format)` of `handle_export_request`, given the rows the
      export sees: CSV and JSON need rows and a written file; PDF needs rows and
      a PDF file; any other format is refused. */
  function FormatResponse(env: Env, format: string, rows: seq<Row>): (r: Response)
    ensures format !in ["csv", "pdf", "json"] ==> r == Failure("Invalid export format.")
    ensures r.Success? ==> rows != []
    ensures format in ["csv", "json"] && rows == [] ==> r == Failure("No data to export.")
    ensures format == "csv" && rows != [] ==> r == Written(env, "CSV", "csv")
    ensures format == "json" && rows != [] ==> r == Written(env, "JSON", "json")
    ensures format == "pdf" ==>
      (r.Success? <==> rows != [] && env.pdfFile.Some?) &&
      (r.Success? ==> r == Success("PDF export successful.", env.uploadUrl + "/" + env.pdfFile.value)) &&
      (r.Failure? ==> r.message == "PDF export failed. TCPDF may not be available.")
  {
    if format == "csv" then
      (if rows == [] then Failure("No data to export.") else Written(env, "CSV", "csv"))
    else if format == "pdf" then
      (if rows == [] || env.pdfFile.None? then Failure("PDF export failed. TCPDF may not be available.")
       else Success("PDF export successful.", env.uploadUrl + "/" + env.pdfFile.value))
    else if format == "json" then
      (if rows == [] then Failure("No data to export.") else Written(env, "JSON", "json"))
    else Failure("Invalid export format.")
  }

  /** `handle_export_request` (the nonce check is not modelled): a logged-out
      user is refused, and otherwise the requested format decides, over the
      rows of the requested filters. */
  function ExportResponse(lib: Lib, env: Env, loggedIn: bool, userId: nat, post: map<string, string>): (r: Response)
    ensures !loggedIn ==> r == Failure("You must be logged in to export data.")
    ensures loggedIn ==> r == FormatResponse(env, FormatOf(lib, post), RowsOf(lib, env, userId, RequestFilters(lib, post)))
    ensures r.Success? ==> loggedIn && RowsOf(lib, env, userId, RequestFilters(lib, post)) != []
  {
    if !loggedIn then Failure("You must be logged in to export data.")
    else FormatResponse(env, FormatOf(lib, post), RowsOf(lib, env, userId, RequestFilters(lib, post)))
  }

  /** A request that names no format is a CSV export. */
  lemma FormatDefaultsToCsv(lib: Lib, env: Env, userId: nat, post: map<string, string>)
    requires "format" !in post
    ensures var rows := RowsOf(lib, env, userId, RequestFilters(lib, post));
      ExportResponse(lib, env, true, userId, post) == if rows == [] then Failure("No data to export.") else Written(env, "CSV", "csv")
  {
  }
}
