/** `Financial_Email_Client`, the plugin object: default options, the cron hook,
    the insight rows it inserts, and the two AJAX handlers that run the analyzer.
    The WordPress option table, cron table and insights table are fields of one
    `Site` object; the random password, the clock and the IMAP session are
    parameters. */
module Plugin {
  import opened Text
  import opened Foreign
  import opened Regex
  import FinancialAnalyzer
  import EmailConnector

  type Insight = FinancialAnalyzer.Insight

  // ---------------------------------------------------------------------
  // Options
  // ---------------------------------------------------------------------

  /** A stored option: a string or a list of strings. */
  datatype OptionValue = Text(s: string) | List(items: seq<string>)

  /** `get_option` read as a condition: a missing option is `false`. */
  predicate OptionTruthy(o: map<string, OptionValue>, name: string) {
    name in o && match o[name]
      case Text(s) => Truthy(s)
      case List(items) => items != []
  }

  /** The defaults `set_default_options` seeds, in order; the encryption key is the
      64-character password `wp_generate_password` produced. */
  function Defaults(encryptionKey: string): seq<(string, OptionValue)> {
    [("fec_encryption_key", Text(encryptionKey)),
     ("fec_scan_frequency", Text("hourly")),
     ("fec_providers_enabled", List(["gmail", "outlook", "yahoo"])),
     ("fec_analysis_types", List(["price_increase", "bill_due", "subscription"]))]
  }

  /** The options after seeding `defaults` in order: each is written only where the
      current option is falsy. */
  function Seeded(o: map<string, OptionValue>, defaults: seq<(string, OptionValue)>): map<string, OptionValue>
    decreases |defaults|
  {
    if defaults == [] then o
    else
      var (name, value) := defaults[0];
      Seeded(if OptionTruthy(o, name) then o else o[name := value], defaults[1..])
  }

  predicate DefaultValuesTruthy(defaults: seq<(string, OptionValue)>) {
    forall j :: 0 <= j < |defaults| ==> OptionTruthy(map[defaults[j].0 := defaults[j].1], defaults[j].0)
  }

  /** Seeding never touches a truthy option or an option it has no default for,
      and leaves every default name truthy when the defaults are. */
  lemma {:induction false} SeededKeeps(o: map<string, OptionValue>, defaults: seq<(string, OptionValue)>)
    ensures forall name :: OptionTruthy(o, name) ==> name in Seeded(o, defaults) && Seeded(o, defaults)[name] == o[name]
    ensures forall name :: (forall j :: 0 <= j < |defaults| ==> defaults[j].0 != name) ==>
      (name in o <==> name in Seeded(o, defaults)) && (name in o ==> Seeded(o, defaults)[name] == o[name])
    ensures DefaultValuesTruthy(defaults) ==> forall j :: 0 <= j < |defaults| ==> OptionTruthy(Seeded(o, defaults), defaults[j].0)
    decreases |defaults|
  {
    if defaults != [] {
      var (name, value) := defaults[0];
      var o' := if OptionTruthy(o, name) then o else o[name := value];
      SeededKeeps(o', defaults[1..]);
      if DefaultValuesTruthy(defaults) {
        assert DefaultValuesTruthy(defaults[1..]) by {
          forall j | 0 <= j < |defaults[1..]|
            ensures OptionTruthy(map[defaults[1..][j].0 := defaults[1..][j].1], defaults[1..][j].0)
          {
            assert defaults[1..][j] == defaults[j + 1];
          }
        }
        assert OptionTruthy(o', name);
        forall j | 0 <= j < |defaults|
          ensures OptionTruthy(Seeded(o, defaults), defaults[j].0)
        {
          if j > 0 {
            assert defaults[j] == defaults[1..][j - 1];
          }
        }
      }
    }
  }

  /** When every default is truthy, seeding a second time, with any key, changes nothing. */
  lemma {:induction false} SeededIdempotent(o: map<string, OptionValue>, defaults: seq<(string, OptionValue)>,
                                            again: seq<(string, OptionValue)>)
    requires forall name :: (exists j :: 0 <= j < |again| && again[j].0 == name) ==>
      OptionTruthy(Seeded(o, defaults), name)
    ensures Seeded(Seeded(o, defaults), again) == Seeded(o, defaults)
  {
    NothingToSeed(Seeded(o, defaults), again);
  }

  lemma {:induction false} NothingToSeed(o: map<string, OptionValue>, defaults: seq<(string, OptionValue)>)
    requires forall name :: (exists j :: 0 <= j < |defaults| && defaults[j].0 == name) ==> OptionTruthy(o, name)
    ensures Seeded(o, defaults) == o
    decreases |defaults|
  {
    if defaults != [] {
      assert OptionTruthy(o, defaults[0].0) by {
        assert defaults[0].0 == defaults[0].0;
      }
      forall name | exists j :: 0 <= j < |defaults[1..]| && defaults[1..][j].0 == name
        ensures OptionTruthy(o, name)
      {
        var j :| 0 <= j < |defaults[1..]| && defaults[1..][j].0 == name;
        assert defaults[j + 1].0 == name;
      }
      NothingToSeed(o, defaults[1..]);
    }
  }

  /** The plugin's defaults, with a non-empty key, are all truthy, so activating
      the plugin twice seeds nothing the second time. */
  lemma DefaultsSeedOnce(o: map<string, OptionValue>, key: string, key2: string)
    requires |key| == 64
    ensures Seeded(Seeded(o, Defaults(key)), Defaults(key2)) == Seeded(o, Defaults(key))
  {
    var d := Defaults(key);
    assert Truthy(key) by { assert |key| != |"0"|; }
    assert DefaultValuesTruthy(d);
    SeededKeeps(o, d);
    forall name | exists j :: 0 <= j < |Defaults(key2)| && Defaults(key2)[j].0 == name
      ensures OptionTruthy(Seeded(o, d), name)
    {
      var j :| 0 <= j < |Defaults(key2)| && Defaults(key2)[j].0 == name;
      assert d[j].0 == name;
    }
    SeededIdempotent(o, d, Defaults(key2));
  }

  // ---------------------------------------------------------------------
  // Stored insights
  // ---------------------------------------------------------------------

  /** The row `save_financial_insights` inserts. */
  datatype InsightRow = InsightRow(userId: nat, emailId: string, insightType: string, description: string,
                                   amount: Option<nat>, dueDate: Option<FinancialAnalyzer.DateValue>,
                                   status: string, createdAt: string)

  /** The `amount` key of an insight: price increases have none. */
  function AmountOf(i: Insight): Option<nat> {
    match i
    case BillDue(_, a, _) => a
    case PriceIncrease(_, _, _, _, _) => None
    case SubscriptionRenewal(_, a, _) => a
    case PaymentConfirmation(a, _, _) => a
  }

  /** The `due_date` key of an insight: only a bill has one. */
  function DueDateOf(i: Insight): Option<FinancialAnalyzer.DateValue> {
    if i.BillDue? then i.dueDate else None
  }

  function RowOf(userId: nat, emailId: string, i: Insight, now: string): (r: InsightRow)
    ensures r.status == "new" && r.userId == userId && r.emailId == emailId && r.createdAt == now
    ensures r.insightType == i.TypeName() && r.description == i.Description()
    ensures r.amount.Some? ==> !i.PriceIncrease?
    ensures r.dueDate.Some? ==> i.BillDue?
    ensures r.amount == match i
                        case BillDue(_, a, _) => a
                        case PriceIncrease(_, _, _, _, _) => None
                        case SubscriptionRenewal(_, a, _) => a
                        case PaymentConfirmation(a, _, _) => a
    ensures r.dueDate == if i.BillDue? then i.dueDate else None
  {
    InsightRow(userId, emailId, i.TypeName(), i.Description(), AmountOf(i), DueDateOf(i), "new", now)
  }

  datatype Cron = Cron(timestamp: int, recurrence: string)

  const HourlyHook := "fec_hourly_email_check"

  datatype Response<T> = JsonSuccess(data: T) | JsonError(message: string)

  /** What `analyze_email` receives for a message read by `get_email_by_id`: its
      decoded subject, its selected body and its sender's address. */
  function ReadEmail(lib: Lib, m: EmailConnector.Message): FinancialAnalyzer.Email {
    var h := m.header.GetOr(EmailConnector.NoHeader);
    FinancialAnalyzer.Email(EmailConnector.MimeDecoded(lib, h.subject.GetOr("")),
                            EmailConnector.MessageBodyOf(lib, m, m.structure), EmailConnector.FromAddress(h))
  }

  class Site {
    var options: map<string, OptionValue>
    var cron: map<string, Cron>
    var insights: seq<InsightRow>

    constructor(options: map<string, OptionValue>, cron: map<string, Cron>, insights: seq<InsightRow>)
      ensures this.options == options && this.cron == cron && this.insights == insights
    {
      this.options := options;
      this.cron := cron;
      this.insights := insights;
    }

    /** `set_default_options`. */
    method SetDefaultOptions(encryptionKey: string)
      modifies this
      ensures options == Seeded(old(options), Defaults(encryptionKey))
      ensures cron == old(cron) && insights == old(insights)
    {
      var defaults := Defaults(encryptionKey);
      var k := 0;
      while k < |defaults|
        invariant 0 <= k <= |defaults|
        invariant Seeded(options, defaults[k..]) == Seeded(old(options), defaults)
        invariant cron == old(cron) && insights == old(insights)
      {
        var (name, value) := defaults[k];
        assert defaults[k..][1..] == defaults[k + 1..];
        if !OptionTruthy(options, name) {
          options := options[name := value];
        }
        k := k + 1;
      }
    }

    /** `schedule_events`: the hourly check is scheduled only when it is not already. */
    method ScheduleEvents(now: int)
      modifies this
      ensures HourlyHook in old(cron) ==> cron == old(cron)
      ensures HourlyHook !in old(cron) ==> cron == old(cron)[HourlyHook := Cron(now, "hourly")]
      ensures options == old(options) && insights == old(insights)
    {
      if HourlyHook !in cron {
        cron := cron[HourlyHook := Cron(now, "hourly")];
      }
    }

    /** `save_financial_insights`: one row per insight, in order, appended to the table. */
    method SaveFinancialInsights(userId: nat, emailId: string, found: seq<Insight>, now: string)
      modifies this
      ensures insights == old(insights) + seq(|found|, j requires 0 <= j < |found| => RowOf(userId, emailId, found[j], now))
      ensures options == old(options) && cron == old(cron)
    {
      var k := 0;
      while k < |found|
        invariant 0 <= k <= |found|
        invariant insights == old(insights) + seq(k, j requires 0 <= j < k => RowOf(userId, emailId, found[j], now))
        invariant options == old(options) && cron == old(cron)
      {
        insights := insights + [RowOf(userId, emailId, found[k], now)];
        k := k + 1;
      }
    }

    /** `analyze_email_content`: the email is analysed, and its insights saved, only
        when it could be read; they are saved only when there are some. `uid` is
        the number PHP reads from `emailId`, and `inbox` is the open inbox or the
        error of reaching it. */
    method AnalyzeEmailContent(lib: Lib, search: Engine, userId: nat, emailId: string, uid: nat,
                               inbox: Result<seq<EmailConnector.Message>>, now: string)
      returns (r: Response<seq<Insight>>)
      requires Shaped(search)
      modifies this
      ensures r.JsonSuccess? ==> r.data != []
      ensures r.JsonSuccess? ==> insights == old(insights) + seq(|r.data|, j requires 0 <= j < |r.data| => RowOf(userId, emailId, r.data[j], now))
      ensures r.JsonError? ==> insights == old(insights)
      ensures inbox.Err? ==> r == JsonError(inbox.message)
      ensures inbox.Ok? ==>
        var n := EmailConnector.MsgNo(inbox.value, uid, 0);
        (n == 0 ==> r == JsonError("Email not found.")) &&
        (n != 0 ==>
          var found := FinancialAnalyzer.AnalysisOf(search, ReadEmail(lib, inbox.value[n - 1]));
          r == if found.Some? then JsonSuccess(found.value) else JsonError("No financial information found in this email."))
      ensures options == old(options) && cron == old(cron)
    {
      var email := EmailConnector.EmailById(lib, inbox, uid);
      if email.Err? {
        return JsonError(email.message);
      }
      var e := email.value;
      assert FinancialAnalyzer.Email(e.subject, e.body, e.from) == ReadEmail(lib, inbox.value[EmailConnector.MsgNo(inbox.value, uid, 0) - 1]);
      r := AnalyzeAndSave(search, userId, emailId, FinancialAnalyzer.Email(e.subject, e.body, e.from), now);
    }

    /** The second half of `analyze_email_content`, once the email is read: the
        insights are saved and returned when the analyzer finds some. */
    method AnalyzeAndSave(search: Engine, userId: nat, emailId: string, e: FinancialAnalyzer.Email, now: string)
      returns (r: Response<seq<Insight>>)
      requires Shaped(search)
      modifies this
      ensures var found := FinancialAnalyzer.AnalysisOf(search, e);
        r == if found.Some? then JsonSuccess(found.value) else JsonError("No financial information found in this email.")
      ensures r.JsonSuccess? ==> r.data != []
      ensures r.JsonSuccess? ==> insights == old(insights) + seq(|r.data|, j requires 0 <= j < |r.data| => RowOf(userId, emailId, r.data[j], now))
      ensures r.JsonError? ==> insights == old(insights)
      ensures options == old(options) && cron == old(cron)
    {
      var found := FinancialAnalyzer.AnalyzeEmail(search, e);
      if found.Some? {
        SaveFinancialInsights(userId, emailId, found.value, now);
        r := JsonSuccess(found.value);
      } else {
        r := JsonError("No financial information found in this email.");
      }
    }
  }

  /** A saved insight keeps its type and description and is always 'new'; its
      amount and due date are null exactly when the insight has none, and a price
      increase's percentage, prices and date are not stored. */
  lemma RowOfFields(userId: nat, emailId: string, i: Insight, now: string)
    ensures var r := RowOf(userId, emailId, i, now);
      r.status == "new" &&
      (r.amount.None? <==> i.PriceIncrease? || (i.BillDue? && i.amount.None?) ||
                           (i.SubscriptionRenewal? && i.amount.None?) || (i.PaymentConfirmation? && i.amount.None?)) &&
      (r.dueDate.Some? <==> i.BillDue? && i.dueDate.Some?)
  {
  }

  // ---------------------------------------------------------------------
  // fetch_user_emails
  // ---------------------------------------------------------------------

  /** A listed message and what the analyzer found in it (`financial_data`). */
  datatype Listed = Listed(summary: EmailConnector.Summary, financialData: Option<seq<Insight>>)

  /** What `analyze_email` receives for a listed message: a summary has no body. */
  function SummaryEmail(m: EmailConnector.Summary): FinancialAnalyzer.Email {
    FinancialAnalyzer.Email(m.subject, "", m.from)
  }

  /** A listed message once analysed. */
  function Analysed(search: Engine, m: EmailConnector.Summary): Listed
    requires Shaped(search)
  {
    Listed(m, FinancialAnalyzer.AnalysisOf(search, SummaryEmail(m)))
  }

  /** One pass of the loop body: `financial_data` is set only when the result is truthy. */
  method EnrichOne(search: Engine, l: Listed) returns (l': Listed)
    requires Shaped(search) && l.financialData.None?
    ensures l' == Analysed(search, l.summary)
  {
    l' := l;
    var found := FinancialAnalyzer.AnalyzeEmail(search, SummaryEmail(l.summary));
    if found.Some? {
      l' := l.(financialData := found);
    }
  }

  /** The enrichment loop: each message, in order, gains `financial_data` exactly
      when the analyzer's result is truthy, and is otherwise unchanged. */
  method Enrich(search: Engine, messages: seq<EmailConnector.Summary>) returns (r: seq<Listed>)
    requires Shaped(search)
    ensures |r| == |messages|
    ensures forall k :: 0 <= k < |r| ==> r[k] == Analysed(search, messages[k])
    ensures forall k :: 0 <= k < |r| ==> r[k].summary == messages[k]
  {
    r := [];
    var k := 0;
    while k < |messages|
      invariant 0 <= k <= |messages| && |r| == k
      invariant forall j :: 0 <= j < k ==> r[j] == Analysed(search, messages[j])
    {
      var l := EnrichOne(search, Listed(messages[k], None));
      r := r + [l];
      k := k + 1;
    }
  }

  /** Since a summary carries no body, and every check needs a figure or a date
      from the body, no listed message ever gains `financial_data`. */
  lemma ListedFindNothing(search: Engine, messages: seq<EmailConnector.Summary>, r: seq<Listed>)
    requires Shaped(search) && NothingInEmpty(search)
    requires |r| == |messages|
    requires forall k :: 0 <= k < |r| ==> r[k] == Analysed(search, messages[k])
    ensures forall k :: 0 <= k < |r| ==> r[k].summary == messages[k] && r[k].financialData.None?
  {
    forall k | 0 <= k < |r|
      ensures r[k].financialData.None?
    {
      FinancialAnalyzer.EmptyBodyFindsNothing(search, messages[k].subject, messages[k].from);
    }
  }

  /** The request parameters: the folder defaults to INBOX, the page to 1, and a
      page always holds 20 messages. `intVal` is PHP's `intval` on a string. */
  function FetchParams(lib: Lib, intVal: string -> int, post: map<string, string>): (p: (string, int, nat))
    ensures "folder" !in post ==> p.0 == "INBOX"
    ensures "folder" in post ==> p.0 == lib.sanitizeText(post["folder"])
    ensures "page" !in post ==> p.1 == 1
    ensures "page" in post ==> p.1 == intVal(post["page"])
    ensures p.2 == 20
  {
    (if "folder" in post then lib.sanitizeText(post["folder"]) else "INBOX",
     if "page" in post then intVal(post["page"]) else 1,
     20)
  }

  datatype Listing = Listing(result: EmailConnector.FetchResult, messages: seq<Listed>)

  /** `fetch_user_emails` once the user's accounts are known: no account is an
      error, a failed connection is an error carrying its message, and otherwise
      the requested page of the folder, each message analysed. */
  method FetchUserEmails(lib: Lib, intVal: string -> int, search: Engine, post: map<string, string>, hasAccount: bool,
                         connection: Result<EmailConnector.Mailbox>) returns (r: Response<Listing>)
    requires Shaped(search)
    ensures !hasAccount ==> r == JsonError("No email accounts found.")
    ensures hasAccount && connection.Err? ==> r == JsonError("Connection error: " + connection.message)
    ensures hasAccount && connection.Ok? ==> r.JsonSuccess?
    ensures hasAccount && connection.Ok? && r.JsonSuccess? ==>
      var (folder, page, perPage) := FetchParams(lib, intVal, post);
      r.data.result == EmailConnector.FetchOf(lib, connection.value, folder, page, perPage) &&
      |r.data.messages| == |r.data.result.messages| &&
      forall k :: 0 <= k < |r.data.messages| ==> r.data.messages[k] == Analysed(search, r.data.result.messages[k])
  {
    var (folder, page, perPage) := FetchParams(lib, intVal, post);
    if !hasAccount {
      return JsonError("No email accounts found.");
    }
    if connection.Err? {
      return JsonError("Connection error: " + connection.message);
    }
    var emails := EmailConnector.FetchEmails(lib, connection.value, folder, page, perPage);
    var listed := Enrich(search, emails.messages);
    r := JsonSuccess(Listing(emails, listed));
  }
}
