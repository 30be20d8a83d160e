# Financial Email Client — a verified model of the email-to-insight pipeline

The plugin reads a user's mailbox over IMAP and lists it a page at a time. It
can read a single message in full and scan messages for four kinds of
financial insight: a bill that is due, a price increase, a subscription
renewal and a payment confirmation. Found insights are stored in a database
table, shown on a dashboard, and exported as CSV, JSON or a PDF summary.

This project models the core of that pipeline in Dafny and proves what it
promises. One module per PHP file:

- `FinancialAnalyzer` (financial_analyzer.dfy) models `FEC_Financial_Analyzer`:
  - the four keyword gates;
  - the first-match date, amount, percentage and price extractors;
  - the four checks and `analyze_email`.
- `EmailConnector` (email_connector.dfy) models `FEC_Email_Connector`:
  - provider settings;
  - the newest-first pagination of `fetch_emails`;
  - MIME structure queries, body selection, transfer decoding and previews;
  - the flags block, address lists and encoded-word decoding;
  - `get_email_by_id` once the inbox is open.
- `EmailParser` (email_parser.dfy) models `FEC_Email_Parser`: plain text,
  links, dates and amounts.
- `DataExporter` (data_exporter.dfy) models `FEC_Data_Exporter`:
  - the filtered insights query;
  - the CSV and JSON row shapes;
  - the PDF summary totals;
  - the export request dispatch.
- `InsightsView` (financial_insights_view.dfy) models the insights
  dashboard: counters, the three top-five lists and the due-status label.
- `Plugin` (plugin.dfy) models `Financial_Email_Client`:
  - a `Site` class whose fields are the option, cron and insights tables;
  - default-option seeding, the cron hook and insight persistence;
  - the two AJAX handlers that run the analyzer.
- `AdminSettings` (admin_settings.dfy) models `FEC_Admin_Settings`: the
  settings sanitiser and the defaults the form shows.
- Two support modules:
  - `Regex` (regex.dfy) holds a hand-written matcher for every regular
    expression the core uses. It implements PCRE's leftmost-first,
    backtracking-order semantics for `preg_match` and `preg_match_all`.
  - `Text` (text.dfy) holds ASCII character classes, case folding,
    `stripos`, digit strings and PHP truthiness.
- `Foreign` (foreign.dfy) is a record of the library functions the core calls
  but does not define. Each is uninterpreted and passed as a parameter:
  - `base64_decode`, `quoted_printable_decode`, `strip_tags`;
  - `html_entity_decode`, `imap_mime_header_decode`, `iconv`;
  - `strtotime`/`date`, `json_decode`, `sanitize_text_field`.

The regular-expression engines are parameters too:

- The analyzer takes `search: Engine` and needs only `Shaped(search)`.
- The parser takes `all: AllEngine` and needs only `Lawful(all)`.
- `Regex.PcreShaped` and `Regex.PcreAllLawful` prove that the PCRE model
  meets these conditions.

So every analyzer and parser property holds for the exact PCRE model and for
any engine with the same shape.

Representations:

- Amounts found by the amount patterns are integer cents.
- Percentages and "from X to Y" prices are the exact decimal values of their
  captures.
- Dates are `Ymd(year, month, day)` when the captures name a calendar date.
  Otherwise they are `Unresolved(text)`. For a numeric date the text is the
  `"$year-$month-$day"` string `strtotime` is given. For a month word that is
  not an English month name, the text holds the word itself, because the month
  PHP would put in its place depends on the clock (see `FinancialAnalyzer.MonthNumber`
  under "Left out").

## Model

| member | source | states |
|---|---|---|
| Text.Lower | includes/class-email-connector.php:107 | ASCII lower-casing keeps letters, digits and whitespace in their classes and leaves no upper-case letter |
| Text.LowerStr | includes/class-email-connector.php:107 | `strtolower` keeps the length and lower-cases each character in place |
| Text.LowerStrIdempotent | includes/class-email-connector.php:107 | lower-casing twice is lower-casing once |
| Text.FirstLitEnd | includes/class-financial-analyzer.php:325 | an alternation of literals matches the first alternative, in order, that occurs at the position; None exactly when none occurs there |
| Text.StrIPosSpec | includes/class-financial-analyzer.php:76 | `stripos` reports the first position at or after the start where the needle occurs ignoring case, and false only when it occurs nowhere |
| Text.IContainsIff | includes/class-financial-analyzer.php:76 | `stripos(...) !== false` holds exactly when the needle occurs somewhere, ignoring case |
| Text.IContainsOfInfix | includes/class-financial-analyzer.php:76 | a needle embedded in a text in any capitalisation is found |
| Text.SpaceEnd | includes/class-email-parser.php:40 | the greedy `\s+` run: every character up to the end is whitespace and the next one is not |
| Text.DigitEnd | includes/class-financial-analyzer.php:374 | the greedy `\d+` run, with the same maximality |
| Text.LetterEnd | includes/class-financial-analyzer.php:329 | the greedy `[A-Za-z]+` run, with the same maximality |
| Text.DigitsValueZero | includes/class-financial-analyzer.php:174 | a digit string is worth zero exactly when all its digits are 0 |
| Text.DigitsValueAppend | includes/class-financial-analyzer.php:382 | the value of joined digit strings is the prefix shifted by the suffix's length plus the suffix |
| Text.Unpunctuated | includes/class-financial-analyzer.php:382 | `str_replace(',', '', …)` with the decimal point dropped as well: no ',' or '.' is left, and a string of digits is unchanged |
| Text.NatToDigits | includes/class-financial-analyzer.php:382 | the decimal rendering of a number is a non-empty digit string |
| Text.NatToDigitsValue | includes/class-financial-analyzer.php:382 | reading that rendering back gives the number |
| Text.PadDigits | includes/class-financial-analyzer.php:348 | `date('m', …)`: a number written with exactly the given count of digits |
| Text.PadDigitsValue | includes/class-financial-analyzer.php:348 | reading a zero-padded number back gives the number |
| Text.Take | includes/class-email-connector.php:418 | `substr($s, 0, n)`: a prefix of length min(n, length) |
| Regex.CentsEnd | includes/class-financial-analyzer.php:374 | `(?:\.\d{2})?` either takes nothing or exactly a '.' and two digits |
| Regex.AmountEnd | includes/class-financial-analyzer.php:374-376 | an amount exists at a position exactly when a digit is there, and is then at least one character long |
| Regex.DecimalEnd | includes/class-financial-analyzer.php:149-150 | a decimal exists at a position exactly when a digit is there |
| Regex.UpTo2Digits | includes/class-financial-analyzer.php:325 | `\d{1,2}` takes one or two digits, and none exactly when no digit is there |
| Regex.DateAt | includes/class-financial-analyzer.php:325-334 | a date match captures digits where the form has `\d`, letters where it has `[A-Za-z]+`, and a four-digit year last |
| Regex.DatePatAt | includes/class-financial-analyzer.php:323-335 | a date-pattern match starts where it is tried, is non-empty and has the form's three captures |
| Regex.CloseQuote | includes/class-email-parser.php:55 | `(.*?)\1` stops at the first matching quote, with no quote or line feed before it |
| Regex.AnchorHrefAt | includes/class-email-parser.php:55 | a link match ends just after the closing quote, and capture 2 is exactly the quoted value |
| Regex.MatchAt | includes/class-financial-analyzer.php:338 | whatever the pattern, a match starts where it is tried, is non-empty and has the pattern's captures |
| Regex.Search | includes/class-financial-analyzer.php:338 | `preg_match` reports a match within the text with the pattern's captures |
| Regex.SearchLeftmost | includes/class-financial-analyzer.php:338 | `preg_match` reports the leftmost match; no match means no position matches |
| Regex.SearchFinds | includes/class-financial-analyzer.php:338 | conversely, a match with no match before it is what `preg_match` reports |
| Regex.AllMatchesOrdered | includes/class-email-parser.php:84 | `preg_match_all` reports genuine matches in text order without overlap |
| Regex.PcreShaped | includes/class-financial-analyzer.php:338 | the PCRE model meets the analyzer's engine condition |
| Regex.PcreNothingInEmpty | includes/class-financial-analyzer.php:338 | no pattern matches the empty text |
| Regex.PcreAllLawful | includes/class-email-parser.php:55 | the PCRE model meets the parser's engine condition, link captures included |
| FinancialAnalyzer.HasKeyword | includes/class-financial-analyzer.php:73-84 | the gate opens exactly when some keyword occurs, ignoring case, in the subject or the body |
| FinancialAnalyzer.GateOpensOnKeyword | includes/class-financial-analyzer.php:76 | a keyword written in any capitalisation anywhere in the subject opens the gate |
| FinancialAnalyzer.FirstHit | includes/class-financial-analyzer.php:337-338 | the pattern found is in the list and its match is what the engine reports |
| FinancialAnalyzer.FirstHitSpec | includes/class-financial-analyzer.php:337-338 | no earlier pattern matches; nothing found means no pattern matches |
| FinancialAnalyzer.FirstHitEmptyText | includes/class-financial-analyzer.php:337-338 | nothing is found in an empty text |
| FinancialAnalyzer.Resolve | includes/class-financial-analyzer.php:340-345 | `Y-m-d` of year-month-day: a calendar date exactly when the numbers name one, with month from group 1 and day from group 2 |
| FinancialAnalyzer.LookupMonth | includes/class-financial-analyzer.php:348 | a month name resolves to a month between 1 and 12 |
| FinancialAnalyzer.MonthNumber | includes/class-financial-analyzer.php:348 | `date('m', strtotime(name))` gives a month between 1 and 12 |
| FinancialAnalyzer.MonthNumberIgnoresCase | includes/class-financial-analyzer.php:348 | month names are read without regard to case |
| FinancialAnalyzer.NamedMonth | includes/class-financial-analyzer.php:346-357 | a named-month date resolves exactly when the name is a month and the day exists in it |
| FinancialAnalyzer.LettersNotNumeric | includes/class-financial-analyzer.php:346 | a captured word of letters is not `is_numeric` |
| FinancialAnalyzer.NormaliseByForm | includes/class-financial-analyzer.php:340-358 | the `is_numeric` cascade always reads the captures the way the matching form means them |
| FinancialAnalyzer.FindDate | includes/class-financial-analyzer.php:337-362 | the date loop returns the first pattern's match that normalises |
| FinancialAnalyzer.DateOfFirstHit | includes/class-financial-analyzer.php:337-362 | the date found is the form-wise reading of the first pattern that matches; none when none matches |
| FinancialAnalyzer.DateOfIsCalendarDate | includes/class-financial-analyzer.php:345 | a resolved date is always a real calendar date |
| FinancialAnalyzer.UnpunctuatedAppend | includes/class-financial-analyzer.php:382 | removing separators distributes over joining |
| FinancialAnalyzer.CentsTextDigits | includes/class-financial-analyzer.php:382 | an amount written with two decimals has a point, and without punctuation is its digits |
| FinancialAnalyzer.AmountCentsRoundTrip | includes/class-financial-analyzer.php:382 | reading back an amount written with two decimals, separators removed, gives the same cents |
| FinancialAnalyzer.AmountOf | includes/class-financial-analyzer.php:371-387 | an amount is found exactly when one of the three amount patterns matches, and it is the cents of the first matching pattern's capture |
| FinancialAnalyzer.FindAmount | includes/class-financial-analyzer.php:379-386 | the amount loop returns the first matching pattern's capture, in cents |
| FinancialAnalyzer.DotIndex | includes/class-financial-analyzer.php:156 | the first '.' of a decimal, or none |
| FinancialAnalyzer.DecimalValue | includes/class-financial-analyzer.php:156 | `floatval` of a decimal capture is non-negative |
| FinancialAnalyzer.DecimalValueZero | includes/class-financial-analyzer.php:174 | a decimal is zero, so falsy, exactly when all its digits are 0 |
| FinancialAnalyzer.PercentageOf | includes/class-financial-analyzer.php:148-159 | a percentage is found exactly when one of the two percentage patterns matches, and it is the value of the first matching pattern's capture |
| FinancialAnalyzer.FindPercentage | includes/class-financial-analyzer.php:154-159 | the percentage loop returns the first matching pattern's value |
| FinancialAnalyzer.FromToOf | includes/class-financial-analyzer.php:162-169 | old and new prices exist exactly when the "from X to Y" pattern matches |
| FinancialAnalyzer.CheckBillDue | includes/class-financial-analyzer.php:51-106 | `check_bill_due_dates`: false without a keyword, else the bill insight when a due date or a truthy amount was found |
| FinancialAnalyzer.CheckPriceIncrease | includes/class-financial-analyzer.php:114-190 | `check_price_increases`: false without a keyword, else the insight when the percentage, or both prices, are truthy |
| FinancialAnalyzer.CheckSubscriptionRenewal | includes/class-financial-analyzer.php:198-252 | `check_subscription_renewals`: false without a keyword, else the insight when a renewal date or a truthy amount was found |
| FinancialAnalyzer.CheckPaymentConfirmation | includes/class-financial-analyzer.php:260-313 | `check_payment_confirmations`: false without a keyword, else the insight when the amount is truthy |
| FinancialAnalyzer.AnalyzeEmail | includes/class-financial-analyzer.php:14-43 | the merge of the four checks in order, or false when it is empty |
| FinancialAnalyzer.MergedOrdered | includes/class-financial-analyzer.php:18-39 | merging one-insight decisions gives at most four insights, kinds in check order, one source |
| FinancialAnalyzer.MergedShape | includes/class-financial-analyzer.php:18-39 | the same for the four decisions the checks make |
| FinancialAnalyzer.AnalysisShape | includes/class-financial-analyzer.php:14-43 | an analysis holds one to four insights, at most one per kind, in check order, each crediting the email's subject and sender |
| FinancialAnalyzer.MergedMembership | includes/class-financial-analyzer.php:92-310 | each kind is present exactly when its keyword occurred and its values are truthy; a zero amount alone never fires |
| FinancialAnalyzer.AnalysisMembership | includes/class-financial-analyzer.php:14-43 | for a real email: bill and renewal fire iff keyword and (date or nonzero amount); a price increase iff keyword and (nonzero percentage or two nonzero prices); a payment iff keyword and nonzero amount |
| FinancialAnalyzer.PriceFieldsTogether | includes/class-financial-analyzer.php:162-185 | a price increase's old and new prices are set together, only from a "from X to Y" match; its percentage and effective date are the extracted ones |
| FinancialAnalyzer.AnalysisNoneIff | includes/class-financial-analyzer.php:42 | `analyze_email` returns false exactly when no check produced an insight |
| FinancialAnalyzer.DateOfEmptyText | includes/class-financial-analyzer.php:337-362 | no date is found in an empty text |
| FinancialAnalyzer.EmptyBodyFindsNothing | includes/class-financial-analyzer.php:14-43 | with an empty body nothing is found, whatever the subject says |
| EmailConnector.ProviderSettings | includes/class-email-connector.php:104-142 | settings exist exactly for the five known ids after lower-casing; anything else is `invalid_provider`; port 587 goes with tls, the others with ssl |
| EmailConnector.ProviderIgnoresCase | includes/class-email-connector.php:107 | provider ids are compared without regard to case |
| EmailConnector.MicrosoftAliases | includes/class-email-connector.php:117-119 | outlook, hotmail and live name the same Office 365 server, distinct from Gmail's and Yahoo's |
| EmailConnector.HeaderAt | includes/class-email-connector.php:215-218 | a header is fetched only for a number within the folder |
| EmailConnector.MsgNo | includes/class-email-connector.php:334-339 | `imap_msgno` finds the number carrying the UID; 0 means no message has it |
| EmailConnector.MsgNoOfUid | includes/class-email-connector.php:334-339 | with ascending UIDs, the number of a message's UID is that message's number |
| EmailConnector.AttachmentFromWitness | includes/class-email-connector.php:377-393 | a successful attachment scan found an attachment at some path |
| EmailConnector.AttachmentAtFound | includes/class-email-connector.php:377-393 | an attachment at a path is found by the scan |
| EmailConnector.HasAttachmentsIff | includes/class-email-connector.php:377-393 | `has_attachments` holds exactly when some part below the root, at any depth, has disposition "attachment" ignoring case |
| EmailConnector.AttachmentsOf | includes/class-email-connector.php:476-508 | listed entries are top-level attachment parts, numbered index + 1, in ascending order |
| EmailConnector.AttachmentsComplete | includes/class-email-connector.php:482-497 | every top-level attachment is listed with its decoded name, number, size and subtype |
| EmailConnector.Attachments | includes/class-email-connector.php:476-508 | the `get_attachments` loop computes that list; nothing without a structure |
| EmailConnector.NestedAttachmentNotListed | includes/class-email-connector.php:377-508 | an attachment nested one level down makes `has_attachments` true but is not listed |
| EmailConnector.DecodeMessageBody | includes/class-email-connector.php:565-577 | encodings other than 3 (base64) and 4 (quoted-printable) pass the body through |
| EmailConnector.LastText | includes/class-email-connector.php:448-459 | the last text part of a subtype, and that no later part has it |
| EmailConnector.BodyScanKeepsLast | includes/class-email-connector.php:448-459 | the part loop keeps the last PLAIN and the last HTML text part |
| EmailConnector.MessageBodySelects | includes/class-email-connector.php:434-466 | a multipart body is the last HTML part when its text is truthy (PHP non-empty, and "0" counts as empty), else the last PLAIN part |
| EmailConnector.MessageBody | includes/class-email-connector.php:434-466 | the `get_message_body` loop computes the selected body; a part-less message is its whole body in the root encoding |
| EmailConnector.PreviewCut | includes/class-email-connector.php:402-424 | a text over 200 characters is cut to 200 and followed by "..."; a shorter one is kept whole |
| EmailConnector.ListPreviewIsPrefix | includes/class-email-connector.php:264 | the list preview is the first 100 characters of the stripped text and never carries "..." |
| EmailConnector.WordsTextAppend | includes/class-email-connector.php:545-553 | decoding a run of encoded words is decoding each and joining |
| EmailConnector.WordsTextDefault | includes/class-email-connector.php:546-547 | words in the default charset decode to their own texts, joined |
| EmailConnector.MimeDecoded | includes/class-email-connector.php:538-556 | a falsy header string decodes to "" |
| EmailConnector.DecodeMimeStr | includes/class-email-connector.php:538-556 | the `decode_mime_str` loop joins the converted words in order |
| EmailConnector.AddressList | includes/class-email-connector.php:516-530 | one entry per address, in order, `mailbox@host` and the decoded personal name |
| EmailConnector.FlagsListed | includes/class-email-connector.php:252-261 | each flag is listed exactly when set, nothing else is, in the order flagged, answered, seen |
| EmailConnector.Kept | includes/class-email-connector.php:212-218 | the numbers kept are visited numbers whose header can be fetched |
| EmailConnector.SummariesSkipFailed | includes/class-email-connector.php:212-283 | the list holds one entry per number whose header is fetched, in visiting order, and skips the rest |
| EmailConnector.KeptDescending | includes/class-email-connector.php:210-218 | skipping failed headers keeps the newest-first order |
| EmailConnector.Descending | includes/class-email-connector.php:210 | the loop's numbers from end_rev down to start_rev |
| EmailConnector.DivUnique | includes/class-email-connector.php:196-201 | integer division is characterised by its bounds |
| EmailConnector.VisitedPartition | includes/class-email-connector.php:196-210 | message m is visited by page p exactly when p is m's page, so the pages are disjoint and cover the folder |
| EmailConnector.PageOfInRange | includes/class-email-connector.php:290 | every message's page lies between 1 and `ceil(total / per_page)` |
| EmailConnector.VisitedInRange | includes/class-email-connector.php:196-210 | a page visits at most per_page numbers within 1..N, strictly newest first; page 1 starts at N |
| EmailConnector.VisitedBeyondLast | includes/class-email-connector.php:196-210 | a page beyond the last visits nothing |
| EmailConnector.FetchEmails | includes/class-email-connector.php:162-304 | `fetch_emails` returns the page's summaries, total, page, per_page and total_pages |
| EmailConnector.CollectPage | includes/class-email-connector.php:210-283 | the descending loop gathers the entries from end_rev down to start_rev |
| EmailConnector.Entry | includes/class-email-connector.php:212-277 | one pass of the loop: the message's summary, or nothing when its header fails |
| EmailConnector.FetchPageListed | includes/class-email-connector.php:185-291 | a page of a non-empty folder reports its size and page count and lists at most per_page entries; each is the summary of a message on that page, every such message whose header can be fetched is listed, and with ascending UIDs the list is newest first |
| EmailConnector.FetchNothing | includes/class-email-connector.php:168-201 | a folder that cannot be opened (with an error), an empty folder (total and total_pages 0) and a page beyond the last give no messages |
| EmailConnector.FromAddress | includes/class-email-connector.php:359 | the first sender's mailbox and host joined by '@', a missing part read as ""; "@" without a sender; the list's sender address when both parts are present |
| EmailConnector.EmailById | includes/class-email-connector.php:312-369 | an inbox error is passed through; an unknown UID is `email_not_found` with "Email not found."; otherwise the message with that UID: its decoded subject, sender address and decoded sender name, each To and Cc entry in order (no Cc without a cc header), the formatted date, its selected body and its listed attachments |
| EmailParser.Collapse | includes/class-email-parser.php:40 | `preg_replace('/\s+/', ' ')` leaves only single plain spaces |
| EmailParser.SolidSkipsSpaces | includes/class-email-parser.php:40 | leading whitespace carries no text |
| EmailParser.CollapseKeepsText | includes/class-email-parser.php:40 | collapsing keeps every non-whitespace character, in order |
| EmailParser.CollapseNormalised | includes/class-email-parser.php:40 | a normalised text has nothing left to collapse |
| EmailParser.CollapsePlain | includes/class-email-parser.php:40 | a text without whitespace is left as it is |
| EmailParser.CollapseLast | includes/class-email-parser.php:40 | a text ending in a non-whitespace character still ends in it |
| EmailParser.CollapseJoin | includes/class-email-parser.php:40 | a whitespace run between a text not ending and a text not starting in whitespace becomes exactly one space, each side collapsed on its own |
| EmailParser.CollapsePadding | includes/class-email-parser.php:40 | whitespace before and after a text becomes at most one space on each side |
| EmailParser.TrimStart | includes/class-email-parser.php:42 | the left trim is a suffix starting with a kept character, and every character removed is trimmable |
| EmailParser.TrimEnd | includes/class-email-parser.php:42 | the right trim is a prefix ending with a kept character, and every character removed is trimmable |
| EmailParser.TrimStartAt | includes/class-email-parser.php:42 | the left trim removes exactly the leading run of trimmable characters |
| EmailParser.TrimEndAt | includes/class-email-parser.php:42 | the right trim removes exactly the trailing run of trimmable characters |
| EmailParser.TrimOffset | includes/class-email-parser.php:42 | the characters trimmed at the start are within the text |
| EmailParser.Trim | includes/class-email-parser.php:42 | `trim` leaves a slice of the text with no trimmable character at either end, and everything it removes before and after that slice is trimmable |
| EmailParser.TrimAt | includes/class-email-parser.php:42 | whenever a text is trimmable padding around an unpadded middle, `trim` gives that middle |
| EmailParser.TrimAround | includes/class-email-parser.php:42 | `trim` of padding, middle and padding is the middle |
| EmailParser.TrimJoin | includes/class-email-parser.php:42 | a space between a text ending and one starting in a kept character survives: `trim` of the join is the two trims joined |
| EmailParser.TrimUnpadded | includes/class-email-parser.php:42 | trimming an unpadded text changes nothing |
| EmailParser.NormalisedSlice | includes/class-email-parser.php:40-42 | a slice of a normalised text is normalised |
| EmailParser.Squeeze | includes/class-email-parser.php:40-42 | collapse-and-trim gives single internal spaces and no padding |
| EmailParser.SqueezeIdempotent | includes/class-email-parser.php:40-42 | collapse-and-trim twice is collapse-and-trim once |
| EmailParser.SqueezeWord | includes/class-email-parser.php:40-42 | a word (no whitespace, no trimmable end) is left as it is |
| EmailParser.SqueezeSolidEnds | includes/class-email-parser.php:40-42 | a text with kept, non-whitespace ends is only collapsed, and keeps both ends |
| EmailParser.SqueezePadding | includes/class-email-parser.php:40-42 | whitespace before and after a text is dropped |
| EmailParser.SqueezeJoin | includes/class-email-parser.php:40-42 | any whitespace run between two texts becomes one space: the result is the two squeezes joined by a single space |
| EmailParser.PlainText | includes/class-email-parser.php:32-43 | `extract_plain_text` output is normalised and unpadded |
| EmailParser.PlainTextJoin | includes/class-email-parser.php:32-43 | when the stripped and decoded text is two texts separated and surrounded by whitespace, the plain text is their squeezes joined by one space |
| EmailParser.LinksQuoted | includes/class-email-parser.php:51-59 | each link is the text between a quote and the next matching quote, in document order |
| EmailParser.MatchedTexts | includes/class-email-parser.php:85-87 | the whole text of each match, in order |
| EmailParser.CollectMatches | includes/class-email-parser.php:83-115 | the pattern and match loops append every match's text, pattern by pattern |
| EmailParser.ExtractDates | includes/class-email-parser.php:68-91 | numeric dates, then "Month DD, YYYY", then "DD Month YYYY", each in text order, as raw texts |
| EmailParser.ExtractAmounts | includes/class-email-parser.php:100-117 | `$` amounts, then amounts with a currency, each in text order, as raw texts |
| EmailParser.MatchedTextsInOrder | includes/class-email-parser.php:84-110 | each reported text is a piece of the input, and a pattern's pieces do not overlap |
| EmailParser.ParseContent | includes/class-email-parser.php:14-24 | the four fields are each computed from the same unmodified content |
| DataExporter.SetKeys | includes/class-data-exporter.php:265-283 | only filters present in the map are used |
| DataExporter.SetKeysIff | includes/class-data-exporter.php:265-283 | a key is used exactly when it is a filter key whose value is set and non-empty |
| DataExporter.PercentsClauses | includes/class-data-exporter.php:266-281 | the filter clauses carry one placeholder each |
| DataExporter.ArgsForLength | includes/class-data-exporter.php:267-282 | one argument per used filter |
| DataExporter.QueryPlaceholders | includes/class-data-exporter.php:261-289 | placeholders equal arguments, user_id's `%d` first |
| DataExporter.QueryShape | includes/class-data-exporter.php:261-286 | one argument per set filter plus user_id; the query begins with the user condition and ends with `ORDER BY created_at DESC` |
| DataExporter.AddFilter | includes/class-data-exporter.php:265-268 | a set filter appends its clause and argument together, an unset one neither |
| DataExporter.BuildQuery | includes/class-data-exporter.php:260-286 | the step-by-step query building gives the specified query and arguments |
| DataExporter.WithSourceData | includes/class-data-exporter.php:292-296 | only `source_data` changes: a truthy source is decoded into it, and any other row is returned unchanged |
| DataExporter.InsightsData | includes/class-data-exporter.php:257-299 | `get_insights_data` returns every fetched row, in order, decoded in place |
| DataExporter.CsvRecord | includes/class-data-exporter.php:39-47 | seven columns: date, type, description, the amount as a decimal or "" when null, the due date or "" when null, status, and the decoded subject or "" |
| DataExporter.ExportCsv | includes/class-data-exporter.php:15-56 | no records for no insights, else the header and one record per insight, in order |
| DataExporter.ExportJson | includes/class-data-exporter.php:224-248 | one object per insight, in order; none for no insights |
| DataExporter.JsonRecordFaithful | includes/class-data-exporter.php:235-244 | two rows with the same JSON object agree on every field but the raw source text |
| DataExporter.Contribution | includes/class-data-exporter.php:166-176 | a row adds no more to upcoming than to due, and no more to due than to bills |
| DataExporter.Totals | includes/class-data-exporter.php:160-178 | upcoming ≤ total_due ≤ total_bills |
| DataExporter.TotalsIgnoreOthers | includes/class-data-exporter.php:166 | a row that is not a bill with an amount changes no total |
| DataExporter.TotalsAppend | includes/class-data-exporter.php:164-177 | the totals of two runs of rows add up, so they do not depend on the query's order |
| DataExporter.SummaryTotals | includes/class-data-exporter.php:160-178 | the accumulator loop computes those totals |
| DataExporter.RequestFilters | includes/class-data-exporter.php:318-330 | exactly the filter keys the request carries are copied, sanitised |
| DataExporter.FormatResponse | includes/class-data-exporter.php:333-426 | CSV and JSON with no rows are "No data to export.", otherwise the written file's response; PDF succeeds exactly when there are rows and a PDF file, else "PDF export failed…"; any other format is "Invalid export format."; success always needs rows |
| DataExporter.ExportResponse | includes/class-data-exporter.php:304-426 | logged out is refused; otherwise the requested format (csv by default) decides over the rows of the requested filters; success needs a logged-in user and rows |
| DataExporter.FormatDefaultsToCsv | includes/class-data-exporter.php:315 | a request with no format is a CSV export |
| InsightsView.Tally | public/views/financial-insights.php:32-46 | upcoming ≤ bills, and each insight raises at most one of the three kind counters |
| InsightsView.SummaryCounts | public/views/financial-insights.php:26-46 | the counter loop computes the tally |
| InsightsView.Filter | public/views/financial-insights.php:79-84 | filtering never adds elements |
| InsightsView.FilterKeepsSelected | public/views/financial-insights.php:79-194 | the filter keeps exactly the selected insights, each as often as it occurs |
| InsightsView.Insert | public/views/financial-insights.php:86-88 | insertion adds the element to the multiset |
| InsightsView.InsertSorted | public/views/financial-insights.php:86-88 | insertion keeps a list sorted |
| InsightsView.Sort | public/views/financial-insights.php:86-200 | `usort` is a permutation |
| InsightsView.SortSorted | public/views/financial-insights.php:86-200 | `usort` sorts ascending by the comparator's key |
| InsightsView.ShownInOrder | public/views/financial-insights.php:90-202 | a section shows at most five, fewer only when there are no more, in key order, and none left out precedes one shown |
| InsightsView.ShownSelected | public/views/financial-insights.php:79-202 | a section shows only selected insights, and shown plus left-out is exactly the selected ones |
| InsightsView.CardsMatchSections | public/views/financial-insights.php:32-84 | the upcoming, price and subscription counters count exactly what the sections select |
| InsightsView.DueLabel | public/views/financial-insights.php:112-119 | Urgent below 3 days, Due Soon from 3 to below 7 days, Upcoming from 7 days |
| InsightsView.DueLabelMonotone | public/views/financial-insights.php:112-119 | a bill due later never gets a more urgent label |
| Plugin.SeededKeeps | financial-email-client.php:186-190 | seeding touches no truthy option and no option without a default, and leaves every truthy default set |
| Plugin.SeededIdempotent | financial-email-client.php:186-190 | seeding again when every default is truthy changes nothing |
| Plugin.NothingToSeed | financial-email-client.php:187 | when every name to seed is truthy the options are unchanged |
| Plugin.DefaultsSeedOnce | financial-email-client.php:178-191 | a second run of `set_default_options`, with any new key, changes nothing |
| Plugin.RowOf | financial-email-client.php:697-708 | a row has the user, email, type, description, status 'new' and time; its amount is the insight's amount (none for a price increase) and its due date is a bill's due date (none for any other type) |
| Plugin.Site.constructor | financial-email-client.php:178-200 | the site starts with the given option, cron and insights tables |
| Plugin.Site.SetDefaultOptions | financial-email-client.php:178-191 | the options table becomes the seeding of the defaults; cron and insights are unchanged |
| Plugin.Site.ScheduleEvents | financial-email-client.php:196-200 | the hourly hook is scheduled only when none is already; nothing else changes |
| Plugin.Site.SaveFinancialInsights | financial-email-client.php:693-711 | one row per insight, in order, appended; nothing else changes |
| Plugin.Site.AnalyzeEmailContent | financial-email-client.php:657-688 | an inbox error is returned as it is and an unknown UID is "Email not found."; otherwise the result is the analysis of the email's subject, body and sender: its insights on success, else "No financial information found in this email."; insights are saved only on success, and success means some were found |
| Plugin.Site.AnalyzeAndSave | financial-email-client.php:674-687 | the analyzer's insights are returned and appended as rows when it finds some; otherwise the error and no rows |
| Plugin.RowOfFields | financial-email-client.php:704-705 | amount and due date are null exactly when the insight has none, and type-specific fields are not stored |
| Plugin.EnrichOne | financial-email-client.php:639-642 | a message gains `financial_data` only when the result is truthy |
| Plugin.Enrich | financial-email-client.php:638-643 | every message, in order, is its analysed self and otherwise unchanged |
| Plugin.ListedFindNothing | financial-email-client.php:638-643 | since summaries carry no body, no listed message gains `financial_data` |
| Plugin.FetchParams | financial-email-client.php:600-602 | folder defaults to INBOX, page to 1, and per_page is 20 |
| Plugin.FetchUserEmails | financial-email-client.php:594-652 | no account and a failed connection are errors; otherwise the requested page, each of its messages in order and analysed (so, by `Plugin.ListedFindNothing`, with no `financial_data`) |
| AdminSettings.Sanitize | admin/class-admin-settings.php:106-120 | only the two keys survive; frequency iff set; providers iff an array, sanitised element by element |
| AdminSettings.Checked | admin/class-admin-settings.php:80-98 | a provider's box is ticked exactly when it is enabled |
| AdminSettings.UnsavedDefaults | admin/class-admin-settings.php:63-82 | with nothing saved, hourly and every provider but "other" |
| AdminSettings.SavedReadsBack | admin/class-admin-settings.php:63-120 | a saved form reads back as it was sanitised |
| AdminSettings.SanitizeIdempotent | admin/class-admin-settings.php:106-120 | sanitising twice is sanitising once, when the text sanitiser is idempotent |

## Left out

- IMAP transport is not modelled. That covers `connect`, `reconnect`, `imap_open`/`reopen`/`close`, timeouts, the account lookup of `get_email_by_id`, and the connection in `fetch_user_emails`. Each is network I/O. The model receives the open mailbox, or the `WP_Error` of reaching it, as a parameter.
- Credential encryption (`encrypt_data`/`decrypt_data`) is not modelled, because it is a foreign crypto call.
- Nonces, AJAX JSON encoding, menus, shortcodes and translations are not modelled. They are WordPress plumbing. The `dbDelta` schema is omitted for the same reason.
- The library functions in `Foreign.Lib` are uninterpreted:
  - `base64_decode`, `quoted_printable_decode`, `strip_tags`, `html_entity_decode`;
  - `imap_mime_header_decode`, `iconv`, `json_decode`, `sanitize_text_field`;
  - `strtotime`/`date`.

  Only how the core combines them is proved.
- `strtotime` and `date` are not modelled in general. A date whose numbers do not name a calendar day stays `Unresolved`. The model does not say what `date('Y-m-d', …)` prints for it.
- Floating point is not modelled. Amounts are exact cents, and percentages and prices are exact reals.
- `fputcsv` quoting, `json_encode` pretty-printing and TCPDF rendering are not modelled. These are library output formats. The exports stop at the records and objects.
- The PDF file write and the upload directory are not modelled. A PDF export is `Env.pdfFile`, and CSV and JSON writes are `Env.writeOk`.
- InsightsView.Sort: `usort` is modelled on values as an insertion sort on `seq`. The in-place update of the PHP array is left out. Stability is not claimed, and elements with equal keys may appear in either order.
- Plugin.Enrich: the in-place assignment to `$emails['messages'][$key]` is modelled as a new `seq` of the same length and order.
- EmailConnector.FetchEmails: requires `perPage >= 1`. The one caller passes 20, and PHP would divide by zero at `ceil($total / 0)`.
- Regex.MatchAt: the contract says where a match starts and ends and what its captures look like, not which texts each pattern accepts. The pattern functions of the same module define that, and their own contracts state only bounds and capture shapes.
- FinancialAnalyzer.MonthNumber: reads only the English month names and their abbreviations. For any other word, `date('m', strtotime($word))` depends on the clock: `strtotime` either fails, and `date` then prints "01", or reads the word as a relative time and gives the current month. Even a month name takes today's day, so on the 29th to the 31st `strtotime("February")` rolls into March. None of this is modelled. Such a word gives an `Unresolved` date.
- Characters are read as code points, with ASCII-only case folding and PCRE `\s`. Multi-byte UTF-8 text, where PHP's byte-wise `substr` can split a character, is not modelled.
- 64-bit integer overflow in the totals and counters is not modelled, because amounts are unbounded naturals.
- `intval` is the parameter `intVal`, and the database is the parameter `Db`.
- A stored setting of the wrong type: an array frequency matches no option, as in PHP. A stored string provider list is read as an empty list, so no box is ticked. PHP 8's `in_array` would instead throw a `TypeError` on it (admin/class-admin-settings.php:94). That error is not modelled.
- `investment_update` is offered in the interface but never implemented, so there is nothing to model.
- Line 141 of public/views/financial-insights.php is a syntax error: a `usort` call with an unbalanced brace and no comparator. The model follows the sort at lines 143-145.
- The presentation files, widgets and JavaScript are not part of this model.

## Consequences of the code

- The list preview is the 200-character preview cut again to 100 characters (includes/class-email-connector.php:264). So a list preview never shows the "..." marker, even when the text was cut (`EmailConnector.ListPreviewIsPrefix`).
- `fetch_user_emails` analyses list summaries, and these have no body. As a result no listed message ever gains `financial_data` (`Plugin.ListedFindNothing`).
- The insights table has no `source` column (financial-email-client.php:155-168), so `source_data` is never attached in practice. The model keeps the general rule of includes/class-data-exporter.php:292-296.
