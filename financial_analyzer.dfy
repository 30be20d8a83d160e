/** The financial analyzer: decides from an email's subject and body whether it is
    a bill, a price increase, a subscription renewal or a payment confirmation,
    and pulls out the dates, amounts and percentages that go with each. */
module FinancialAnalyzer {
  import opened Text
  import opened Regex

  /** The fields of an email the analyzer reads. */
  datatype Email = Email(subject: string, body: string, from: string)

  /** Where an insight came from. */
  datatype Source = Source(emailSubject: string, from: string)

  /** A date as `date('Y-m-d', strtotime("$year-$month-$day"))` produces it: a
      calendar date when year, month and day form one, and otherwise the text
      handed to `strtotime`, whose rollover and rejection rules are not modelled. */
  datatype DateValue = Ymd(year: nat, month: nat, day: nat) | Unresolved(input: string)

  /** One finding, with the fields its kind records. Amounts found by the
      amount patterns are in cents; percentages and the "from X to Y" prices are
      the exact decimal values of their captures. */
  datatype Insight =
    | BillDue(dueDate: Option<DateValue>, amount: Option<nat>, source: Source)
    | PriceIncrease(percentage: Option<real>, oldAmount: Option<real>, newAmount: Option<real>,
                    effectiveDate: Option<DateValue>, source: Source)
    | SubscriptionRenewal(renewalDate: Option<DateValue>, amount: Option<nat>, source: Source)
    | PaymentConfirmation(amount: Option<nat>, paymentDate: Option<DateValue>, source: Source)
  {
    /** The stored `type` column. */
    function TypeName(): string {
      match this
      case BillDue(_, _, _) => "bill_due"
      case PriceIncrease(_, _, _, _, _) => "price_increase"
      case SubscriptionRenewal(_, _, _) => "subscription_renewal"
      case PaymentConfirmation(_, _, _) => "payment_confirmation"
    }

    /** The stored `description` column. */
    function Description(): string {
      match this
      case BillDue(_, _, _) => "Bill or payment due"
      case PriceIncrease(_, _, _, _, _) => "Price increase detected"
      case SubscriptionRenewal(_, _, _) => "Subscription renewal"
      case PaymentConfirmation(_, _, _) => "Payment confirmation"
    }

    /** The position of the insight's check in the analysis order. */
    function Rank(): nat {
      match this
      case BillDue(_, _, _) => 0
      case PriceIncrease(_, _, _, _, _) => 1
      case SubscriptionRenewal(_, _, _) => 2
      case PaymentConfirmation(_, _, _) => 3
    }
  }

  // ---------------------------------------------------------------------
  // Keyword lists
  // ---------------------------------------------------------------------

  const BillKeywords: seq<string> := [
    "bill", "invoice", "statement", "payment due", "amount due", "due date", "please pay",
    "utility bill", "electricity bill", "gas bill", "water bill", "phone bill", "credit card statement"]

  const PriceIncreaseKeywords: seq<string> := [
    "price increase", "rate increase", "price change", "new pricing", "price adjustment",
    "inflation adjustment", "fee increase", "raising our prices", "updating our pricing",
    "changes to your subscription", "changes to your plan"]

  const SubscriptionKeywords: seq<string> := [
    "subscription", "membership", "renew", "renewal", "auto-renewal", "recurring", "will renew",
    "will be renewed", "will be charged", "will automatically renew", "subscription confirmation",
    "membership confirmation"]

  const PaymentKeywords: seq<string> := [
    "payment confirmation", "payment receipt", "payment successful", "payment processed",
    "thank you for your payment", "payment received", "transaction confirmation",
    "order confirmation", "receipt", "invoice paid", "payment completed"]

  /** The keyword occurs, ignoring case, in the subject or in the body. */
  predicate Mentions(subject: string, body: string, keyword: string) {
    IContains(subject, keyword) || IContains(body, keyword)
  }

  predicate MentionsAny(subject: string, body: string, keywords: seq<string>) {
    exists k :: 0 <= k < |keywords| && Mentions(subject, body, keywords[k])
  }

  /** The keyword scan each check opens with: stops at the first keyword found. */
  method HasKeyword(subject: string, body: string, keywords: seq<string>) returns (found: bool)
    ensures found <==> MentionsAny(subject, body, keywords)
  {
    found := false;
    var k := 0;
    while k < |keywords|
      invariant 0 <= k <= |keywords|
      invariant forall j :: 0 <= j < k ==> !Mentions(subject, body, keywords[j])
    {
      if IContains(subject, keywords[k]) || IContains(body, keywords[k]) {
        found := true;
        break;
      }
      k := k + 1;
    }
  }

  /** A keyword written in any capitalisation anywhere in the subject opens the gate. */
  lemma GateOpensOnKeyword(a: string, w: string, b: string, body: string, keywords: seq<string>, k: nat)
    requires k < |keywords| && LowerStr(w) == LowerStr(keywords[k])
    ensures MentionsAny(a + w + b, body, keywords)
  {
    IContainsOfInfix(a, w, b, keywords[k]);
    assert Mentions(a + w + b, body, keywords[k]);
  }

  // ---------------------------------------------------------------------
  // The pattern lists
  // ---------------------------------------------------------------------

  function InForms(alts: seq<Alt>, lead: Lead): seq<Pattern> {
    [DatePat(alts, lead, NumericDate), DatePat(alts, lead, MonthFirst), DatePat(alts, lead, DayFirst)]
  }

  /** `due\s+(?:date|on|by)?\s*:?\s*` and `(?:due|pay)(?:\s+by|\s+before|\s+on)?\s+`,
      alternating, for each of the three date forms. */
  const DuePatterns: seq<Pattern> := [
    DatePat([Word("due")], Labelled(["date", "on", "by"]), NumericDate),
    DatePat([Word("due"), Word("pay")], Qualified(["by", "before", "on"]), NumericDate),
    DatePat([Word("due")], Labelled(["date", "on", "by"]), MonthFirst),
    DatePat([Word("due"), Word("pay")], Qualified(["by", "before", "on"]), MonthFirst),
    DatePat([Word("due")], Labelled(["date", "on", "by"]), DayFirst),
    DatePat([Word("due"), Word("pay")], Qualified(["by", "before", "on"]), DayFirst)]

  /** `effective\s+(?:date|on|from)?\s*:?\s*` and
      `(?:starting|begins|beginning|commencing|from)\s+`, alternating. */
  const EffectivePatterns: seq<Pattern> := [
    DatePat([Word("effective")], Labelled(["date", "on", "from"]), NumericDate),
    DatePat([Word("starting"), Word("begins"), Word("beginning"), Word("commencing"), Word("from")], Spaced, NumericDate),
    DatePat([Word("effective")], Labelled(["date", "on", "from"]), MonthFirst),
    DatePat([Word("starting"), Word("begins"), Word("beginning"), Word("commencing"), Word("from")], Spaced, MonthFirst),
    DatePat([Word("effective")], Labelled(["date", "on", "from"]), DayFirst),
    DatePat([Word("starting"), Word("begins"), Word("beginning"), Word("commencing"), Word("from")], Spaced, DayFirst)]

  /** `(?:renew|renewal|renews|renewed|auto.?renew|automatically\s+renew)\s+(?:on|date)?\s*:?\s*` */
  const RenewalPatterns: seq<Pattern> :=
    InForms([Word("renew"), Word("renewal"), Word("renews"), Word("renewed"),
             WordAnyWord("auto", "renew"), WordSpaceWord("automatically", "renew")],
            Labelled(["on", "date"]))

  /** `(?:payment|transaction|paid)\s+(?:date|on)?\s*:?\s*` */
  const PaymentDatePatterns: seq<Pattern> :=
    InForms([Word("payment"), Word("transaction"), Word("paid")], Labelled(["date", "on"]))

  const AmountPatterns: seq<Pattern> := [AmountAfterLabel, AmountBeforeLabel, DollarAmount]

  const PercentPatterns: seq<Pattern> := [PercentAfterWord, PercentBeforeWord]

  predicate AllDatePatterns(pats: seq<Pattern>) {
    forall k :: 0 <= k < |pats| ==> pats[k].DatePat?
  }

  // ---------------------------------------------------------------------
  // The first pattern of a list that matches
  // ---------------------------------------------------------------------

  /** The index of the first pattern at or after `from` that matches the text, and its match. */
  function FirstHit(search: Engine, pats: seq<Pattern>, text: string, from: nat): (r: Option<(nat, Match)>)
    ensures r.Some? ==> from <= r.value.0 < |pats| && search(pats[r.value.0], text) == Some(r.value.1)
    decreases |pats| - from
  {
    if from >= |pats| then None
    else
      match search(pats[from], text)
      case Some(m) => Some((from, m))
      case None => FirstHit(search, pats, text, from + 1)
  }

  /** No pattern before the one found matches; none matches when nothing is found. */
  lemma {:induction false} FirstHitSpec(search: Engine, pats: seq<Pattern>, text: string, from: nat)
    ensures FirstHit(search, pats, text, from).Some? ==>
      forall j :: from <= j < FirstHit(search, pats, text, from).value.0 ==> search(pats[j], text).None?
    ensures FirstHit(search, pats, text, from).None? ==>
      forall j :: from <= j < |pats| ==> search(pats[j], text).None?
    decreases |pats| - from
  {
    if from < |pats| && search(pats[from], text).None? {
      FirstHitSpec(search, pats, text, from + 1);
    }
  }

  lemma {:induction false} FirstHitEmptyText(search: Engine, pats: seq<Pattern>, from: nat)
    requires NothingInEmpty(search)
    ensures FirstHit(search, pats, "", from).None?
    decreases |pats| - from
  {
    if from < |pats| {
      assert search(pats[from], "").None?;
      FirstHitEmptyText(search, pats, from + 1);
    }
  }

  // ---------------------------------------------------------------------
  // Dates
  // ---------------------------------------------------------------------

  predicate LeapYear(y: nat) { y % 4 == 0 && (y % 100 != 0 || y % 400 == 0) }

  function DaysInMonth(y: nat, m: nat): nat
    requires 1 <= m <= 12
  {
    if m == 2 then (if LeapYear(y) then 29 else 28)
    else if m == 4 || m == 6 || m == 9 || m == 11 then 30
    else 31
  }

  predicate ValidDate(y: nat, m: nat, d: nat) {
    1 <= m <= 12 && 1 <= d <= DaysInMonth(y, m)
  }

  /** `date('Y-m-d', strtotime("$year-$month-$day"))` for digit strings: the
      calendar date when they name one. */
  function Resolve(ys: string, ms: string, ds: string): (r: DateValue)
    ensures r.Ymd? <==> ValidDate(DigitsValue(ys), DigitsValue(ms), DigitsValue(ds))
    ensures r.Ymd? ==> r == Ymd(DigitsValue(ys), DigitsValue(ms), DigitsValue(ds))
    ensures r.Unresolved? ==> r.input == ys + "-" + ms + "-" + ds
  {
    var y, m, d := DigitsValue(ys), DigitsValue(ms), DigitsValue(ds);
    if ValidDate(y, m, d) then Ymd(y, m, d) else Unresolved(ys + "-" + ms + "-" + ds)
  }

  /** English month names and their abbreviations, as `strtotime` reads them. */
  const MonthNames: seq<(string, nat)> := [
    ("january", 1), ("jan", 1), ("february", 2), ("feb", 2), ("march", 3), ("mar", 3),
    ("april", 4), ("apr", 4), ("may", 5), ("june", 6), ("jun", 6), ("july", 7), ("jul", 7),
    ("august", 8), ("aug", 8), ("september", 9), ("sep", 9), ("sept", 9), ("october", 10),
    ("oct", 10), ("november", 11), ("nov", 11), ("december", 12), ("dec", 12)]

  function LookupMonth(name: string, k: nat): (r: Option<nat>)
    requires forall j :: 0 <= j < |MonthNames| ==> 1 <= MonthNames[j].1 <= 12
    ensures r.Some? ==> 1 <= r.value <= 12
    decreases |MonthNames| - k
  {
    if k >= |MonthNames| then None
    else if MonthNames[k].0 == name then Some(MonthNames[k].1)
    else LookupMonth(name, k + 1)
  }

  /** `date('m', strtotime($name))` for a month name, compared ignoring case. */
  function MonthNumber(name: string): (r: Option<nat>)
    ensures r.Some? ==> 1 <= r.value <= 12
  {
    LookupMonth(LowerStr(name), 0)
  }

  /** Month names are read without regard to case. */
  lemma MonthNumberIgnoresCase(a: string, b: string)
    requires LowerStr(a) == LowerStr(b)
    ensures MonthNumber(a) == MonthNumber(b)
  {
  }

  /** A date whose month is a name: the name becomes a two-digit month first.
      A word that is no month name keeps its text in the `Unresolved` value:
      the month PHP would print for it depends on the clock. */
  function NamedMonth(ys: string, name: string, ds: string): (r: DateValue)
    ensures r.Ymd? <==> MonthNumber(name).Some? && ValidDate(DigitsValue(ys), MonthNumber(name).value, DigitsValue(ds))
    ensures r.Ymd? ==> r == Ymd(DigitsValue(ys), MonthNumber(name).value, DigitsValue(ds))
  {
    match MonthNumber(name)
    case Some(m) =>
      PadDigitsValue(m, 2);
      Resolve(ys, PadDigits(m, 2), ds)
    case None => Unresolved(ys + "-" + name + "-" + ds)
  }

  /** The `is_numeric` cascade that decides how the three captures are read;
      None when no branch applies and the loop moves on to the next pattern. */
  function Normalise(g: seq<string>): (r: Option<DateValue>)
    requires |g| == 3
  {
    if IsNumeric(g[0]) && IsNumeric(g[1]) && IsNumeric(g[2]) then Some(Resolve(g[2], g[0], g[1]))
    else if IsNumeric(g[1]) && IsNumeric(g[2]) then Some(NamedMonth(g[2], g[0], g[1]))
    else if IsNumeric(g[0]) && IsNumeric(g[2]) then Some(NamedMonth(g[2], g[1], g[0]))
    else None
  }

  /** How each date form is meant to be read: numeric dates month first (US
      order), then "Month DD, YYYY", then "DD Month YYYY". */
  function ReadAs(form: DateForm, g: seq<string>): DateValue
    requires |g| == 3
  {
    match form
    case NumericDate => Resolve(g[2], g[0], g[1])
    case MonthFirst => NamedMonth(g[2], g[0], g[1])
    case DayFirst => NamedMonth(g[2], g[1], g[0])
  }

  lemma LettersNotNumeric(w: string)
    requires |w| > 0 && AllLetters(w)
    ensures !IsNumeric(w)
  {
    assert IsLetter(w[0]);
  }

  /** The `is_numeric` tests always pick the branch of the form that matched. */
  lemma NormaliseByForm(form: DateForm, g: seq<string>)
    requires FormShape(form, g)
    ensures Normalise(g) == Some(ReadAs(form, g))
  {
    match form
    case NumericDate =>
    case MonthFirst => LettersNotNumeric(g[0]);
    case DayFirst => LettersNotNumeric(g[1]);
  }

  /** The first pattern at or after `from` whose match normalises, the date it gives. */
  function DateOf(search: Engine, pats: seq<Pattern>, text: string, from: nat): (r: Option<DateValue>)
    requires Shaped(search) && AllDatePatterns(pats)
    decreases |pats| - from
  {
    if from >= |pats| then None
    else
      match search(pats[from], text)
      case Some(m) =>
        (match Normalise(m.groups)
         case Some(d) => Some(d)
         case None => DateOf(search, pats, text, from + 1))
      case None => DateOf(search, pats, text, from + 1)
  }

  /** The date-extraction loop shared by the four `extract_*_date` functions. */
  method FindDate(search: Engine, pats: seq<Pattern>, text: string) returns (r: Option<DateValue>)
    requires Shaped(search) && AllDatePatterns(pats)
    ensures r == DateOf(search, pats, text, 0)
  {
    var k := 0;
    while k < |pats|
      invariant 0 <= k <= |pats|
      invariant DateOf(search, pats, text, 0) == DateOf(search, pats, text, k)
    {
      var m := search(pats[k], text);
      if m.Some? {
        var d := Normalise(m.value.groups);
        if d.Some? {
          return d;
        }
      }
      k := k + 1;
    }
    return None;
  }

  /** The date found is the reading, by its form, of the first pattern in the list
      that matches anywhere; there is none exactly when no pattern matches. */
  lemma {:induction false} DateOfFirstHit(search: Engine, pats: seq<Pattern>, text: string, from: nat)
    requires Shaped(search) && AllDatePatterns(pats)
    ensures DateOf(search, pats, text, from) ==
      match FirstHit(search, pats, text, from)
      case Some(h) => Some(ReadAs(pats[h.0].form, h.1.groups))
      case None => None
    decreases |pats| - from
  {
    if from < |pats| {
      match search(pats[from], text)
      case Some(m) => NormaliseByForm(pats[from].form, m.groups);
      case None => DateOfFirstHit(search, pats, text, from + 1);
    }
  }

  /** A resolved date is always a real calendar date. */
  lemma DateOfIsCalendarDate(search: Engine, pats: seq<Pattern>, text: string)
    requires Shaped(search) && AllDatePatterns(pats)
    ensures DateOf(search, pats, text, 0).Some? && DateOf(search, pats, text, 0).value.Ymd? ==>
      var d := DateOf(search, pats, text, 0).value;
      ValidDate(d.year, d.month, d.day)
  {
    DateOfFirstHit(search, pats, text, 0);
  }

  // ---------------------------------------------------------------------
  // Amounts and percentages
  // ---------------------------------------------------------------------

  /** `floatval(str_replace(',', '', $capture))` of an AMOUNT capture, in cents:
      the fraction, when present, has exactly two digits. */
  function AmountCents(a: string): nat {
    if '.' in a then DigitsValue(Unpunctuated(a)) else DigitsValue(Unpunctuated(a)) * 100
  }

  /** Amounts written with two decimals, as the amount patterns expect. */
  function CentsText(c: nat): string {
    NatToDigits(c / 100) + "." + PadDigits(c % 100, 2)
  }

  lemma {:induction false} UnpunctuatedAppend(a: string, b: string)
    ensures Unpunctuated(a + b) == Unpunctuated(a) + Unpunctuated(b)
    decreases |b|
  {
    if b == [] {
      assert a + b == a;
    } else {
      var b' := b[..|b| - 1];
      assert (a + b)[..|a + b| - 1] == a + b';
      assert (a + b)[|a + b| - 1] == b[|b| - 1];
      UnpunctuatedAppend(a, b');
    }
  }

  lemma CentsTextDigits(c: nat)
    ensures '.' in CentsText(c)
    ensures Unpunctuated(CentsText(c)) == NatToDigits(c / 100) + PadDigits(c % 100, 2)
  {
    var q, r := NatToDigits(c / 100), PadDigits(c % 100, 2);
    assert CentsText(c) == (q + ".") + r;
    assert CentsText(c)[|q|] == '.';
    UnpunctuatedAppend(q + ".", r);
    UnpunctuatedAppend(q, ".");
    assert Unpunctuated(".") == Unpunctuated([]) by {
      assert "."[..0] == [];
    }
  }

  /** Reading back an amount written with two decimals gives the same cents. */
  lemma AmountCentsRoundTrip(c: nat)
    ensures AmountCents(CentsText(c)) == c
  {
    var q, r := NatToDigits(c / 100), PadDigits(c % 100, 2);
    CentsTextDigits(c);
    DigitsValueAppend(q, r);
    NatToDigitsValue(c / 100);
    PadDigitsValue(c % 100, 2);
    assert Pow10(2) == 100;
    assert DigitsValue(q + r) == (c / 100) * 100 + c % 100;
  }

  /** `extract_amount`: the first amount pattern that matches, in cents. */
  function AmountOf(search: Engine, text: string): (r: Option<nat>)
    requires Shaped(search)
    ensures r.Some? <==> exists k :: 0 <= k < |AmountPatterns| && search(AmountPatterns[k], text).Some?
    ensures r.Some? ==> exists k :: 0 <= k < |AmountPatterns| && search(AmountPatterns[k], text).Some? &&
                          (forall j :: 0 <= j < k ==> search(AmountPatterns[j], text).None?) &&
                          r.value == AmountCents(search(AmountPatterns[k], text).value.groups[0])
  {
    FirstHitSpec(search, AmountPatterns, text, 0);
    match FirstHit(search, AmountPatterns, text, 0)
    case Some(h) => Some(AmountCents(h.1.groups[0]))
    case None => None
  }

  method FindAmount(search: Engine, text: string) returns (r: Option<nat>)
    requires Shaped(search)
    ensures r == AmountOf(search, text)
  {
    var k := 0;
    while k < |AmountPatterns|
      invariant 0 <= k <= |AmountPatterns|
      invariant FirstHit(search, AmountPatterns, text, 0) == FirstHit(search, AmountPatterns, text, k)
    {
      var m := search(AmountPatterns[k], text);
      if m.Some? {
        return Some(AmountCents(m.value.groups[0]));
      }
      k := k + 1;
    }
    return None;
  }

  /** The index of the first '.' in d. */
  function DotIndex(d: string): (r: Option<nat>)
    ensures r.Some? ==> r.value < |d| && d[r.value] == '.'
    ensures r.None? ==> '.' !in d
  {
    if d == [] then None
    else if d[0] == '.' then Some(0)
    else match DotIndex(d[1..]) case Some(k) => Some(k + 1) case None => None
  }

  /** `floatval` of a DECIMAL capture, as an exact real. */
  function DecimalValue(d: string): (r: real)
    ensures r >= 0.0
  {
    match DotIndex(d)
    case None => DigitsValue(d) as real
    case Some(k) => DigitsValue(d[..k]) as real + DigitsValue(d[k + 1..]) as real / Pow10(|d| - k - 1) as real
  }

  lemma FractionZero(n: nat, p: nat)
    requires p >= 1
    ensures n as real / p as real == 0.0 <==> n == 0
  {
    if n > 0 {
      assert n as real / p as real > 0.0;
    }
  }

  predicate NoNonzeroDigit(d: string) {
    forall k :: 0 <= k < |d| ==> DigitValue(d[k]) == 0
  }

  lemma NoNonzeroDigitSplit(d: string, k: nat)
    requires k < |d| && d[k] == '.'
    ensures NoNonzeroDigit(d) <==> NoNonzeroDigit(d[..k]) && NoNonzeroDigit(d[k + 1..])
  {
    var a, b := d[..k], d[k + 1..];
    assert forall j :: 0 <= j < |a| ==> a[j] == d[j];
    assert forall j :: 0 <= j < |b| ==> b[j] == d[k + 1 + j];
    if NoNonzeroDigit(a) && NoNonzeroDigit(b) {
      forall j | 0 <= j < |d| ensures DigitValue(d[j]) == 0 {
        if j < k {
          assert d[j] == a[j];
        } else if j > k {
          assert d[j] == b[j - k - 1];
        }
      }
    }
  }

  /** A decimal is nonzero, and so truthy in PHP, exactly when one of its digits is. */
  lemma DecimalValueZero(d: string)
    ensures DecimalValue(d) == 0.0 <==> NoNonzeroDigit(d)
  {
    match DotIndex(d)
    case None => DigitsValueZero(d);
    case Some(k) =>
      DigitsValueZero(d[..k]);
      DigitsValueZero(d[k + 1..]);
      FractionZero(DigitsValue(d[k + 1..]), Pow10(|d| - k - 1));
      NoNonzeroDigitSplit(d, k);
  }

  /** The percentage loop: the first percentage pattern that matches. */
  function PercentageOf(search: Engine, text: string): (r: Option<real>)
    requires Shaped(search)
    ensures r.Some? <==> exists k :: 0 <= k < |PercentPatterns| && search(PercentPatterns[k], text).Some?
    ensures r.Some? ==> exists k :: 0 <= k < |PercentPatterns| && search(PercentPatterns[k], text).Some? &&
                          (forall j :: 0 <= j < k ==> search(PercentPatterns[j], text).None?) &&
                          r.value == DecimalValue(search(PercentPatterns[k], text).value.groups[0])
  {
    FirstHitSpec(search, PercentPatterns, text, 0);
    match FirstHit(search, PercentPatterns, text, 0)
    case Some(h) => Some(DecimalValue(h.1.groups[0]))
    case None => None
  }

  method FindPercentage(search: Engine, text: string) returns (r: Option<real>)
    requires Shaped(search)
    ensures r == PercentageOf(search, text)
  {
    var k := 0;
    while k < |PercentPatterns|
      invariant 0 <= k <= |PercentPatterns|
      invariant FirstHit(search, PercentPatterns, text, 0) == FirstHit(search, PercentPatterns, text, k)
    {
      var m := search(PercentPatterns[k], text);
      if m.Some? {
        return Some(DecimalValue(m.value.groups[0]));
      }
      k := k + 1;
    }
    return None;
  }

  /** The old and new prices of "from X to Y", when the body has one. */
  function FromToOf(search: Engine, text: string): (r: Option<(real, real)>)
    requires Shaped(search)
    ensures r.Some? <==> search(FromTo, text).Some?
  {
    match search(FromTo, text)
    case Some(m) => Some((DecimalValue(m.groups[0]), DecimalValue(m.groups[1])))
    case None => None
  }

  // ---------------------------------------------------------------------
  // The four checks
  // ---------------------------------------------------------------------

  function SourceOf(e: Email): Source { Source(e.subject, e.from) }

  /** PHP truthiness of an amount (`null` and `0.0` are falsy). */
  predicate AmountTruthy(a: Option<nat>) { a.Some? && a.value > 0 }

  predicate RealTruthy(a: Option<real>) { a.Some? && a.value != 0.0 }

  /** The decision each check makes once its keywords and values are known:
      None (PHP `false`) when the keyword scan failed, else the insight if its
      values are truthy. */
  function BillDueFrom(mentioned: bool, due: Option<DateValue>, amount: Option<nat>, src: Source): Option<seq<Insight>> {
    if !mentioned then None
    else if due.Some? || AmountTruthy(amount) then Some([BillDue(due, amount, src)])
    else Some([])
  }

  function PriceIncreaseFrom(mentioned: bool, percentage: Option<real>, fromTo: Option<(real, real)>,
                             effective: Option<DateValue>, src: Source): Option<seq<Insight>> {
    var oldPrice := if fromTo.Some? then Some(fromTo.value.0) else None;
    var newPrice := if fromTo.Some? then Some(fromTo.value.1) else None;
    if !mentioned then None
    else if RealTruthy(percentage) || (RealTruthy(oldPrice) && RealTruthy(newPrice))
    then Some([PriceIncrease(percentage, oldPrice, newPrice, effective, src)])
    else Some([])
  }

  function SubscriptionRenewalFrom(mentioned: bool, renewal: Option<DateValue>, amount: Option<nat>, src: Source): Option<seq<Insight>> {
    if !mentioned then None
    else if renewal.Some? || AmountTruthy(amount) then Some([SubscriptionRenewal(renewal, amount, src)])
    else Some([])
  }

  function PaymentConfirmationFrom(mentioned: bool, amount: Option<nat>, paid: Option<DateValue>, src: Source): Option<seq<Insight>> {
    if !mentioned then None
    else if AmountTruthy(amount) then Some([PaymentConfirmation(amount, paid, src)])
    else Some([])
  }

  /** `check_bill_due_dates` */
  function BillDueOf(search: Engine, e: Email): Option<seq<Insight>>
    requires Shaped(search)
  {
    BillDueFrom(MentionsAny(e.subject, e.body, BillKeywords), DateOf(search, DuePatterns, e.body, 0),
                AmountOf(search, e.body), SourceOf(e))
  }

  /** `check_price_increases` */
  function PriceIncreaseOf(search: Engine, e: Email): Option<seq<Insight>>
    requires Shaped(search)
  {
    PriceIncreaseFrom(MentionsAny(e.subject, e.body, PriceIncreaseKeywords), PercentageOf(search, e.body),
                      FromToOf(search, e.body), DateOf(search, EffectivePatterns, e.body, 0), SourceOf(e))
  }

  /** `check_subscription_renewals` */
  function SubscriptionRenewalOf(search: Engine, e: Email): Option<seq<Insight>>
    requires Shaped(search)
  {
    SubscriptionRenewalFrom(MentionsAny(e.subject, e.body, SubscriptionKeywords), DateOf(search, RenewalPatterns, e.body, 0),
                            AmountOf(search, e.body), SourceOf(e))
  }

  /** `check_payment_confirmations` */
  function PaymentConfirmationOf(search: Engine, e: Email): Option<seq<Insight>>
    requires Shaped(search)
  {
    PaymentConfirmationFrom(MentionsAny(e.subject, e.body, PaymentKeywords), AmountOf(search, e.body),
                            DateOf(search, PaymentDatePatterns, e.body, 0), SourceOf(e))
  }

  method CheckBillDue(search: Engine, e: Email) returns (r: Option<seq<Insight>>)
    requires Shaped(search)
    ensures r == BillDueOf(search, e)
  {
    var isBill := HasKeyword(e.subject, e.body, BillKeywords);
    if !isBill {
      return None;
    }
    var due := FindDate(search, DuePatterns, e.body);
    var amount := FindAmount(search, e.body);
    if due.Some? || AmountTruthy(amount) {
      return Some([BillDue(due, amount, SourceOf(e))]);
    }
    return Some([]);
  }

  method CheckPriceIncrease(search: Engine, e: Email) returns (r: Option<seq<Insight>>)
    requires Shaped(search)
    ensures r == PriceIncreaseOf(search, e)
  {
    var isPrice := HasKeyword(e.subject, e.body, PriceIncreaseKeywords);
    if !isPrice {
      return None;
    }
    var percentage := FindPercentage(search, e.body);
    var oldPrice: Option<real> := None;
    var newPrice: Option<real> := None;
    var m := search(FromTo, e.body);
    if m.Some? {
      oldPrice := Some(DecimalValue(m.value.groups[0]));
      newPrice := Some(DecimalValue(m.value.groups[1]));
    }
    var effective := FindDate(search, EffectivePatterns, e.body);
    if RealTruthy(percentage) || (RealTruthy(oldPrice) && RealTruthy(newPrice)) {
      return Some([PriceIncrease(percentage, oldPrice, newPrice, effective, SourceOf(e))]);
    }
    return Some([]);
  }

  method CheckSubscriptionRenewal(search: Engine, e: Email) returns (r: Option<seq<Insight>>)
    requires Shaped(search)
    ensures r == SubscriptionRenewalOf(search, e)
  {
    var isSubscription := HasKeyword(e.subject, e.body, SubscriptionKeywords);
    if !isSubscription {
      return None;
    }
    var renewal := FindDate(search, RenewalPatterns, e.body);
    var amount := FindAmount(search, e.body);
    if renewal.Some? || AmountTruthy(amount) {
      return Some([SubscriptionRenewal(renewal, amount, SourceOf(e))]);
    }
    return Some([]);
  }

  method CheckPaymentConfirmation(search: Engine, e: Email) returns (r: Option<seq<Insight>>)
    requires Shaped(search)
    ensures r == PaymentConfirmationOf(search, e)
  {
    var isPayment := HasKeyword(e.subject, e.body, PaymentKeywords);
    if !isPayment {
      return None;
    }
    var amount := FindAmount(search, e.body);
    var paid := FindDate(search, PaymentDatePatterns, e.body);
    if AmountTruthy(amount) {
      return Some([PaymentConfirmation(amount, paid, SourceOf(e))]);
    }
    return Some([]);
  }

  // ---------------------------------------------------------------------
  // analyze_email
  // ---------------------------------------------------------------------

  /** What `if ($x) array_merge(...)` adds: nothing for `false` or an empty list. */
  function Found(r: Option<seq<Insight>>): seq<Insight> {
    match r
    case Some(xs) => xs
    case None => []
  }

  function Merged(bill: Option<seq<Insight>>, price: Option<seq<Insight>>,
                  subscription: Option<seq<Insight>>, payment: Option<seq<Insight>>): seq<Insight> {
    Found(bill) + Found(price) + Found(subscription) + Found(payment)
  }

  function InsightsOf(search: Engine, e: Email): seq<Insight>
    requires Shaped(search)
  {
    Merged(BillDueOf(search, e), PriceIncreaseOf(search, e), SubscriptionRenewalOf(search, e), PaymentConfirmationOf(search, e))
  }

  /** `analyze_email`: the insights of all four checks in order, or None (PHP `false`). */
  function AnalysisOf(search: Engine, e: Email): Option<seq<Insight>>
    requires Shaped(search)
  {
    if InsightsOf(search, e) == [] then None else Some(InsightsOf(search, e))
  }

  method AnalyzeEmail(search: Engine, e: Email) returns (r: Option<seq<Insight>>)
    requires Shaped(search)
    ensures r == AnalysisOf(search, e)
  {
    var insights: seq<Insight> := [];
    var bill := CheckBillDue(search, e);
    if bill.Some? && bill.value != [] {
      insights := insights + bill.value;
    }
    assert insights == Found(bill);
    var price := CheckPriceIncrease(search, e);
    if price.Some? && price.value != [] {
      insights := insights + price.value;
    }
    assert insights == Found(bill) + Found(price);
    var subscription := CheckSubscriptionRenewal(search, e);
    if subscription.Some? && subscription.value != [] {
      insights := insights + subscription.value;
    }
    assert insights == Found(bill) + Found(price) + Found(subscription);
    var payment := CheckPaymentConfirmation(search, e);
    if payment.Some? && payment.value != [] {
      insights := insights + payment.value;
    }
    assert insights == Merged(bill, price, subscription, payment);
    assert InsightsOf(search, e) == Merged(bill, price, subscription, payment);
    if insights == [] {
      return None;
    }
    return Some(insights);
  }

  /** A check's decision holds at most one insight, of the given kind, crediting `src`. */
  predicate AtMostOne(r: Option<seq<Insight>>, rank: nat, src: Source) {
    |Found(r)| <= 1 && forall x :: x in Found(r) ==> x.Rank() == rank && x.source == src
  }

  lemma MergedOrdered(b: Option<seq<Insight>>, p: Option<seq<Insight>>, s: Option<seq<Insight>>,
                      c: Option<seq<Insight>>, src: Source)
    requires AtMostOne(b, 0, src) && AtMostOne(p, 1, src) && AtMostOne(s, 2, src) && AtMostOne(c, 3, src)
    ensures var xs := Merged(b, p, s, c);
      |xs| <= 4 &&
      (forall i, j :: 0 <= i < j < |xs| ==> xs[i].Rank() < xs[j].Rank()) &&
      (forall i :: 0 <= i < |xs| ==> xs[i].source == src)
  {
    var xs := Merged(b, p, s, c);
    forall i | 0 <= i < |xs| ensures xs[i] in Found(b) || xs[i] in Found(p) || xs[i] in Found(s) || xs[i] in Found(c) {
    }
    forall i, j | 0 <= i < j < |xs| ensures xs[i].Rank() < xs[j].Rank() {
      var fb, fp, fs := |Found(b)|, |Found(p)|, |Found(s)|;
      var ri := if i < fb then 0 else if i < fb + fp then 1 else if i < fb + fp + fs then 2 else 3;
      var rj := if j < fb then 0 else if j < fb + fp then 1 else if j < fb + fp + fs then 2 else 3;
      assert xs[i].Rank() == ri;
      assert xs[j].Rank() == rj;
    }
  }

  /** The decisions of the four checks, merged, hold at most one insight per kind,
      kinds in check order, all crediting the same source. */
  lemma MergedShape(b: bool, due: Option<DateValue>, amount: Option<nat>,
                    p: bool, percentage: Option<real>, fromTo: Option<(real, real)>, effective: Option<DateValue>,
                    s: bool, renewal: Option<DateValue>, c: bool, paid: Option<DateValue>, src: Source)
    ensures var xs := Merged(BillDueFrom(b, due, amount, src), PriceIncreaseFrom(p, percentage, fromTo, effective, src),
                             SubscriptionRenewalFrom(s, renewal, amount, src), PaymentConfirmationFrom(c, amount, paid, src));
      |xs| <= 4 &&
      (forall i, j :: 0 <= i < j < |xs| ==> xs[i].Rank() < xs[j].Rank()) &&
      (forall i :: 0 <= i < |xs| ==> xs[i].source == src)
  {
    MergedOrdered(BillDueFrom(b, due, amount, src), PriceIncreaseFrom(p, percentage, fromTo, effective, src),
                  SubscriptionRenewalFrom(s, renewal, amount, src), PaymentConfirmationFrom(c, amount, paid, src), src);
  }

  /** The analysis yields at most one insight per kind, kinds in check order, each
      crediting the email's subject and sender. */
  lemma AnalysisShape(search: Engine, e: Email)
    requires Shaped(search)
    ensures AnalysisOf(search, e).Some? ==>
      var xs := AnalysisOf(search, e).value;
      1 <= |xs| <= 4 &&
      (forall i, j :: 0 <= i < j < |xs| ==> xs[i].Rank() < xs[j].Rank()) &&
      (forall i :: 0 <= i < |xs| ==> xs[i].source == SourceOf(e))
  {
    MergedShape(MentionsAny(e.subject, e.body, BillKeywords), DateOf(search, DuePatterns, e.body, 0), AmountOf(search, e.body),
                MentionsAny(e.subject, e.body, PriceIncreaseKeywords), PercentageOf(search, e.body), FromToOf(search, e.body),
                DateOf(search, EffectivePatterns, e.body, 0),
                MentionsAny(e.subject, e.body, SubscriptionKeywords), DateOf(search, RenewalPatterns, e.body, 0),
                MentionsAny(e.subject, e.body, PaymentKeywords), DateOf(search, PaymentDatePatterns, e.body, 0), SourceOf(e));
  }

  /** Which kinds the merged decisions hold: each exactly when its keywords
      occurred and its values are truthy. */
  lemma MergedMembership(b: bool, due: Option<DateValue>, amount: Option<nat>,
                         p: bool, percentage: Option<real>, fromTo: Option<(real, real)>, effective: Option<DateValue>,
                         s: bool, renewal: Option<DateValue>, c: bool, paid: Option<DateValue>, src: Source)
    ensures var xs := Merged(BillDueFrom(b, due, amount, src), PriceIncreaseFrom(p, percentage, fromTo, effective, src),
                             SubscriptionRenewalFrom(s, renewal, amount, src), PaymentConfirmationFrom(c, amount, paid, src));
      ((exists x :: x in xs && x.BillDue?) <==> b && (due.Some? || AmountTruthy(amount))) &&
      ((exists x :: x in xs && x.PriceIncrease?) <==>
         p && (RealTruthy(percentage) || (fromTo.Some? && fromTo.value.0 != 0.0 && fromTo.value.1 != 0.0))) &&
      ((exists x :: x in xs && x.SubscriptionRenewal?) <==> s && (renewal.Some? || AmountTruthy(amount))) &&
      ((exists x :: x in xs && x.PaymentConfirmation?) <==> c && AmountTruthy(amount))
  {
    var bs := BillDueFrom(b, due, amount, src);
    var ps := PriceIncreaseFrom(p, percentage, fromTo, effective, src);
    var ss := SubscriptionRenewalFrom(s, renewal, amount, src);
    var cs := PaymentConfirmationFrom(c, amount, paid, src);
    var xs := Merged(bs, ps, ss, cs);
    assert forall x :: x in xs <==> x in Found(bs) || x in Found(ps) || x in Found(ss) || x in Found(cs);
    if c && AmountTruthy(amount) {
      assert PaymentConfirmation(amount, paid, src) in xs;
    }
    if s && (renewal.Some? || AmountTruthy(amount)) {
      assert SubscriptionRenewal(renewal, amount, src) in xs;
    }
    if b && (due.Some? || AmountTruthy(amount)) {
      assert BillDue(due, amount, src) in xs;
    }
    if p && (RealTruthy(percentage) || (fromTo.Some? && fromTo.value.0 != 0.0 && fromTo.value.1 != 0.0)) {
      var oldPrice := if fromTo.Some? then Some(fromTo.value.0) else None;
      var newPrice := if fromTo.Some? then Some(fromTo.value.1) else None;
      assert PriceIncrease(percentage, oldPrice, newPrice, effective, src) in xs;
    }
  }

  /** Which insights appear: each kind exactly when its keywords occur and its values are truthy. */
  lemma AnalysisMembership(search: Engine, e: Email)
    requires Shaped(search)
    ensures (exists x :: x in InsightsOf(search, e) && x.BillDue?) <==>
      MentionsAny(e.subject, e.body, BillKeywords) &&
      (DateOf(search, DuePatterns, e.body, 0).Some? || AmountTruthy(AmountOf(search, e.body)))
    ensures (exists x :: x in InsightsOf(search, e) && x.PriceIncrease?) <==>
      MentionsAny(e.subject, e.body, PriceIncreaseKeywords) &&
      (RealTruthy(PercentageOf(search, e.body)) ||
       (FromToOf(search, e.body).Some? && FromToOf(search, e.body).value.0 != 0.0 && FromToOf(search, e.body).value.1 != 0.0))
    ensures (exists x :: x in InsightsOf(search, e) && x.SubscriptionRenewal?) <==>
      MentionsAny(e.subject, e.body, SubscriptionKeywords) &&
      (DateOf(search, RenewalPatterns, e.body, 0).Some? || AmountTruthy(AmountOf(search, e.body)))
    ensures (exists x :: x in InsightsOf(search, e) && x.PaymentConfirmation?) <==>
      MentionsAny(e.subject, e.body, PaymentKeywords) && AmountTruthy(AmountOf(search, e.body))
  {
    MergedMembership(MentionsAny(e.subject, e.body, BillKeywords), DateOf(search, DuePatterns, e.body, 0), AmountOf(search, e.body),
                     MentionsAny(e.subject, e.body, PriceIncreaseKeywords), PercentageOf(search, e.body), FromToOf(search, e.body),
                     DateOf(search, EffectivePatterns, e.body, 0),
                     MentionsAny(e.subject, e.body, SubscriptionKeywords), DateOf(search, RenewalPatterns, e.body, 0),
                     MentionsAny(e.subject, e.body, PaymentKeywords), DateOf(search, PaymentDatePatterns, e.body, 0), SourceOf(e));
  }

  /** A price increase records its old and new prices together, both from the
      "from X to Y" match and only when there is one, and its percentage is the
      one the percentage patterns found. */
  lemma PriceFieldsTogether(search: Engine, e: Email)
    requires Shaped(search)
    ensures forall x :: x in InsightsOf(search, e) && x.PriceIncrease? ==>
      (x.oldAmount.Some? <==> FromToOf(search, e.body).Some?) &&
      (x.newAmount.Some? <==> FromToOf(search, e.body).Some?) &&
      (FromToOf(search, e.body).Some? ==>
         x.oldAmount.value == FromToOf(search, e.body).value.0 && x.newAmount.value == FromToOf(search, e.body).value.1) &&
      x.percentage == PercentageOf(search, e.body) &&
      x.effectiveDate == DateOf(search, EffectivePatterns, e.body, 0)
  {
    var xs := InsightsOf(search, e);
    var b, p, s, c := BillDueOf(search, e), PriceIncreaseOf(search, e), SubscriptionRenewalOf(search, e), PaymentConfirmationOf(search, e);
    assert forall x :: x in xs <==> x in Found(b) || x in Found(p) || x in Found(s) || x in Found(c);
  }

  /** `analyze_email` returns `false` exactly when no check produced an insight. */
  lemma AnalysisNoneIff(search: Engine, e: Email)
    requires Shaped(search)
    ensures AnalysisOf(search, e).None? <==>
      Found(BillDueOf(search, e)) == [] && Found(PriceIncreaseOf(search, e)) == [] &&
      Found(SubscriptionRenewalOf(search, e)) == [] && Found(PaymentConfirmationOf(search, e)) == []
  {
  }

  lemma {:induction false} DateOfEmptyText(search: Engine, pats: seq<Pattern>, from: nat)
    requires Shaped(search) && NothingInEmpty(search) && AllDatePatterns(pats)
    ensures DateOf(search, pats, "", from).None?
    decreases |pats| - from
  {
    if from < |pats| {
      assert search(pats[from], "").None?;
      DateOfEmptyText(search, pats, from + 1);
    }
  }

  /** With an empty body nothing can be found, whatever the subject says. */
  lemma EmptyBodyFindsNothing(search: Engine, subject: string, from: string)
    requires Shaped(search) && NothingInEmpty(search)
    ensures AnalysisOf(search, Email(subject, "", from)).None?
  {
    DateOfEmptyText(search, DuePatterns, 0);
    DateOfEmptyText(search, RenewalPatterns, 0);
    FirstHitEmptyText(search, AmountPatterns, 0);
    FirstHitEmptyText(search, PercentPatterns, 0);
    assert search(FromTo, "").None?;
  }
}
