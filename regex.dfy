/** Hand-written matchers for every regular expression the core passes to
    `preg_match` and `preg_match_all`.

    PCRE semantics: the leftmost starting position at which the pattern matches
    wins, and at that position the first successful path in backtracking order
    (greedy quantifiers try the longest run first, alternatives are tried left to
    right, optional groups are tried before being skipped).  Each matcher below
    lists, at one starting position, the positions its backtracking can continue
    from, in that order, and takes the first that succeeds.  A path that would
    leave a whitespace character, a letter or a digit where the next token cannot
    accept it fails immediately; such paths are named in the comments and left
    out of the lists. */
module Regex {
  import opened Text

  /** One successful match: `groups[k]` is capture group k+1, and the whole match
      is `s[start..end]`. */
  datatype Match = Match(start: nat, end: nat, groups: seq<string>)

  /** The source's regular expressions, by shape. */
  datatype Pattern =
      /** an analyzer date pattern: keyword alternatives, a lead, then a date */
    | DatePat(alts: seq<Alt>, lead: Lead, form: DateForm)
      /** a parser date pattern: a date alone, the ordinal suffix case-sensitive */
    | BareDate(form: DateForm)
      /** `/(?:amount|total|payment|charge|fee|price)\s+(?:due|of|:)?\s*\$?(AMOUNT)/i` */
    | AmountAfterLabel
      /** `/\$(AMOUNT)\s+(?:amount|total|payment|charge|fee|price)/i` */
    | AmountBeforeLabel
      /** `/\$(AMOUNT)/` */
    | DollarAmount
      /** `/(AMOUNT)\s*(?:USD|dollars|EUR|GBP)/` */
    | AmountWithCurrency
      /** `/(?:increase|change|adjustment|raising|up)\s+(?:of|by)\s+(DECIMAL)(?:\s*)?(?:%|percent)/i` */
    | PercentAfterWord
      /** `/(DECIMAL)(?:\s*)?(?:%|percent)\s+(?:increase|change|adjustment|higher|more)/i` */
    | PercentBeforeWord
      /** `/from\s+\$?(DECIMAL)\s+to\s+\$?(DECIMAL)/i` */
    | FromTo
      /** `/<a\s+(?:[^>]*?\s+)?href=(["\'])(.*?)\1/i` */
    | AnchorHref

  /** The three date shapes:
      NumericDate `(\d{1,2})[\/\-\.](\d{1,2})[\/\-\.](\d{4})`,
      MonthFirst  `([A-Za-z]+)\s+(\d{1,2})(?:st|nd|rd|th)?,\s*(\d{4})`,
      DayFirst    `(\d{1,2})(?:st|nd|rd|th)?\s+([A-Za-z]+)\s+(\d{4})`. */
  datatype DateForm = NumericDate | MonthFirst | DayFirst

  /** One alternative of a keyword group, always matched ignoring case:
      a literal, `a.?b`, or `a\s+b`. */
  datatype Alt = Word(w: string) | WordAnyWord(a: string, b: string) | WordSpaceWord(a: string, b: string)

  /** What comes between the keyword group and the date:
      Labelled(ls)  `\s+(?:l1|l2|...)?\s*:?\s*`,
      Qualified(ws) `(?:\s+w1|\s+w2|...)?\s+`,
      Spaced        `\s+`. */
  datatype Lead = Labelled(labels: seq<string>) | Qualified(words: seq<string>) | Spaced

  // ---------------------------------------------------------------------
  // Number shapes
  // ---------------------------------------------------------------------

  /** `(?:,\d{3})*`, greedily, from j. */
  function ThousandsEnd(s: string, j: nat): (e: nat)
    requires j <= |s|
    ensures j <= e <= |s|
    decreases |s| - j
  {
    if j + 4 <= |s| && s[j] == ',' && IsDigit(s[j + 1]) && IsDigit(s[j + 2]) && IsDigit(s[j + 3])
    then ThousandsEnd(s, j + 4)
    else j
  }

  /** `(?:\.\d{2})?`, greedily, at j. */
  function CentsEnd(s: string, j: nat): (e: nat)
    requires j <= |s|
    ensures e == j || (e == j + 3 <= |s| && s[j] == '.' && IsDigit(s[j + 1]) && IsDigit(s[j + 2]))
  {
    if j + 3 <= |s| && s[j] == '.' && IsDigit(s[j + 1]) && IsDigit(s[j + 2]) then j + 3 else j
  }

  /** AMOUNT = `\d+(?:,\d{3})*(?:\.\d{2})?` at i, every part greedy.  When AMOUNT is
      followed by more pattern, a shorter AMOUNT leaves a digit, ',' or '.' next,
      which none of the continuations here accept, so only the greedy run counts. */
  function AmountEnd(s: string, i: nat): (r: Option<nat>)
    requires i <= |s|
    ensures r.Some? ==> i < r.value <= |s| && IsDigit(s[i])
    ensures r.None? <==> (i == |s| || !IsDigit(s[i]))
  {
    if i < |s| && IsDigit(s[i]) then Some(CentsEnd(s, ThousandsEnd(s, DigitEnd(s, i)))) else None
  }

  /** DECIMAL = `\d+(?:\.\d+)?` at i, greedy. */
  function DecimalEnd(s: string, i: nat): (r: Option<nat>)
    requires i <= |s|
    ensures r.Some? ==> i < r.value <= |s|
    ensures r.None? <==> (i == |s| || !IsDigit(s[i]))
  {
    if i < |s| && IsDigit(s[i]) then
      var j := DigitEnd(s, i);
      if j + 1 < |s| && s[j] == '.' && IsDigit(s[j + 1]) then Some(DigitEnd(s, j + 1)) else Some(j)
    else None
  }

  /** `\d{1,2}`, greedy, at i: i + 2, i + 1, or i when no digit is there. */
  function UpTo2Digits(s: string, i: nat): (e: nat)
    requires i <= |s|
    ensures i <= e <= |s| && e <= i + 2
    ensures forall k :: i <= k < e ==> IsDigit(s[k])
    ensures e == i <==> (i == |s| || !IsDigit(s[i]))
  {
    if i < |s| && IsDigit(s[i]) then (if i + 1 < |s| && IsDigit(s[i + 1]) then i + 2 else i + 1) else i
  }

  predicate FourDigitsAt(s: string, i: nat) {
    i + 4 <= |s| && forall k :: i <= k < i + 4 ==> IsDigit(s[k])
  }

  const Ordinals: seq<string> := ["st", "nd", "rd", "th"]

  /** `(?:st|nd|rd|th)?` at i. */
  function OrdinalEnd(s: string, i: nat, ci: bool): (e: nat)
    requires i <= |s|
    ensures i <= e <= |s|
  {
    match FirstLitEnd(s, i, Ordinals, ci)
    case Some(e) => e
    case None => i
  }

  predicate IsDateSep(c: char) { c == '/' || c == '-' || c == '.' }

  // ---------------------------------------------------------------------
  // Dates
  // ---------------------------------------------------------------------

  /** What the three captures of a date form look like: digits where the form has
      `\d`, letters where it has `[A-Za-z]+`, and a four-digit year last. */
  predicate FormShape(form: DateForm, g: seq<string>) {
    |g| == 3 && IsNumeric(g[2]) && |g[2]| == 4 &&
    match form
    case NumericDate => IsNumeric(g[0]) && IsNumeric(g[1])
    case MonthFirst => |g[0]| > 0 && AllLetters(g[0]) && IsNumeric(g[1])
    case DayFirst => IsNumeric(g[0]) && |g[1]| > 0 && AllLetters(g[1])
  }

  /** The date part of a pattern at position i: the three captures and the end.
      Every quantifier is greedy; a shorter `\d{1,2}` leaves a digit where a
      separator, suffix, comma or space is needed, and a shorter `[A-Za-z]+` or
      `\s+` leaves a letter or space where a space or digit is needed. */
  function DateAt(form: DateForm, s: string, i: nat, ci: bool): (r: Option<(seq<string>, nat)>)
    requires i <= |s|
    ensures r.Some? ==> i < r.value.1 <= |s| && FormShape(form, r.value.0)
  {
    match form
    case NumericDate => NumericDateAt(s, i)
    case MonthFirst => MonthFirstAt(s, i, ci)
    case DayFirst => DayFirstAt(s, i, ci)
  }

  function NumericDateAt(s: string, i: nat): (r: Option<(seq<string>, nat)>)
    requires i <= |s|
    ensures r.Some? ==> i < r.value.1 <= |s| && FormShape(NumericDate, r.value.0)
  {
    var d1 := UpTo2Digits(s, i);
    if d1 == i || d1 >= |s| || !IsDateSep(s[d1]) then None
    else
      var d2 := UpTo2Digits(s, d1 + 1);
      if d2 == d1 + 1 || d2 >= |s| || !IsDateSep(s[d2]) || !FourDigitsAt(s, d2 + 1) then None
      else Some(([s[i..d1], s[d1 + 1..d2], s[d2 + 1..d2 + 5]], d2 + 5))
  }

  function MonthFirstAt(s: string, i: nat, ci: bool): (r: Option<(seq<string>, nat)>)
    requires i <= |s|
    ensures r.Some? ==> i < r.value.1 <= |s| && FormShape(MonthFirst, r.value.0)
  {
    var l := LetterEnd(s, i);
    var w := SpaceEnd(s, l);
    var d := UpTo2Digits(s, w);
    if l == i || w == l || d == w then None
    else
      var x := OrdinalEnd(s, d, ci);
      if x >= |s| || s[x] != ',' then None
      else
        var y := SpaceEnd(s, x + 1);
        if !FourDigitsAt(s, y) then None
        else Some(([s[i..l], s[w..d], s[y..y + 4]], y + 4))
  }

  function DayFirstAt(s: string, i: nat, ci: bool): (r: Option<(seq<string>, nat)>)
    requires i <= |s|
    ensures r.Some? ==> i < r.value.1 <= |s| && FormShape(DayFirst, r.value.0)
  {
    var d := UpTo2Digits(s, i);
    if d == i then None
    else
      var x := OrdinalEnd(s, d, ci);
      var w := SpaceEnd(s, x);
      var l := LetterEnd(s, w);
      var v := SpaceEnd(s, l);
      if w == x || l == w || v == l || !FourDigitsAt(s, v) then None
      else Some(([s[i..d], s[w..l], s[v..v + 4]], v + 4))
  }

  /** The first of two results in backtracking order that succeeds. */
  function Or<T>(a: Option<T>, b: Option<T>): Option<T> {
    if a.Some? then a else b
  }

  /** `\s*:?\s*` at j: the one position a date can start from afterwards (leaving
      out the ':' or a space would leave a ':' or a space where the date begins). */
  function AfterColon(s: string, j: nat): (e: nat)
    requires j <= |s|
    ensures j <= e <= |s|
  {
    var a := SpaceEnd(s, j);
    if a < |s| && s[a] == ':' then SpaceEnd(s, a + 1) else a
  }

  /** `(?:l1|l2|...)` at k followed by `\s*:?\s*` and the date, the labels tried in order. */
  function DateAfterLabels(s: string, k: nat, labels: seq<string>, form: DateForm): (r: Option<(seq<string>, nat)>)
    requires k <= |s|
    ensures r.Some? ==> k < r.value.1 <= |s| && FormShape(form, r.value.0)
  {
    if labels == [] then None
    else
      Or(if LitAt(s, k, labels[0], true) then DateAt(form, s, AfterColon(s, k + |labels[0]|), true) else None,
         DateAfterLabels(s, k, labels[1..], form))
  }

  /** `(?:\s+w1|\s+w2|...)` ending at a word, then `\s+` and the date. */
  function DateAfterWords(s: string, k: nat, words: seq<string>, form: DateForm): (r: Option<(seq<string>, nat)>)
    requires k <= |s|
    ensures r.Some? ==> k < r.value.1 <= |s| && FormShape(form, r.value.0)
  {
    if words == [] then None
    else
      var e := k + |words[0]|;
      Or(if LitAt(s, k, words[0], true) && SpaceEnd(s, e) > e then DateAt(form, s, SpaceEnd(s, e), true) else None,
         DateAfterWords(s, k, words[1..], form))
  }

  /** The lead that begins at p, then the date, in backtracking order.  The leading
      `\s+` takes the whole run first; taking less leaves a space where a label, a
      qualifying word or a date would have to begin, which only repeats the last
      alternative. */
  function DateAfterLead(s: string, p: nat, lead: Lead, form: DateForm): (r: Option<(seq<string>, nat)>)
    requires p <= |s|
    ensures r.Some? ==> p < r.value.1 <= |s| && FormShape(form, r.value.0)
  {
    var k := SpaceEnd(s, p);
    if k == p then None
    else
      match lead
      case Labelled(labels) => Or(DateAfterLabels(s, k, labels, form), DateAt(form, s, AfterColon(s, k), true))
      case Qualified(words) => Or(DateAfterWords(s, k, words, form), DateAt(form, s, k, true))
      case Spaced => DateAt(form, s, k, true)
  }

  /** One keyword alternative at i, then the lead and the date. */
  function DateAfterAlt(s: string, i: nat, alt: Alt, lead: Lead, form: DateForm): (r: Option<(seq<string>, nat)>)
    ensures r.Some? ==> i < r.value.1 <= |s| && FormShape(form, r.value.0)
  {
    match alt
    case Word(w) =>
      if LitAt(s, i, w, true) then DateAfterLead(s, i + |w|, lead, form) else None
    case WordAnyWord(a, b) =>
      // `.?` is greedy: first with one character other than a line feed, then without
      var j := i + |a|;
      Or(if LitAt(s, i, a, true) && j < |s| && s[j] != '\n' && LitAt(s, j + 1, b, true)
         then DateAfterLead(s, j + 1 + |b|, lead, form) else None,
         if LitAt(s, i, a, true) && LitAt(s, j, b, true) then DateAfterLead(s, j + |b|, lead, form) else None)
    case WordSpaceWord(a, b) =>
      // a shorter `\s+` leaves a space where b must begin
      if LitAt(s, i, a, true) && SpaceEnd(s, i + |a|) > i + |a| && LitAt(s, SpaceEnd(s, i + |a|), b, true)
      then DateAfterLead(s, SpaceEnd(s, i + |a|) + |b|, lead, form)
      else None
  }

  function DateAfterAlts(s: string, i: nat, alts: seq<Alt>, lead: Lead, form: DateForm): (r: Option<(seq<string>, nat)>)
    ensures r.Some? ==> i < r.value.1 <= |s| && FormShape(form, r.value.0)
  {
    if alts == [] then None
    else Or(DateAfterAlt(s, i, alts[0], lead, form), DateAfterAlts(s, i, alts[1..], lead, form))
  }

  function DatePatAt(alts: seq<Alt>, lead: Lead, form: DateForm, s: string, i: nat): (r: Option<Match>)
    requires i <= |s|
    ensures r.Some? ==> r.value.start == i < r.value.end <= |s| && FormShape(form, r.value.groups)
  {
    match DateAfterAlts(s, i, alts, lead, form)
    case Some(m) => Some(Match(i, m.1, m.0))
    case None => None
  }

  // ---------------------------------------------------------------------
  // Amounts and percentages
  // ---------------------------------------------------------------------

  /** The six amount labels; none is a prefix of another, so at most one matches at a position. */
  const AmountLabels: seq<string> := ["amount", "total", "payment", "charge", "fee", "price"]

  /** `\$?` then AMOUNT at c; leaving out a '$' that is there puts '$' where a digit is needed. */
  function DollarOptAmount(s: string, c: nat): (r: Option<(nat, nat)>)
    requires c <= |s|
    ensures r.Some? ==> c <= r.value.0 < r.value.1 <= |s|
  {
    var c1 := if c < |s| && s[c] == '$' then c + 1 else c;
    match AmountEnd(s, c1)
    case Some(e) => Some((c1, e))
    case None => None
  }

  function AmountAfterLabelAt(s: string, i: nat): (r: Option<Match>)
    requires i <= |s|
    ensures r.Some? ==> r.value.start == i < r.value.end <= |s|
  {
    match FirstLitEnd(s, i, AmountLabels, true)
    case None => None
    case Some(e) =>
      var k := SpaceEnd(s, e);
      if k == e then None
      else
        // `(?:due|of|:)?` is tried first, then skipped; `\s*` leaves no space behind
        var first := match FirstLitEnd(s, k, ["due", "of", ":"], true)
          case Some(w) => DollarOptAmount(s, SpaceEnd(s, w))
          case None => None;
        var found := if first.Some? then first else DollarOptAmount(s, k);
        match found
        case Some(g) => Some(Match(i, g.1, [s[g.0..g.1]]))
        case None => None
  }

  function AmountBeforeLabelAt(s: string, i: nat): (r: Option<Match>)
    requires i <= |s|
    ensures r.Some? ==> r.value.start == i < r.value.end <= |s|
  {
    if i >= |s| || s[i] != '$' then None
    else
      match AmountEnd(s, i + 1)
      case None => None
      case Some(e) =>
        var k := SpaceEnd(s, e);
        if k == e then None
        else
          match FirstLitEnd(s, k, AmountLabels, true)
          case Some(end) => Some(Match(i, end, [s[i + 1..e]]))
          case None => None
  }

  function DollarAmountAt(s: string, i: nat): (r: Option<Match>)
    requires i <= |s|
    ensures r.Some? ==> r.value.start == i < r.value.end <= |s|
  {
    if i >= |s| || s[i] != '$' then None
    else
      match AmountEnd(s, i + 1)
      case None => None
      case Some(e) => Some(Match(i, e, [s[i + 1..e]]))
  }

  const Currencies: seq<string> := ["USD", "dollars", "EUR", "GBP"]

  function AmountWithCurrencyAt(s: string, i: nat): (r: Option<Match>)
    requires i <= |s|
    ensures r.Some? ==> r.value.start == i < r.value.end <= |s|
  {
    match AmountEnd(s, i)
    case None => None
    case Some(e) =>
      match FirstLitEnd(s, SpaceEnd(s, e), Currencies, false)
      case Some(end) => Some(Match(i, end, [s[i..e]]))
      case None => None
  }

  const PercentUnits: seq<string> := ["%", "percent"]

  function PercentAfterWordAt(s: string, i: nat): (r: Option<Match>)
    requires i <= |s|
    ensures r.Some? ==> r.value.start == i < r.value.end <= |s|
  {
    match FirstLitEnd(s, i, ["increase", "change", "adjustment", "raising", "up"], true)
    case None => None
    case Some(e) =>
      var k := SpaceEnd(s, e);
      if k == e then None
      else
        match FirstLitEnd(s, k, ["of", "by"], true)
        case None => None
        case Some(w) =>
          var k2 := SpaceEnd(s, w);
          if k2 == w then None
          else
            match DecimalEnd(s, k2)
            case None => None
            case Some(d) =>
              match FirstLitEnd(s, SpaceEnd(s, d), PercentUnits, true)
              case Some(end) => if i < end then Some(Match(i, end, [s[k2..d]])) else None
              case None => None
  }

  function PercentBeforeWordAt(s: string, i: nat): (r: Option<Match>)
    requires i <= |s|
    ensures r.Some? ==> r.value.start == i < r.value.end <= |s|
  {
    match DecimalEnd(s, i)
    case None => None
    case Some(d) =>
      match FirstLitEnd(s, SpaceEnd(s, d), PercentUnits, true)
      case None => None
      case Some(u) =>
        var k := SpaceEnd(s, u);
        if k == u then None
        else
          match FirstLitEnd(s, k, ["increase", "change", "adjustment", "higher", "more"], true)
          case Some(end) => if i < end then Some(Match(i, end, [s[i..d]])) else None
          case None => None
  }

  function FromToAt(s: string, i: nat): (r: Option<Match>)
    requires i <= |s|
    ensures r.Some? ==> r.value.start == i < r.value.end <= |s|
  {
    if !LitAt(s, i, "from", true) then None
    else
      var k := SpaceEnd(s, i + 4);
      if k == i + 4 then None
      else
        var c := if k < |s| && s[k] == '$' then k + 1 else k;
        match DecimalEnd(s, c)
        case None => None
        case Some(d1) =>
          var k2 := SpaceEnd(s, d1);
          if k2 == d1 || !LitAt(s, k2, "to", true) then None
          else
            var k3 := SpaceEnd(s, k2 + 2);
            if k3 == k2 + 2 then None
            else
              var c2 := if k3 < |s| && s[k3] == '$' then k3 + 1 else k3;
              match DecimalEnd(s, c2)
              case None => None
              case Some(d2) => Some(Match(i, d2, [s[c..d1], s[c2..d2]]))
  }

  // ---------------------------------------------------------------------
  // Links
  // ---------------------------------------------------------------------

  /** The positions where `href=` may start once `[^>]*?\s+` has been tried: the
      lazy `[^>]*?` grows one character at a time from k, without crossing a '>',
      and whenever it stops at a space, `\s+` takes that whole run of spaces. */
  function HrefAfterAttrs(s: string, j: nat): (r: seq<nat>)
    requires j <= |s|
    ensures forall n :: 0 <= n < |r| ==> j <= r[n] <= |s|
    decreases |s| - j
  {
    if j == |s| || s[j] == '>' then []
    else (if IsSpace(s[j]) then [SpaceEnd(s, j)] else []) + HrefAfterAttrs(s, j + 1)
  }

  /** `(.*?)\1`: the first `q` at or after `from` on the same line. */
  function CloseQuote(s: string, from: nat, q: char): (r: Option<nat>)
    requires from <= |s|
    ensures r.Some? ==> from <= r.value < |s| && s[r.value] == q
    ensures r.Some? ==> forall k :: from <= k < r.value ==> s[k] != q && s[k] != '\n'
    decreases |s| - from
  {
    if from == |s| || s[from] == '\n' then None
    else if s[from] == q then Some(from)
    else CloseQuote(s, from + 1, q)
  }

  /** A quote character `h.0` opens at `h.1 - 1` and closes at `h.2`, with neither
      that quote nor a line feed between. */
  predicate Quoted(s: string, h: (char, nat, nat)) {
    1 <= h.1 <= h.2 < |s| && (h.0 == '"' || h.0 == '\'') && s[h.1 - 1] == h.0 && s[h.2] == h.0 &&
    forall k :: h.1 <= k < h.2 ==> s[k] != h.0 && s[k] != '\n'
  }

  /** `href=(["\'])(.*?)\1` at c: the quote, the value's bounds. */
  function HrefAt(s: string, c: nat): (r: Option<(char, nat, nat)>)
    requires c <= |s|
    ensures r.Some? ==> c + 6 <= r.value.2 < |s| && r.value.1 == c + 6 && Quoted(s, r.value)
  {
    if LitAt(s, c, "href=", true) && c + 5 < |s| && (s[c + 5] == '"' || s[c + 5] == '\'') then
      match CloseQuote(s, c + 6, s[c + 5])
      case Some(v) => Some((s[c + 5], c + 6, v))
      case None => None
    else None
  }

  function FirstHref(s: string, cands: seq<nat>): (r: Option<(char, nat, nat)>)
    requires forall n :: 0 <= n < |cands| ==> cands[n] <= |s|
    ensures r.Some? ==> Quoted(s, r.value)
  {
    if cands == [] then None
    else
      match HrefAt(s, cands[0])
      case Some(h) => Some(h)
      case None => FirstHref(s, cands[1..])
  }

  /** The captures of a link match are a quote and the value it encloses, which
      ends just before the match does. */
  predicate QuotedValue(s: string, m: Match) {
    |m.groups| == 2 && |m.groups[0]| == 1 && |m.groups[1]| + 1 <= m.end <= |s| &&
    Quoted(s, (m.groups[0][0], m.end - 1 - |m.groups[1]|, m.end - 1)) &&
    m.groups[1] == s[m.end - 1 - |m.groups[1]|..m.end - 1]
  }

  function AnchorHrefAt(s: string, i: nat): (r: Option<Match>)
    requires i <= |s|
    ensures r.Some? ==> r.value.start == i < r.value.end <= |s|
    ensures r.Some? ==> QuotedValue(s, r.value)
  {
    if !LitAt(s, i, "<a", true) then None
    else
      var k := SpaceEnd(s, i + 2);
      if k == i + 2 then None
      else
        // the optional group is tried before it is skipped
        match FirstHref(s, HrefAfterAttrs(s, k) + [k])
        case Some(h) => if i < h.2 + 1 then Some(Match(i, h.2 + 1, [[h.0], s[h.1..h.2]])) else None
        case None => None
  }

  // ---------------------------------------------------------------------
  // preg_match and preg_match_all
  // ---------------------------------------------------------------------

  /** The captures each pattern yields. */
  predicate GroupsShape(p: Pattern, g: seq<string>) {
    match p
    case DatePat(_, _, form) => FormShape(form, g)
    case BareDate(form) => FormShape(form, g)
    case FromTo => |g| == 2
    case AnchorHref => |g| == 2
    case _ => |g| == 1
  }

  /** The match PCRE reports when it tries pattern p at position i. */
  function MatchAt(p: Pattern, s: string, i: nat): (r: Option<Match>)
    requires i <= |s|
    ensures r.Some? ==> r.value.start == i < r.value.end <= |s|
    ensures r.Some? ==> GroupsShape(p, r.value.groups)
    ensures r.Some? && p.AnchorHref? ==> QuotedValue(s, r.value)
  {
    match p
    case DatePat(alts, lead, form) => DatePatAt(alts, lead, form, s, i)
    case BareDate(form) =>
      (match DateAt(form, s, i, false)
       case Some(m) => Some(Match(i, m.1, m.0))
       case None => None)
    case AmountAfterLabel => AmountAfterLabelAt(s, i)
    case AmountBeforeLabel => AmountBeforeLabelAt(s, i)
    case DollarAmount => DollarAmountAt(s, i)
    case AmountWithCurrency => AmountWithCurrencyAt(s, i)
    case PercentAfterWord => PercentAfterWordAt(s, i)
    case PercentBeforeWord => PercentBeforeWordAt(s, i)
    case FromTo => FromToAt(s, i)
    case AnchorHref => AnchorHrefAt(s, i)
  }

  /** The outcome of trying p at every position of s, the end of s included. */
  function Tries(p: Pattern, s: string): (rs: seq<Option<Match>>)
    ensures |rs| == |s| + 1 && Consistent(rs)
    ensures forall j :: 0 <= j <= |s| ==> rs[j] == MatchAt(p, s, j)
  {
    seq(|s| + 1, j requires 0 <= j <= |s| => MatchAt(p, s, j))
  }

  /** A table of attempts in which each success begins where it was tried and
      consumes at least one character of the text. */
  predicate Consistent(rs: seq<Option<Match>>) {
    forall j :: 0 <= j < |rs| && rs[j].Some? ==> rs[j].value.start == j < rs[j].value.end < |rs|
  }

  /** The first success in `rs` at or after `from`. */
  function FirstFrom(rs: seq<Option<Match>>, from: nat): (r: Option<Match>)
    decreases |rs| - from
  {
    if from >= |rs| then None
    else
      match rs[from]
      case Some(m) => Some(m)
      case None => FirstFrom(rs, from + 1)
  }

  lemma {:induction false} FirstFromFirst(rs: seq<Option<Match>>, from: nat)
    ensures FirstFrom(rs, from).Some? ==>
      exists k :: from <= k < |rs| && rs[k] == FirstFrom(rs, from) && forall j :: from <= j < k ==> rs[j].None?
    ensures FirstFrom(rs, from).None? ==> forall j :: from <= j < |rs| ==> rs[j].None?
    decreases |rs| - from
  {
    if from < |rs| && rs[from].None? {
      FirstFromFirst(rs, from + 1);
    }
  }

  /** Successive first successes, each resuming where the previous one ended. */
  function AllFrom(rs: seq<Option<Match>>, from: nat): (r: seq<Match>)
    requires Consistent(rs)
    decreases |rs| - from
  {
    FirstFromFirst(rs, from);
    match FirstFrom(rs, from)
    case None => []
    case Some(m) => [m] + AllFrom(rs, m.end)
  }

  lemma {:induction false} AllFromOrdered(rs: seq<Option<Match>>, from: nat)
    requires Consistent(rs)
    ensures var ms := AllFrom(rs, from);
      (forall k :: 0 <= k < |ms| ==> from <= ms[k].start < ms[k].end < |rs| && rs[ms[k].start] == Some(ms[k])) &&
      (forall k :: 0 <= k < |ms| - 1 ==> ms[k].end <= ms[k + 1].start)
    decreases |rs| - from
  {
    FirstFromFirst(rs, from);
    match FirstFrom(rs, from)
    case None =>
    case Some(m) =>
      AllFromOrdered(rs, m.end);
      assert AllFrom(rs, from) == [m] + AllFrom(rs, m.end);
  }

  /** `preg_match`: the match at the leftmost position at or after `from`. */
  function Search(p: Pattern, s: string, from: nat): (r: Option<Match>)
    requires from <= |s|
    ensures r.Some? ==> from <= r.value.start < r.value.end <= |s| && GroupsShape(p, r.value.groups)
  {
    FirstFromFirst(Tries(p, s), from);
    FirstFrom(Tries(p, s), from)
  }

  /** The match of `preg_match` is the leftmost one, and it is a genuine match there. */
  lemma SearchLeftmost(p: Pattern, s: string, from: nat)
    requires from <= |s|
    ensures Search(p, s, from).Some? ==>
      var m := Search(p, s, from).value;
      MatchAt(p, s, m.start) == Some(m) &&
      forall j :: from <= j < m.start ==> MatchAt(p, s, j).None?
    ensures Search(p, s, from).None? ==> forall j :: from <= j <= |s| ==> MatchAt(p, s, j).None?
  {
    FirstFromFirst(Tries(p, s), from);
  }

  /** Conversely, a match at a position with no match before it is what `preg_match` reports. */
  lemma SearchFinds(p: Pattern, s: string, from: nat, at: nat)
    requires from <= at <= |s|
    requires MatchAt(p, s, at).Some?
    requires forall j :: from <= j < at ==> MatchAt(p, s, j).None?
    ensures Search(p, s, from) == MatchAt(p, s, at)
  {
    SearchLeftmost(p, s, from);
    var m := Search(p, s, from).value;
    assert m.start == at;
  }

  /** `preg_match_all`: successive matches, each search resuming where the last match ended. */
  function AllMatches(p: Pattern, s: string, from: nat): (r: seq<Match>)
  {
    AllFrom(Tries(p, s), from)
  }

  /** `preg_match_all` reports genuine matches of the pattern, in text order and
      without overlap. */
  lemma AllMatchesOrdered(p: Pattern, s: string, from: nat)
    ensures var ms := AllMatches(p, s, from);
      (forall k :: 0 <= k < |ms| ==> from <= ms[k].start < ms[k].end <= |s| && MatchAt(p, s, ms[k].start) == Some(ms[k])) &&
      (forall k :: 0 <= k < |ms| - 1 ==> ms[k].end <= ms[k + 1].start)
  {
    var rs := Tries(p, s);
    AllFromOrdered(rs, from);
    var ms := AllMatches(p, s, from);
    assert ms == AllFrom(rs, from);
    forall k | 0 <= k < |ms|
      ensures ms[k].start <= |s| && MatchAt(p, s, ms[k].start) == Some(ms[k])
    {
      assert ms[k].start < |rs| && rs[ms[k].start] == Some(ms[k]);
    }
  }

  // ---------------------------------------------------------------------
  // The engine as the rest of the model uses it
  // ---------------------------------------------------------------------

  /** A `preg_match` engine: the match of a pattern in a text, or None. */
  type Engine = (Pattern, string) -> Option<Match>

  /** The PCRE semantics above, as an engine. */
  function Pcre(): Engine {
    (p: Pattern, s: string) => Search(p, s, 0)
  }

  /** Every match an engine reports carries the captures its pattern has. */
  ghost predicate Shaped(search: Engine) {
    forall p, s :: search(p, s).Some? ==> GroupsShape(p, search(p, s).value.groups)
  }

  /** An engine finds nothing in an empty text. */
  ghost predicate NothingInEmpty(search: Engine) {
    forall p :: search(p, "").None?
  }

  lemma PcreShaped()
    ensures Shaped(Pcre())
  {
  }

  /** Every pattern needs at least one character, so PCRE finds nothing in "". */
  lemma PcreNothingInEmpty()
    ensures NothingInEmpty(Pcre())
  {
  }

  /** A `preg_match_all` engine: the successive matches of a pattern in a text. */
  type AllEngine = (Pattern, string) -> seq<Match>

  /** The PCRE semantics above, as an engine. */
  function PcreAll(): AllEngine {
    (p: Pattern, s: string) => AllMatches(p, s, 0)
  }

  /** Every match an engine reports lies within the text and carries the captures
      its pattern has; successive matches do not overlap. */
  ghost predicate Lawful(all: AllEngine) {
    (forall p, s, k :: 0 <= k < |all(p, s)| ==>
       all(p, s)[k].start <= all(p, s)[k].end <= |s| && GroupsShape(p, all(p, s)[k].groups)) &&
    (forall p, s, k :: 0 <= k < |all(p, s)| - 1 ==> all(p, s)[k].end <= all(p, s)[k + 1].start) &&
    (forall s, k :: 0 <= k < |all(AnchorHref, s)| ==> QuotedValue(s, all(AnchorHref, s)[k]))
  }

  lemma PcreAllLawful()
    ensures Lawful(PcreAll())
  {
    forall p, s ensures
      (forall k :: 0 <= k < |PcreAll()(p, s)| ==>
         PcreAll()(p, s)[k].start <= PcreAll()(p, s)[k].end <= |s| && GroupsShape(p, PcreAll()(p, s)[k].groups)) &&
      (forall k :: 0 <= k < |PcreAll()(p, s)| - 1 ==> PcreAll()(p, s)[k].end <= PcreAll()(p, s)[k + 1].start)
    {
      AllMatchesOrdered(p, s, 0);
      var ms := AllMatches(p, s, 0);
      forall k | 0 <= k < |ms| ensures GroupsShape(p, ms[k].groups) {
        assert MatchAt(p, s, ms[k].start) == Some(ms[k]);
      }
    }
    forall s, k | 0 <= k < |PcreAll()(AnchorHref, s)| ensures QuotedValue(s, PcreAll()(AnchorHref, s)[k]) {
      AllMatchesOrdered(AnchorHref, s, 0);
      var ms := AllMatches(AnchorHref, s, 0);
      assert MatchAt(AnchorHref, s, ms[k].start) == Some(ms[k]);
    }
  }
}
