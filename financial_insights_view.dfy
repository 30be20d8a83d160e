/** The financial-insights view: the summary counters, the three "top five"
    selections and the due-status label. `time()` and `strtotime('+30 days')` are
    the parameters `now` and `horizon`. */
module InsightsView {
  import opened Text
  import opened Foreign
  import DataExporter

  type Row = DataExporter.Row

  // ---------------------------------------------------------------------
  // Summary counters
  // ---------------------------------------------------------------------

  datatype Counts = Counts(bills: nat, upcoming: nat, billAmount: nat, priceIncreases: nat, subscriptions: nat)

  /** What one insight adds to the counters: a bill, a price increase or a
      subscription renewal, by its type, and nothing for any other type. */
  function Step(lib: Lib, c: Counts, r: Row, now: int, horizon: int): Counts {
    if r.insightType == "bill_due" then
      c.(bills := c.bills + 1, billAmount := c.billAmount + r.amount.GetOr(0),
         upcoming := if DataExporter.DueWithin(lib, r, now, horizon) then c.upcoming + 1 else c.upcoming)
    else if r.insightType == "price_increase" then c.(priceIncreases := c.priceIncreases + 1)
    else if r.insightType == "subscription_renewal" then c.(subscriptions := c.subscriptions + 1)
    else c
  }

  /** The counters after the first insights. */
  function Tally(lib: Lib, xs: seq<Row>, now: int, horizon: int): (c: Counts)
    ensures c.upcoming <= c.bills
    ensures c.bills + c.priceIncreases + c.subscriptions <= |xs|
  {
    if xs == [] then Counts(0, 0, 0, 0, 0)
    else Step(lib, Tally(lib, xs[..|xs| - 1], now, horizon), xs[|xs| - 1], now, horizon)
  }

  /** The summary `foreach`. */
  method SummaryCounts(lib: Lib, insights: seq<Row>, now: int, horizon: int) returns (c: Counts)
    ensures c == Tally(lib, insights, now, horizon)
    ensures c.upcoming <= c.bills
  {
    var totalBills: nat, upcomingBills: nat, totalBillAmount: nat, priceIncreases: nat, subscriptionRenewals: nat := 0, 0, 0, 0, 0;
    var k := 0;
    while k < |insights|
      invariant 0 <= k <= |insights|
      invariant Counts(totalBills, upcomingBills, totalBillAmount, priceIncreases, subscriptionRenewals) == Tally(lib, insights[..k], now, horizon)
    {
      assert insights[..k + 1][..k] == insights[..k];
      var r := insights[k];
      if r.insightType == "bill_due" {
        totalBills := totalBills + 1;
        totalBillAmount := totalBillAmount + r.amount.GetOr(0);
        if r.dueDate.Some? && Truthy(r.dueDate.value) && lib.strToTime(r.dueDate.value) > now
           && lib.strToTime(r.dueDate.value) < horizon {
          upcomingBills := upcomingBills + 1;
        }
      } else if r.insightType == "price_increase" {
        priceIncreases := priceIncreases + 1;
      } else if r.insightType == "subscription_renewal" {
        subscriptionRenewals := subscriptionRenewals + 1;
      }
      k := k + 1;
    }
    assert insights[..k] == insights;
    c := Counts(totalBills, upcomingBills, totalBillAmount, priceIncreases, subscriptionRenewals);
  }

  // ---------------------------------------------------------------------
  // Selections: array_filter, usort, array_slice(…, 0, 5)
  // ---------------------------------------------------------------------

  datatype Selection = UpcomingBills | PriceIncreases | SubscriptionRenewals

  /** The `array_filter` callback of each list. */
  predicate Selected(lib: Lib, sel: Selection, r: Row, now: int, horizon: int) {
    match sel
    case UpcomingBills => r.insightType == "bill_due" && DataExporter.DueWithin(lib, r, now, horizon)
    case PriceIncreases => r.insightType == "price_increase"
    case SubscriptionRenewals => r.insightType == "subscription_renewal"
  }

  /** The value the `usort` comparator subtracts: the due date for upcoming bills,
      the creation time negated (newest first) for price increases, and the due
      date, or the creation time when there is none, for renewals. */
  function Key(lib: Lib, sel: Selection, r: Row): int {
    match sel
    case UpcomingBills => lib.strToTime(r.dueDate.GetOr(""))
    case PriceIncreases => -lib.strToTime(r.createdAt)
    case SubscriptionRenewals => lib.strToTime(if r.dueDate.Some? then r.dueDate.value else r.createdAt)
  }

  function Filter(lib: Lib, sel: Selection, xs: seq<Row>, now: int, horizon: int): (r: seq<Row>)
    ensures |r| <= |xs|
  {
    if xs == [] then []
    else Filter(lib, sel, xs[..|xs| - 1], now, horizon) + (if Selected(lib, sel, xs[|xs| - 1], now, horizon) then [xs[|xs| - 1]] else [])
  }

  /** The filter keeps exactly the selected insights, as many times as they occur. */
  lemma {:induction false} FilterKeepsSelected(lib: Lib, sel: Selection, xs: seq<Row>, now: int, horizon: int)
    ensures forall r ::
      multiset(Filter(lib, sel, xs, now, horizon))[r] == (if Selected(lib, sel, r, now, horizon) then multiset(xs)[r] else 0)
    decreases |xs|
  {
    if xs != [] {
      var init := xs[..|xs| - 1];
      FilterKeepsSelected(lib, sel, init, now, horizon);
      assert xs == init + [xs[|xs| - 1]];
    }
  }

  predicate SortedBy(lib: Lib, sel: Selection, s: seq<Row>) {
    forall i, j :: 0 <= i < j < |s| ==> Key(lib, sel, s[i]) <= Key(lib, sel, s[j])
  }

  /** `x` put after every element whose key is not larger. */
  function Insert(lib: Lib, sel: Selection, x: Row, s: seq<Row>): (r: seq<Row>)
    ensures multiset(r) == multiset(s) + multiset{x}
    ensures |r| == |s| + 1
  {
    if s == [] then [x]
    else if Key(lib, sel, s[|s| - 1]) <= Key(lib, sel, x) then s + [x]
    else
      assert s == s[..|s| - 1] + [s[|s| - 1]];
      Insert(lib, sel, x, s[..|s| - 1]) + [s[|s| - 1]]
  }

  /** A bound on the keys of `x` and of `s` bounds the keys of the insertion. */
  lemma {:induction false} InsertBound(lib: Lib, sel: Selection, x: Row, s: seq<Row>, b: int)
    requires Key(lib, sel, x) <= b
    requires forall k :: 0 <= k < |s| ==> Key(lib, sel, s[k]) <= b
    ensures forall k :: 0 <= k < |Insert(lib, sel, x, s)| ==> Key(lib, sel, Insert(lib, sel, x, s)[k]) <= b
    decreases |s|
  {
    if s != [] && Key(lib, sel, s[|s| - 1]) > Key(lib, sel, x) {
      InsertBound(lib, sel, x, s[..|s| - 1], b);
    }
  }

  /** Inserting into a sorted list keeps it sorted. */
  lemma {:induction false} InsertSorted(lib: Lib, sel: Selection, x: Row, s: seq<Row>)
    requires SortedBy(lib, sel, s)
    ensures SortedBy(lib, sel, Insert(lib, sel, x, s))
    decreases |s|
  {
    if s != [] && Key(lib, sel, s[|s| - 1]) > Key(lib, sel, x) {
      var init, last := s[..|s| - 1], s[|s| - 1];
      InsertSorted(lib, sel, x, init);
      InsertBound(lib, sel, x, init, Key(lib, sel, last));
      SortedSnoc(lib, sel, Insert(lib, sel, x, init), last);
    }
  }

  lemma SortedSnoc(lib: Lib, sel: Selection, t: seq<Row>, last: Row)
    requires SortedBy(lib, sel, t)
    requires forall k :: 0 <= k < |t| ==> Key(lib, sel, t[k]) <= Key(lib, sel, last)
    ensures SortedBy(lib, sel, t + [last])
  {
  }

  /** `usort` with a subtracting comparator: ascending by key. */
  function Sort(lib: Lib, sel: Selection, xs: seq<Row>): (r: seq<Row>)
    ensures multiset(r) == multiset(xs)
    ensures |r| == |xs|
  {
    if xs == [] then []
    else
      assert xs == xs[..|xs| - 1] + [xs[|xs| - 1]];
      Insert(lib, sel, xs[|xs| - 1], Sort(lib, sel, xs[..|xs| - 1]))
  }

  lemma {:induction false} SortSorted(lib: Lib, sel: Selection, xs: seq<Row>)
    ensures SortedBy(lib, sel, Sort(lib, sel, xs))
    decreases |xs|
  {
    if xs != [] {
      SortSorted(lib, sel, xs[..|xs| - 1]);
      InsertSorted(lib, sel, xs[|xs| - 1], Sort(lib, sel, xs[..|xs| - 1]));
    }
  }

  /** The list a section shows: the selected insights, sorted, at most five. */
  function Shown(lib: Lib, sel: Selection, xs: seq<Row>, now: int, horizon: int): seq<Row> {
    var s := Sort(lib, sel, Filter(lib, sel, xs, now, horizon));
    if |s| <= 5 then s else s[..5]
  }

  /** The selected insights a section leaves out, beyond the first five. */
  function Hidden(lib: Lib, sel: Selection, xs: seq<Row>, now: int, horizon: int): seq<Row> {
    var s := Sort(lib, sel, Filter(lib, sel, xs, now, horizon));
    if |s| <= 5 then [] else s[5..]
  }

  /** A section shows at most five insights, fewer only when there are no more,
      in key order, and none it leaves out comes before one it shows. */
  lemma ShownInOrder(lib: Lib, sel: Selection, xs: seq<Row>, now: int, horizon: int)
    ensures var shown, hidden := Shown(lib, sel, xs, now, horizon), Hidden(lib, sel, xs, now, horizon);
      |shown| <= 5 && (|shown| < 5 ==> hidden == []) && SortedBy(lib, sel, shown) &&
      forall i, j :: 0 <= i < |shown| && 0 <= j < |hidden| ==> Key(lib, sel, shown[i]) <= Key(lib, sel, hidden[j])
  {
    var s := Sort(lib, sel, Filter(lib, sel, xs, now, horizon));
    SortSorted(lib, sel, Filter(lib, sel, xs, now, horizon));
    var shown, hidden := Shown(lib, sel, xs, now, horizon), Hidden(lib, sel, xs, now, horizon);
    assert s == shown + hidden;
    forall i, j | 0 <= i < |shown| && 0 <= j < |hidden|
      ensures Key(lib, sel, shown[i]) <= Key(lib, sel, hidden[j])
    {
      assert s[i] == shown[i] && s[|shown| + j] == hidden[j];
    }
  }

  /** A section shows only selected insights, and what it shows together with
      what it leaves out is exactly the selected insights, each as often as it
      occurs in the input. */
  lemma ShownSelected(lib: Lib, sel: Selection, xs: seq<Row>, now: int, horizon: int)
    ensures var shown, hidden := Shown(lib, sel, xs, now, horizon), Hidden(lib, sel, xs, now, horizon);
      (forall k :: 0 <= k < |shown| ==> Selected(lib, sel, shown[k], now, horizon)) &&
      forall r ::
        (multiset(shown) + multiset(hidden))[r] == (if Selected(lib, sel, r, now, horizon) then multiset(xs)[r] else 0)
  {
    var f := Filter(lib, sel, xs, now, horizon);
    var s := Sort(lib, sel, f);
    FilterKeepsSelected(lib, sel, xs, now, horizon);
    var shown, hidden := Shown(lib, sel, xs, now, horizon), Hidden(lib, sel, xs, now, horizon);
    assert s == shown + hidden;
    assert multiset(f) == multiset(shown) + multiset(hidden);
    forall k | 0 <= k < |shown|
      ensures Selected(lib, sel, shown[k], now, horizon)
    {
      assert multiset(shown)[shown[k]] > 0;
    }
  }

  /** The Bills card's "upcoming" figure counts the same insights the Upcoming
      Bills section selects before it keeps five, and the two other cards count
      those of their sections. */
  lemma {:induction false} CardsMatchSections(lib: Lib, xs: seq<Row>, now: int, horizon: int)
    ensures Tally(lib, xs, now, horizon).upcoming == |Filter(lib, UpcomingBills, xs, now, horizon)|
    ensures Tally(lib, xs, now, horizon).priceIncreases == |Filter(lib, PriceIncreases, xs, now, horizon)|
    ensures Tally(lib, xs, now, horizon).subscriptions == |Filter(lib, SubscriptionRenewals, xs, now, horizon)|
    decreases |xs|
  {
    if xs != [] {
      CardsMatchSections(lib, xs[..|xs| - 1], now, horizon);
    }
  }

  // ---------------------------------------------------------------------
  // Due-status label
  // ---------------------------------------------------------------------

  datatype Label = Urgent | DueSoon | Upcoming

  /** The label of a bill due `seconds` from now; the view divides by the length
      of a day without rounding. */
  function DueLabel(seconds: int): (l: Label)
    ensures l == Urgent <==> seconds < 3 * 86400
    ensures l == DueSoon <==> 3 * 86400 <= seconds < 7 * 86400
  {
    var days := seconds as real / 86400.0;
    if days < 3.0 then Urgent else if days < 7.0 then DueSoon else Upcoming
  }

  function LabelRank(l: Label): nat {
    match l
    case Urgent => 0
    case DueSoon => 1
    case Upcoming => 2
  }

  /** A bill due later never gets a more urgent label. */
  lemma DueLabelMonotone(a: int, b: int)
    requires a <= b
    ensures LabelRank(DueLabel(a)) <= LabelRank(DueLabel(b))
  {
  }
}
