/** `FEC_Email_Parser`: plain text, links, dates and amounts of an email's content.
    `strip_tags` and `html_entity_decode` come from the library record, and
    `preg_match_all` is an engine passed in (`Regex.PcreAll()` is the PCRE one). */
module EmailParser {
  import opened Text
  import opened Foreign
  import opened Regex

  // ---------------------------------------------------------------------
  // Whitespace: preg_replace('/\s+/', ' ', ...) and trim
  // ---------------------------------------------------------------------

  /** Every whitespace character is a plain space, and no two are adjacent. */
  predicate Normalised(r: string) {
    (forall k :: 0 <= k < |r| && IsSpace(r[k]) ==> r[k] == ' ') &&
    (forall k :: 0 <= k < |r| - 1 ==> !(IsSpace(r[k]) && IsSpace(r[k + 1])))
  }

  /** Neither end is a character `trim` removes. */
  predicate Unpadded(r: string) {
    r == [] || (!IsTrimmed(r[0]) && !IsTrimmed(r[|r| - 1]))
  }

  /** Each run of `\s` characters replaced by one space. */
  function Collapse(s: string): (r: string)
    ensures Normalised(r)
    ensures (r != [] && IsSpace(r[0])) <==> (s != [] && IsSpace(s[0]))
    decreases |s|
  {
    if s == [] then []
    else if IsSpace(s[0]) then [' '] + Collapse(s[SpaceEnd(s, 0)..])
    else [s[0]] + Collapse(s[1..])
  }

  /** The characters of `s` that are not whitespace, in order. */
  function Solid(s: string): string {
    if s == [] then [] else (if IsSpace(s[0]) then [] else [s[0]]) + Solid(s[1..])
  }

  lemma {:induction false} SolidSkipsSpaces(s: string, e: nat)
    requires e <= |s| && forall k :: 0 <= k < e ==> IsSpace(s[k])
    ensures Solid(s) == Solid(s[e..])
    decreases e
  {
    if e > 0 {
      assert s[1..][e - 1..] == s[e..];
      SolidSkipsSpaces(s[1..], e - 1);
    }
  }

  /** Collapsing keeps every non-whitespace character, in order. */
  lemma {:induction false} CollapseKeepsText(s: string)
    ensures Solid(Collapse(s)) == Solid(s)
    decreases |s|
  {
    if s != [] {
      if IsSpace(s[0]) {
        var e := SpaceEnd(s, 0);
        CollapseKeepsText(s[e..]);
        SolidSkipsSpaces(s, e);
        assert Solid([' '] + Collapse(s[e..])) == Solid(Collapse(s[e..])) by {
          assert ([' '] + Collapse(s[e..]))[1..] == Collapse(s[e..]);
        }
      } else {
        CollapseKeepsText(s[1..]);
        assert ([s[0]] + Collapse(s[1..]))[1..] == Collapse(s[1..]);
      }
    }
  }

  /** A normalised text has nothing left to collapse. */
  lemma {:induction false} CollapseNormalised(s: string)
    requires Normalised(s)
    ensures Collapse(s) == s
    decreases |s|
  {
    if s != [] {
      assert Normalised(s[1..]);
      if IsSpace(s[0]) {
        assert SpaceEnd(s, 0) == 1;
        assert s == [' '] + s[1..];
      }
      CollapseNormalised(s[1..]);
    }
  }

  /** A text without whitespace has nothing to collapse. */
  lemma {:induction false} CollapsePlain(s: string)
    requires forall k :: 0 <= k < |s| ==> !IsSpace(s[k])
    ensures Collapse(s) == s
    decreases |s|
  {
    if s != [] {
      CollapsePlain(s[1..]);
    }
  }

  /** A run of whitespace starting at `i` ends at the first character that is not whitespace. */
  lemma {:induction false} SpaceEndAt(s: string, i: nat, e: nat)
    requires i <= e <= |s|
    requires forall k :: i <= k < e ==> IsSpace(s[k])
    requires e == |s| || !IsSpace(s[e])
    ensures SpaceEnd(s, i) == e
    decreases e - i
  {
    if i < e {
      SpaceEndAt(s, i + 1, e);
    }
  }

  /** A text ending in a character that is not whitespace keeps that character last. */
  lemma {:induction false} CollapseLast(s: string)
    requires s != [] && !IsSpace(s[|s| - 1])
    ensures Collapse(s) != [] && Collapse(s)[|Collapse(s)| - 1] == s[|s| - 1]
    decreases |s|
  {
    if IsSpace(s[0]) {
      var e := SpaceEnd(s, 0);
      assert e < |s|;
      CollapseLast(s[e..]);
    } else if |s| > 1 {
      CollapseLast(s[1..]);
    } else {
      assert s[1..] == [];
    }
  }

  lemma CollapseSpaceStep(s: string)
    requires s != [] && IsSpace(s[0])
    ensures Collapse(s) == [' '] + Collapse(s[SpaceEnd(s, 0)..])
  {
  }

  lemma CollapseCharStep(s: string)
    requires s != [] && !IsSpace(s[0])
    ensures Collapse(s) == [s[0]] + Collapse(s[1..])
  {
  }

  lemma SliceJoin(u: string, w: string, v: string, e: nat)
    requires e <= |u|
    ensures (u + w + v)[e..] == u[e..] + w + v
  {
  }

  lemma JoinAssoc(c: char, a: string, b: string)
    ensures [c] + (a + " " + b) == ([c] + a) + " " + b
  {
  }

  /** Text after a whitespace run that ends inside `u` does not move the run's end. */
  lemma SpaceEndExtend(u: string, x: string)
    requires SpaceEnd(u, 0) < |u|
    ensures SpaceEnd(u + x, 0) == SpaceEnd(u, 0)
  {
    var s := u + x;
    assert forall k :: 0 <= k < |u| ==> s[k] == u[k];
    SpaceEndAt(s, 0, SpaceEnd(u, 0));
  }

  lemma CollapseJoinChar(u: string, w: string, v: string)
    requires u != [] && !IsSpace(u[0])
    requires Collapse(u[1..] + w + v) == Collapse(u[1..]) + " " + Collapse(v)
    ensures Collapse(u + w + v) == Collapse(u) + " " + Collapse(v)
  {
    SliceJoin(u, w, v, 1);
    CollapseCharStep(u + w + v);
    CollapseCharStep(u);
    JoinAssoc(u[0], Collapse(u[1..]), Collapse(v));
  }

  lemma CollapseJoinSpace(u: string, w: string, v: string)
    requires u != [] && IsSpace(u[0]) && SpaceEnd(u, 0) < |u|
    requires Collapse(u[SpaceEnd(u, 0)..] + w + v) == Collapse(u[SpaceEnd(u, 0)..]) + " " + Collapse(v)
    ensures Collapse(u + w + v) == Collapse(u) + " " + Collapse(v)
  {
    var e := SpaceEnd(u, 0);
    SpaceEndExtend(u, w + v);
    assert u + (w + v) == u + w + v;
    SliceJoin(u, w, v, e);
    CollapseSpaceStep(u + w + v);
    CollapseSpaceStep(u);
    JoinAssoc(' ', Collapse(u[e..]), Collapse(v));
  }

  lemma CollapseJoinStart(w: string, v: string)
    requires w != [] && forall k :: 0 <= k < |w| ==> IsSpace(w[k])
    requires v == [] || !IsSpace(v[0])
    ensures Collapse(w + v) == " " + Collapse(v)
  {
    var s := w + v;
    assert forall k :: 0 <= k < |w| ==> s[k] == w[k];
    SpaceEndAt(s, 0, |w|);
    assert s[|w|..] == v;
    CollapseSpaceStep(s);
  }

  /** A whitespace run between a text that does not end in whitespace and one
      that does not start with it becomes exactly one space. */
  lemma {:induction false} CollapseJoin(u: string, w: string, v: string)
    requires w != [] && forall k :: 0 <= k < |w| ==> IsSpace(w[k])
    requires u == [] || !IsSpace(u[|u| - 1])
    requires v == [] || !IsSpace(v[0])
    ensures Collapse(u + w + v) == Collapse(u) + " " + Collapse(v)
    decreases |u|
  {
    if u == [] {
      assert u + w + v == w + v;
      CollapseJoinStart(w, v);
    } else if IsSpace(u[0]) {
      var e := SpaceEnd(u, 0);
      assert 0 < e < |u|;
      CollapseJoin(u[e..], w, v);
      CollapseJoinSpace(u, w, v);
    } else {
      CollapseJoin(u[1..], w, v);
      CollapseJoinChar(u, w, v);
    }
  }

  /** PHP `ltrim`: the suffix left once the trimmable characters at the start are removed. */
  function TrimStart(s: string): (r: string)
    ensures |r| <= |s| && r == s[|s| - |r|..]
    ensures r == [] || !IsTrimmed(r[0])
    ensures forall k :: 0 <= k < |s| - |r| ==> IsTrimmed(s[k])
  {
    if s != [] && IsTrimmed(s[0]) then TrimStart(s[1..]) else s
  }

  /** PHP `rtrim`: the prefix left once the trimmable characters at the end are removed. */
  function TrimEnd(s: string): (r: string)
    ensures |r| <= |s| && r == s[..|r|]
    ensures r == [] || !IsTrimmed(r[|r| - 1])
    ensures forall k :: |r| <= k < |s| ==> IsTrimmed(s[k])
  {
    if s != [] && IsTrimmed(s[|s| - 1]) then TrimEnd(s[..|s| - 1]) else s
  }

  lemma {:induction false} TrimStartAt(s: string, a: nat)
    requires a <= |s| && forall k :: 0 <= k < a ==> IsTrimmed(s[k])
    requires a == |s| || !IsTrimmed(s[a])
    ensures TrimStart(s) == s[a..]
    decreases a
  {
    if a > 0 {
      assert s[1..][a - 1..] == s[a..];
      TrimStartAt(s[1..], a - 1);
    }
  }

  lemma {:induction false} TrimEndAt(s: string, b: nat)
    requires b <= |s| && forall k :: b <= k < |s| ==> IsTrimmed(s[k])
    requires b == 0 || !IsTrimmed(s[b - 1])
    ensures TrimEnd(s) == s[..b]
    decreases |s| - b
  {
    if b < |s| {
      assert s[..|s| - 1][..b] == s[..b];
      TrimEndAt(s[..|s| - 1], b);
    }
  }

  /** How many characters `trim` removes at the start. */
  function TrimOffset(s: string): (a: nat)
    ensures a <= |s|
  {
    |s| - |TrimStart(s)|
  }

  /** PHP `trim`: the text between the characters it removes at both ends. */
  function Trim(s: string): (r: string)
    ensures Unpadded(r)
    ensures TrimOffset(s) + |r| <= |s| && r == s[TrimOffset(s)..TrimOffset(s) + |r|]
    ensures forall k :: 0 <= k < TrimOffset(s) ==> IsTrimmed(s[k])
    ensures forall k :: TrimOffset(s) + |r| <= k < |s| ==> IsTrimmed(s[k])
  {
    var t := TrimStart(s);
    var r := TrimEnd(t);
    TrimParts(s, t, r);
    r
  }

  /** The trimmed slice of `s`, from the facts of `ltrim` and `rtrim`. */
  lemma TrimParts(s: string, t: string, r: string)
    requires |t| <= |s| && t == s[|s| - |t|..] && (t == [] || !IsTrimmed(t[0]))
    requires |r| <= |t| && r == t[..|r|] && (r == [] || !IsTrimmed(r[|r| - 1]))
    requires forall k :: |r| <= k < |t| ==> IsTrimmed(t[k])
    ensures Unpadded(r)
    ensures r == s[|s| - |t|..|s| - |t| + |r|]
    ensures forall k :: |s| - |t| + |r| <= k < |s| ==> IsTrimmed(s[k])
  {
    forall k | |s| - |t| + |r| <= k < |s|
      ensures IsTrimmed(s[k])
    {
      assert s[k] == t[k - (|s| - |t|)];
    }
  }

  /** `trim` removes exactly the padding: whenever a text is trimmable
      characters around an unpadded middle, `trim` gives that middle. */
  lemma TrimAt(s: string, a: nat, b: nat)
    requires a <= b <= |s|
    requires forall k :: 0 <= k < a ==> IsTrimmed(s[k])
    requires forall k :: b <= k < |s| ==> IsTrimmed(s[k])
    requires Unpadded(s[a..b])
    ensures Trim(s) == s[a..b]
  {
    TrimIs(s);
    if a < b {
      SliceEnds(s, a, b);
      TrimStartAt(s, a);
      SuffixTail(s, a, b);
      TrimEndAt(s[a..], b - a);
    } else {
      TrimStartAt(s, |s|);
    }
  }

  lemma TrimIs(s: string)
    ensures Trim(s) == TrimEnd(TrimStart(s))
  {
  }

  lemma SliceEnds(s: string, a: nat, b: nat)
    requires a < b <= |s|
    ensures s[a..b][0] == s[a] && s[a..b][b - a - 1] == s[b - 1]
    ensures s[a..][..b - a] == s[a..b] && s[a..][b - a - 1] == s[b - 1]
  {
  }

  lemma SuffixTail(s: string, a: nat, b: nat)
    requires a <= b <= |s|
    requires forall k :: b <= k < |s| ==> IsTrimmed(s[k])
    ensures forall k :: b - a <= k < |s[a..]| ==> IsTrimmed(s[a..][k])
  {
    forall k | b - a <= k < |s[a..]|
      ensures IsTrimmed(s[a..][k])
    {
      assert s[a..][k] == s[a + k];
    }
  }

  lemma TrimUnpadded(s: string)
    requires Unpadded(s)
    ensures Trim(s) == s
  {
  }

  lemma NormalisedSlice(s: string, a: nat, b: nat)
    requires Normalised(s) && a <= b <= |s|
    ensures Normalised(s[a..b])
  {
    var t := s[a..b];
    assert forall k :: 0 <= k < |t| ==> t[k] == s[a + k];
  }

  /** The whitespace step of `extract_plain_text`. */
  function Squeeze(s: string): (r: string)
    ensures Normalised(r) && Unpadded(r)
  {
    var c := Collapse(s);
    var r := Trim(c);
    NormalisedSlice(c, TrimOffset(c), TrimOffset(c) + |r|);
    r
  }

  /** Squeezing twice is squeezing once. */
  lemma SqueezeIdempotent(s: string)
    ensures Squeeze(Squeeze(s)) == Squeeze(s)
  {
    var r := Squeeze(s);
    CollapseNormalised(r);
    TrimUnpadded(r);
  }

  /** A word (no whitespace, no trimmable character at either end) squeezes to itself. */
  lemma SqueezeWord(s: string)
    requires forall k :: 0 <= k < |s| ==> !IsSpace(s[k])
    requires Unpadded(s)
    ensures Squeeze(s) == s
  {
    CollapsePlain(s);
    TrimUnpadded(s);
  }

  /** Text whose ends are neither whitespace nor trimmable: collapsing changes
      neither end, so trimming then removes nothing. */
  lemma SqueezeSolidEnds(s: string)
    requires s != [] && !IsSpace(s[0]) && !IsTrimmed(s[0])
    requires !IsSpace(s[|s| - 1]) && !IsTrimmed(s[|s| - 1])
    ensures Squeeze(s) == Collapse(s) && Collapse(s) != []
    ensures Collapse(s)[0] == s[0] && Collapse(s)[|Collapse(s)| - 1] == s[|s| - 1]
  {
    CollapseLast(s);
    TrimUnpadded(Collapse(s));
  }

  lemma SqueezeIs(s: string)
    ensures Squeeze(s) == Trim(Collapse(s))
  {
  }

  lemma Regroup(a: string, b: string, c: string)
    ensures a + b + c == a + (b + c) && a + [] == a && [] + a == a
  {
  }

  /** Whitespace on either side of a text that neither starts nor ends with it
      collapses to at most one space on each side. */
  lemma CollapsePadding(p: string, s: string, q: string)
    requires forall k :: 0 <= k < |p| ==> IsSpace(p[k])
    requires forall k :: 0 <= k < |q| ==> IsSpace(q[k])
    requires s != [] && !IsSpace(s[0]) && !IsSpace(s[|s| - 1])
    ensures Collapse(p + s + q) == (if p == [] then "" else " ") + Collapse(s) + (if q == [] then "" else " ")
  {
    var pre: string, c, post: string := if p == [] then "" else " ", Collapse(s), if q == [] then "" else " ";
    assert (s + q)[0] == s[0];
    CollapsePadStart(p, s + q);
    CollapsePadEnd(s, q);
    Regroup(p, s, q);
    Regroup(pre, c, post);
  }

  lemma CollapsePadStart(p: string, t: string)
    requires forall k :: 0 <= k < |p| ==> IsSpace(p[k])
    requires t != [] && !IsSpace(t[0])
    ensures Collapse(p + t) == (if p == [] then "" else " ") + Collapse(t)
  {
    if p == [] {
      assert p + t == t;
    } else {
      CollapseJoinStart(p, t);
    }
  }

  lemma CollapsePadEnd(s: string, q: string)
    requires forall k :: 0 <= k < |q| ==> IsSpace(q[k])
    requires s != [] && !IsSpace(s[|s| - 1])
    ensures Collapse(s + q) == Collapse(s) + (if q == [] then "" else " ")
  {
    if q == [] {
      assert s + q == s;
    } else {
      CollapseJoin(s, q, []);
      assert s + q + [] == s + q;
      assert Collapse([]) == [];
      assert Collapse(s) + " " + [] == Collapse(s) + " ";
    }
  }

  /** `trim` keeps an unpadded middle between trimmable padding. */
  lemma TrimAround(pre: string, m: string, post: string)
    requires forall k :: 0 <= k < |pre| ==> IsTrimmed(pre[k])
    requires forall k :: 0 <= k < |post| ==> IsTrimmed(post[k])
    requires Unpadded(m)
    ensures Trim(pre + m + post) == m
  {
    var x := pre + m + post;
    assert x[|pre|..|pre| + |m|] == m;
    assert forall k :: 0 <= k < |pre| ==> x[k] == pre[k];
    assert forall k :: |pre| + |m| <= k < |x| ==> x[k] == post[k - |pre| - |m|];
    TrimAt(x, |pre|, |pre| + |m|);
  }

  /** Whitespace before and after the text is dropped. */
  lemma SqueezePadding(p: string, s: string, q: string)
    requires forall k :: 0 <= k < |p| ==> IsSpace(p[k])
    requires forall k :: 0 <= k < |q| ==> IsSpace(q[k])
    requires s != [] && !IsSpace(s[0]) && !IsTrimmed(s[0])
    requires !IsSpace(s[|s| - 1]) && !IsTrimmed(s[|s| - 1])
    ensures Squeeze(p + s + q) == Squeeze(s)
  {
    SqueezeSolidEnds(s);
    CollapsePadding(p, s, q);
    TrimAround(if p == [] then "" else " ", Collapse(s), if q == [] then "" else " ");
    SqueezeIs(p + s + q);
  }

  /** A text ending in a kept character is trimmed only at its start. */
  lemma TrimKeepsEnd(x: string)
    requires x != [] && !IsTrimmed(x[|x| - 1])
    ensures Trim(x) != [] && x == x[..TrimOffset(x)] + Trim(x)
    ensures forall k :: 0 <= k < TrimOffset(x) ==> IsTrimmed(x[..TrimOffset(x)][k])
  {
    var a, r := TrimOffset(x), Trim(x);
    KeptAtEnd(x, a + |r|);
    KeptBefore(x, a);
    SplitAt(x, a, r);
    PrefixTrimmed(x, a);
  }

  lemma SplitAt(x: string, a: nat, r: string)
    requires a <= |x| && r == x[a..|x|]
    ensures x == x[..a] + r
  {
    assert x == x[..a] + x[a..];
  }

  lemma PrefixTrimmed(x: string, a: nat)
    requires a <= |x| && forall k :: 0 <= k < a ==> IsTrimmed(x[k])
    ensures forall k :: 0 <= k < a ==> IsTrimmed(x[..a][k])
  {
  }

  /** A text starting with a kept character is trimmed only at its end. */
  lemma TrimKeepsStart(y: string)
    requires y != [] && !IsTrimmed(y[0])
    ensures Trim(y) != [] && y == Trim(y) + y[|Trim(y)|..]
    ensures forall k :: 0 <= k < |y| - |Trim(y)| ==> IsTrimmed(y[|Trim(y)|..][k])
  {
    var a, r := TrimOffset(y), Trim(y);
    KeptAtStart(y, a);
    KeptAfter(y, |r|);
    assert y == y[..|r|] + y[|r|..];
    forall k | 0 <= k < |y| - |r|
      ensures IsTrimmed(y[|r|..][k])
    {
      assert y[|r|..][k] == y[|r| + k];
    }
  }

  lemma KeptAtEnd(x: string, b: nat)
    requires b <= |x| && x != [] && !IsTrimmed(x[|x| - 1])
    requires forall k :: b <= k < |x| ==> IsTrimmed(x[k])
    ensures b == |x|
  {
  }

  lemma KeptBefore(x: string, a: nat)
    requires a <= |x| && x != [] && !IsTrimmed(x[|x| - 1])
    requires forall k :: 0 <= k < a ==> IsTrimmed(x[k])
    ensures a < |x|
  {
  }

  lemma KeptAtStart(y: string, a: nat)
    requires a <= |y| && y != [] && !IsTrimmed(y[0])
    requires forall k :: 0 <= k < a ==> IsTrimmed(y[k])
    ensures a == 0
  {
  }

  lemma KeptAfter(y: string, b: nat)
    requires b <= |y| && y != [] && !IsTrimmed(y[0])
    requires forall k :: b <= k < |y| ==> IsTrimmed(y[k])
    ensures 0 < b
  {
  }

  lemma Regroup4(a: string, b: string, c: string, d: string)
    ensures (a + b) + " " + (c + d) == a + (b + " " + c) + d
  {
  }

  /** The space between a text ending and one starting with a kept character
      survives trimming: trimming the join trims each side. */
  lemma TrimJoin(x: string, y: string)
    requires x != [] && !IsTrimmed(x[|x| - 1])
    requires y != [] && !IsTrimmed(y[0])
    ensures Trim(x + " " + y) == Trim(x) + " " + Trim(y)
  {
    TrimKeepsEnd(x);
    TrimKeepsStart(y);
    var rx, ry := Trim(x), Trim(y);
    var pre, post := x[..TrimOffset(x)], y[|ry|..];
    Regroup4(pre, rx, ry, post);
    TrimAround(pre, rx + " " + ry, post);
  }

  /** A whitespace run between two texts becomes a single space: the squeeze of
      the whole is the two squeezes joined by one space. */
  lemma SqueezeJoin(u: string, w: string, v: string)
    requires u != [] && !IsSpace(u[|u| - 1]) && !IsTrimmed(u[|u| - 1])
    requires v != [] && !IsSpace(v[0]) && !IsTrimmed(v[0])
    requires w != [] && forall k :: 0 <= k < |w| ==> IsSpace(w[k])
    ensures Squeeze(u + w + v) == Squeeze(u) + " " + Squeeze(v)
  {
    CollapseJoin(u, w, v);
    CollapseLast(u);
    CollapseCharStep(v);
    TrimJoin(Collapse(u), Collapse(v));
    SqueezeIs(u + w + v);
    SqueezeIs(u);
    SqueezeIs(v);
  }

  /** `extract_plain_text`: tags stripped, entities decoded, whitespace squeezed. */
  function PlainText(lib: Lib, html: string): (r: string)
    ensures Normalised(r) && Unpadded(r)
  {
    Squeeze(lib.htmlEntityDecode(lib.stripTags(html)))
  }

  /** In the decoded text, whitespace between two texts becomes one space, and
      whitespace at its ends is dropped. */
  lemma PlainTextJoin(lib: Lib, html: string, p: string, u: string, w: string, v: string, q: string)
    requires lib.htmlEntityDecode(lib.stripTags(html)) == p + u + w + v + q
    requires forall k :: 0 <= k < |p| ==> IsSpace(p[k])
    requires forall k :: 0 <= k < |q| ==> IsSpace(q[k])
    requires u != [] && !IsSpace(u[0]) && !IsTrimmed(u[0]) && !IsSpace(u[|u| - 1]) && !IsTrimmed(u[|u| - 1])
    requires v != [] && !IsSpace(v[0]) && !IsTrimmed(v[0]) && !IsSpace(v[|v| - 1]) && !IsTrimmed(v[|v| - 1])
    requires w != [] && forall k :: 0 <= k < |w| ==> IsSpace(w[k])
    ensures PlainText(lib, html) == Squeeze(u) + " " + Squeeze(v)
  {
    var s := u + w + v;
    assert p + u + w + v + q == p + s + q;
    SqueezePadding(p, s, q);
    SqueezeJoin(u, w, v);
  }

  // ---------------------------------------------------------------------
  // Links, dates, amounts
  // ---------------------------------------------------------------------

  /** `extract_links`: capture 2 of every `<a … href="…"` match, in document order. */
  function Links(all: AllEngine, html: string): (r: seq<string>)
    requires Lawful(all)
  {
    var ms := all(AnchorHref, html);
    seq(|ms|, k requires 0 <= k < |ms| => ms[k].groups[1])
  }

  /** Each link is the text between an opening quote and the next matching quote,
      and comes from a later position of the document than the one before it. */
  lemma LinksQuoted(all: AllEngine, html: string)
    requires Lawful(all)
    ensures var ms := all(AnchorHref, html);
      |Links(all, html)| == |ms| &&
      forall k :: 0 <= k < |ms| ==>
        var v := Links(all, html)[k];
        QuotedValue(html, ms[k]) && v == html[ms[k].end - 1 - |v|..ms[k].end - 1] &&
        (k + 1 < |ms| ==> ms[k].end <= ms[k + 1].start)
  {
  }

  /** The whole text of each match, in order. */
  function MatchedTexts(s: string, ms: seq<Match>): (r: seq<string>)
    requires forall k :: 0 <= k < |ms| ==> ms[k].start <= ms[k].end <= |s|
    ensures |r| == |ms|
    ensures forall k :: 0 <= k < |ms| ==> r[k] == s[ms[k].start..ms[k].end]
  {
    seq(|ms|, k requires 0 <= k < |ms| => s[ms[k].start..ms[k].end])
  }

  /** The texts of all matches of each pattern in turn. */
  function AllTexts(all: AllEngine, pats: seq<Pattern>, s: string): seq<string>
    requires Lawful(all)
  {
    if pats == [] then []
    else AllTexts(all, pats[..|pats| - 1], s) + MatchedTexts(s, all(pats[|pats| - 1], s))
  }

  /** The parser's date patterns, each case-sensitive about the ordinal suffix. */
  const ParserDatePatterns: seq<Pattern> := [BareDate(NumericDate), BareDate(MonthFirst), BareDate(DayFirst)]

  /** `\$(AMOUNT)` and `(AMOUNT)\s*(?:USD|dollars|EUR|GBP)`. */
  const ParserAmountPatterns: seq<Pattern> := [DollarAmount, AmountWithCurrency]

  /** The loops of `extract_dates` and `extract_amounts`: for each pattern, every match's whole text. */
  method CollectMatches(all: AllEngine, pats: seq<Pattern>, s: string) returns (found: seq<string>)
    requires Lawful(all)
    ensures found == AllTexts(all, pats, s)
  {
    found := [];
    var p := 0;
    while p < |pats|
      invariant 0 <= p <= |pats|
      invariant found == AllTexts(all, pats[..p], s)
    {
      var ms := all(pats[p], s);
      var k := 0;
      while k < |ms|
        invariant 0 <= k <= |ms|
        invariant found == AllTexts(all, pats[..p], s) + MatchedTexts(s, ms[..k])
      {
        MatchedTextsStep(s, ms, k);
        found := found + [s[ms[k].start..ms[k].end]];
        k := k + 1;
      }
      assert ms[..k] == ms;
      AllTextsStep(all, pats, p, s);
      p := p + 1;
    }
    assert pats[..p] == pats;
  }

  lemma MatchedTextsStep(s: string, ms: seq<Match>, k: nat)
    requires k < |ms| && forall j :: 0 <= j < |ms| ==> ms[j].start <= ms[j].end <= |s|
    ensures MatchedTexts(s, ms[..k + 1]) == MatchedTexts(s, ms[..k]) + [s[ms[k].start..ms[k].end]]
  {
  }

  lemma AllTextsStep(all: AllEngine, pats: seq<Pattern>, p: nat, s: string)
    requires Lawful(all) && p < |pats|
    ensures AllTexts(all, pats[..p + 1], s) == AllTexts(all, pats[..p], s) + MatchedTexts(s, all(pats[p], s))
  {
    assert pats[..p + 1][..p] == pats[..p];
  }

  /** `extract_dates`: the raw texts of the numeric dates, then of the "Month DD,
      YYYY" dates, then of the "DD Month YYYY" dates, each group in text order. */
  method ExtractDates(all: AllEngine, text: string) returns (dates: seq<string>)
    requires Lawful(all)
    ensures dates == MatchedTexts(text, all(BareDate(NumericDate), text)) +
                     MatchedTexts(text, all(BareDate(MonthFirst), text)) +
                     MatchedTexts(text, all(BareDate(DayFirst), text))
  {
    dates := CollectMatches(all, ParserDatePatterns, text);
    var ps := ParserDatePatterns;
    assert ps[..2][..1] == [BareDate(NumericDate)] && ps[..2][1] == BareDate(MonthFirst);
    assert AllTexts(all, [BareDate(NumericDate)], text) == MatchedTexts(text, all(BareDate(NumericDate), text));
    assert AllTexts(all, ps[..2], text) == AllTexts(all, [BareDate(NumericDate)], text) + MatchedTexts(text, all(BareDate(MonthFirst), text));
    assert ps[..|ps| - 1] == ps[..2];
  }

  /** `extract_amounts`: the raw texts of the `$` amounts, then of the amounts
      followed by a currency, each group in text order. */
  method ExtractAmounts(all: AllEngine, text: string) returns (amounts: seq<string>)
    requires Lawful(all)
    ensures amounts == MatchedTexts(text, all(DollarAmount, text)) + MatchedTexts(text, all(AmountWithCurrency, text))
  {
    amounts := CollectMatches(all, ParserAmountPatterns, text);
    var ps := ParserAmountPatterns;
    assert AllTexts(all, [DollarAmount], text) == MatchedTexts(text, all(DollarAmount, text));
    assert ps[..|ps| - 1] == [DollarAmount];
  }

  /** Each text a collection reports is a piece of the input, and the pieces a
      pattern reports follow one another without overlap. */
  lemma MatchedTextsInOrder(all: AllEngine, p: Pattern, s: string)
    requires Lawful(all)
    ensures var ms := all(p, s);
      forall k :: 0 <= k < |ms| ==>
        MatchedTexts(s, ms)[k] == s[ms[k].start..ms[k].end] && (k + 1 < |ms| ==> ms[k].end <= ms[k + 1].start)
  {
  }

  /** What `parse_content` returns. */
  datatype Parsed = Parsed(plainText: string, links: seq<string>, dates: seq<string>, amounts: seq<string>)

  /** `parse_content`: the four fields, each computed from the content as given. */
  method ParseContent(lib: Lib, all: AllEngine, content: string) returns (r: Parsed)
    requires Lawful(all)
    ensures r.plainText == PlainText(lib, content) && Normalised(r.plainText) && Unpadded(r.plainText)
    ensures r.links == Links(all, content)
    ensures r.dates == AllTexts(all, ParserDatePatterns, content)
    ensures r.amounts == AllTexts(all, ParserAmountPatterns, content)
  {
    var dates := CollectMatches(all, ParserDatePatterns, content);
    var amounts := CollectMatches(all, ParserAmountPatterns, content);
    r := Parsed(PlainText(lib, content), Links(all, content), dates, amounts);
  }
}
